/**
 * The polling cycle of backend/pathway_stream.py: `fetch_all` walks the polled cities and
 * their stations and turns every successful fetch into a zone record, `_process_batch`
 * aggregates one cycle's records per city into a snapshot, and `AsyncProcessor` drives
 * the cycles (`start`, `stop`) behind the `get_processor` singleton.
 */
module PathwayStream {
  import opened Wrappers
  import opened StationFeed

  /** One row of the cycle's batch: a station reading enriched with zone id and CO2 estimate. */
  datatype ZoneRecord = ZoneRecord(
    zoneId: string,
    zoneName: Json,
    city: string,
    timestamp: Json,
    aqi: real, pm25: real, pm10: real, no2: real, so2: real, o3: real, co: real,
    co2: real)

  /**
   * The record `fetch_all` appends for station `index` of `city`. The "zone_name" lookup
   * always finds "city_name" (every reading carries it), so the station-name default
   * is never used.
   */
  function ToZone(r: StationReading, city: string, index: nat, hour: int): (z: ZoneRecord)
    ensures z.zoneId == ZoneId(city, index) && z.city == city
    ensures z.zoneName == r.cityName && z.timestamp == r.timestamp
    ensures z.aqi == r.aqi && z.pm25 == r.pm25 && z.pm10 == r.pm10
    ensures z.no2 == r.no2 && z.so2 == r.so2 && z.o3 == r.o3 && z.co == r.co
    ensures z.co2 == Co2(r.aqi, hour)
  {
    ZoneRecord(ZoneId(city, index), r.cityName, city, r.timestamp,
               r.aqi, r.pm25, r.pm10, r.no2, r.so2, r.o3, r.co, Co2(r.aqi, hour))
  }

  /**
   * What one cycle's fetches observe: `respond(j, i)` is the reply to the request for
   * station `i` of the city at position `j` of the polled list (`None` when the request
   * raises), `hour` the local hour of day, `now` the UTC time stamp, `parse` Python's
   * `float` on strings.
   */
  datatype CycleEnv = CycleEnv(
    respond: (nat, nat) -> Option<HttpResponse>,
    hour: int,
    now: string,
    parse: FloatParser)

  // ---------------------------------------------------------------------------
  // fetch_all
  // ---------------------------------------------------------------------------

  /** One station request of a cycle: station `index` of the city at position `pos`. */
  datatype Attempt = Attempt(pos: nat, city: string, index: nat, station: string)

  /** The requests `fetch_all` makes for the city at position `pos`: none for an unknown city. */
  function CityAttempts(pos: nat, city: string): seq<Attempt> {
    match Lookup(city)
    case None => []
    case Some(cfg) =>
      seq(|cfg.stations|, i requires 0 <= i < |cfg.stations| => Attempt(pos, city, i, cfg.stations[i]))
  }

  /** All requests of a cycle over `cities`, in the order the nested loops make them. */
  function Attempts(cities: seq<string>): seq<Attempt> {
    if cities == [] then []
    else Attempts(cities[..|cities| - 1]) + CityAttempts(|cities| - 1, cities[|cities| - 1])
  }

  /** `a` names a station of a configured city at its position in `cities`. */
  predicate IsStationOf(cities: seq<string>, a: Attempt) {
    && a.pos < |cities|
    && a.city == cities[a.pos]
    && Lookup(a.city).Some?
    && a.index < |Lookup(a.city).value.stations|
    && a.station == Lookup(a.city).value.stations[a.index]
  }

  /** Request `a` precedes request `b`: earlier city position, or same city and earlier station. */
  predicate Before(a: Attempt, b: Attempt) {
    a.pos < b.pos || (a.pos == b.pos && a.index < b.index)
  }

  predicate Ordered(s: seq<Attempt>) {
    forall p, q :: 0 <= p < q < |s| ==> Before(s[p], s[q])
  }

  /** The zone record a request yields, if its fetch succeeds. */
  function Fetch(a: Attempt, hasClient: bool, env: CycleEnv): (r: Option<ZoneRecord>)
    ensures r.Some? <==> FetchStation(hasClient, a.station, env.respond(a.pos, a.index), env.now, env.parse).Some?
    ensures r.Some? ==> r.value.city == a.city && r.value.zoneId == ZoneId(a.city, a.index)
    ensures r.Some? ==>
      r.value == ToZone(FetchStation(hasClient, a.station, env.respond(a.pos, a.index), env.now, env.parse).value,
                        a.city, a.index, env.hour)
    ensures r.Some? ==> r.value.co2 == Co2(r.value.aqi, env.hour)
  {
    match FetchStation(hasClient, a.station, env.respond(a.pos, a.index), env.now, env.parse)
    case None => None
    case Some(r) => Some(ToZone(r, a.city, a.index, env.hour))
  }

  /** The outcome of every request of a cycle, as one function. */
  function Fetcher(hasClient: bool, env: CycleEnv): Attempt -> Option<ZoneRecord> {
    a => Fetch(a, hasClient, env)
  }

  /** The requests among `attempts` whose fetch succeeds, in order. */
  function Succeeded(attempts: seq<Attempt>, fetch: Attempt -> Option<ZoneRecord>): seq<Attempt> {
    if attempts == [] then []
    else
      var a := attempts[|attempts| - 1];
      Succeeded(attempts[..|attempts| - 1], fetch) + (if fetch(a).Some? then [a] else [])
  }

  /** The records appended for `attempts`: one per successful fetch, nothing for a failure. */
  function Collect(attempts: seq<Attempt>, fetch: Attempt -> Option<ZoneRecord>): seq<ZoneRecord> {
    if attempts == [] then []
    else
      var a := attempts[|attempts| - 1];
      Collect(attempts[..|attempts| - 1], fetch) + (if fetch(a).Some? then [fetch(a).value] else [])
  }

  /** The batch `fetch_all` returns for the polled list `cities`. */
  function CycleRecords(cities: seq<string>, hasClient: bool, env: CycleEnv): seq<ZoneRecord> {
    Collect(Attempts(cities), Fetcher(hasClient, env))
  }

  /** The requests of a cycle are exactly the stations of the configured cities in the list. */
  lemma {:induction false} AttemptsAreStations(cities: seq<string>, a: Attempt)
    ensures a in Attempts(cities) <==> IsStationOf(cities, a)
  {
    if cities != [] {
      var init, last := cities[..|cities| - 1], |cities| - 1;
      AttemptsAreStations(init, a);
      assert Attempts(cities) == Attempts(init) + CityAttempts(last, cities[last]);
      if IsStationOf(cities, a) && a.pos < last {
        assert init[a.pos] == cities[a.pos];
        assert IsStationOf(init, a);
      }
      if IsStationOf(cities, a) && a.pos == last {
        assert CityAttempts(last, cities[last])[a.index] == a;
      }
      if a in Attempts(init) {
        assert IsStationOf(init, a);
        assert init[a.pos] == cities[a.pos];
      }
    }
  }

  lemma {:induction false} AttemptsPositions(cities: seq<string>)
    ensures forall p :: 0 <= p < |Attempts(cities)| ==> Attempts(cities)[p].pos < |cities|
  {
    if cities != [] {
      AttemptsPositions(cities[..|cities| - 1]);
    }
  }

  /**
   * The nested loops make their requests in list position order, then station order, so
   * each (list position, station index) pair is requested at most once. A city listed
   * twice is polled twice.
   */
  lemma {:induction false} AttemptsOrdered(cities: seq<string>)
    ensures Ordered(Attempts(cities))
  {
    if cities != [] {
      var init, last := cities[..|cities| - 1], |cities| - 1;
      AttemptsOrdered(init);
      AttemptsPositions(init);
      var xs, ys := Attempts(init), CityAttempts(last, cities[last]);
      assert forall q :: 0 <= q < |ys| ==> ys[q].pos == last && ys[q].index == q;
      assert Attempts(cities) == xs + ys;
    }
  }

  /** The records of a batch are, one for one, the successful requests, in request order. */
  lemma {:induction false} CollectIsSucceeded(attempts: seq<Attempt>, fetch: Attempt -> Option<ZoneRecord>)
    ensures |Collect(attempts, fetch)| == |Succeeded(attempts, fetch)|
    ensures forall k :: 0 <= k < |Succeeded(attempts, fetch)| ==>
      fetch(Succeeded(attempts, fetch)[k]) == Some(Collect(attempts, fetch)[k])
  {
    if attempts != [] {
      CollectIsSucceeded(attempts[..|attempts| - 1], fetch);
    }
  }

  /** A request is among the successful ones exactly when it was made and its fetch succeeded. */
  lemma {:induction false} SucceededMembers(attempts: seq<Attempt>, fetch: Attempt -> Option<ZoneRecord>, a: Attempt)
    ensures a in Succeeded(attempts, fetch) <==> a in attempts && fetch(a).Some?
  {
    if attempts != [] {
      var init := attempts[..|attempts| - 1];
      SucceededMembers(init, fetch, a);
      assert attempts == init + [attempts[|attempts| - 1]];
    }
  }

  /** Dropping failed requests keeps the request order. */
  lemma {:induction false} SucceededOrdered(attempts: seq<Attempt>, fetch: Attempt -> Option<ZoneRecord>)
    requires Ordered(attempts)
    ensures Ordered(Succeeded(attempts, fetch))
  {
    if attempts != [] {
      var init, a := attempts[..|attempts| - 1], attempts[|attempts| - 1];
      SucceededOrdered(init, fetch);
      var s := Succeeded(init, fetch);
      forall x | x in s
        ensures Before(x, a)
      {
        SucceededMembers(init, fetch, x);
        var p :| 0 <= p < |init| && init[p] == x;
        assert attempts[p] == x;
      }
    }
  }

  /**
   * `fetch_all` as a whole: its records correspond one for one to `origins`, the requests
   * whose fetch succeeded; those are exactly the successful requests for stations of the
   * configured cities in the list (unknown cities and failed stations add nothing), they
   * are in city order then station order (so at most one record per list position and station index), and each
   * record carries its city and the zone id built from its city and 1-based station index.
   */
  lemma CycleRecordsProvenance(cities: seq<string>, hasClient: bool, env: CycleEnv)
    ensures var origins := Succeeded(Attempts(cities), Fetcher(hasClient, env));
      var records := CycleRecords(cities, hasClient, env);
      && |records| == |origins|
      && Ordered(origins)
      && (forall a :: a in origins <==> IsStationOf(cities, a) && Fetch(a, hasClient, env).Some?)
      && (forall k :: 0 <= k < |origins| ==>
            && Fetch(origins[k], hasClient, env) == Some(records[k])
            && records[k].city == origins[k].city
            && records[k].zoneId == ZoneId(origins[k].city, origins[k].index))
  {
    var attempts := Attempts(cities);
    var fetch := Fetcher(hasClient, env);
    var origins := Succeeded(attempts, fetch);
    var records := CycleRecords(cities, hasClient, env);
    CollectIsSucceeded(attempts, fetch);
    AttemptsOrdered(cities);
    SucceededOrdered(attempts, fetch);
    forall a
      ensures a in origins <==> IsStationOf(cities, a) && Fetch(a, hasClient, env).Some?
    {
      SucceededMembers(attempts, fetch, a);
      AttemptsAreStations(cities, a);
    }
    forall k | 0 <= k < |origins|
      ensures Fetch(origins[k], hasClient, env) == Some(records[k])
      ensures records[k].city == origins[k].city && records[k].zoneId == ZoneId(origins[k].city, origins[k].index)
    {
      assert Fetch(origins[k], hasClient, env) == Some(records[k]);
    }
  }

  /** Every record of a batch belongs to a configured city that was in the polled list. */
  lemma RecordsFromPolledCities(cities: seq<string>, hasClient: bool, env: CycleEnv)
    ensures forall z :: z in CycleRecords(cities, hasClient, env) ==> z.city in cities && z.city in CityNames
  {
    CycleRecordsProvenance(cities, hasClient, env);
    var origins := Succeeded(Attempts(cities), Fetcher(hasClient, env));
    var records := CycleRecords(cities, hasClient, env);
    forall z | z in records
      ensures z.city in cities && z.city in CityNames
    {
      var k :| 0 <= k < |records| && records[k] == z;
      assert origins[k] in origins;
      assert IsStationOf(cities, origins[k]);
    }
  }

  /** Without an open HTTP client nothing is fetched: the batch is empty. */
  lemma {:induction false} NoClientNoRecords(attempts: seq<Attempt>, env: CycleEnv)
    ensures Collect(attempts, Fetcher(false, env)) == []
  {
    if attempts != [] {
      NoClientNoRecords(attempts[..|attempts| - 1], env);
      FetcherIsFetchStation(attempts[|attempts| - 1], false, env);
    }
  }

  /** Collecting over two runs of requests is collecting over each, one after the other. */
  lemma {:induction false} CollectAppend(xs: seq<Attempt>, ys: seq<Attempt>, fetch: Attempt -> Option<ZoneRecord>)
    ensures Collect(xs + ys, fetch) == Collect(xs, fetch) + Collect(ys, fetch)
  {
    if ys != [] {
      var init, a := ys[..|ys| - 1], ys[|ys| - 1];
      var tail := if fetch(a).Some? then [fetch(a).value] else [];
      var zs := xs + ys;
      CollectAppend(xs, init, fetch);
      assert Collect(ys, fetch) == Collect(init, fetch) + tail;
      assert zs[..|zs| - 1] == xs + init && zs[|zs| - 1] == a;
      assert Collect(zs, fetch) == Collect(xs + init, fetch) + tail;
    } else {
      assert xs + ys == xs;
    }
  }

  lemma CityAttemptsAt(pos: nat, city: string, i: nat)
    requires Lookup(city).Some? && i < |Lookup(city).value.stations|
    ensures |CityAttempts(pos, city)| == |Lookup(city).value.stations|
    ensures CityAttempts(pos, city)[i] == Attempt(pos, city, i, Lookup(city).value.stations[i])
  {
  }

  /** The outcome of a request is what `fetch_station` gives, turned into a zone record. */
  lemma FetcherIsFetchStation(a: Attempt, hasClient: bool, env: CycleEnv)
    ensures Fetcher(hasClient, env)(a)
         == match FetchStation(hasClient, a.station, env.respond(a.pos, a.index), env.now, env.parse)
            case None => None
            case Some(r) => Some(ToZone(r, a.city, a.index, env.hour))
  {
  }

  /** One more request adds its outcome at the end. */
  lemma CollectStep(xs: seq<Attempt>, i: nat, fetch: Attempt -> Option<ZoneRecord>)
    requires i < |xs|
    ensures Collect(xs[..i + 1], fetch)
         == Collect(xs[..i], fetch) + (if fetch(xs[i]).Some? then [fetch(xs[i]).value] else [])
  {
    assert xs[..i + 1][..i] == xs[..i];
  }

  /** The inner loop of `fetch_all`: the stations of one configured city, in list order. */
  method FetchCity(pos: nat, city: string, stations: seq<string>, hasClient: bool, env: CycleEnv)
    returns (records: seq<ZoneRecord>)
    requires Lookup(city).Some? && stations == Lookup(city).value.stations
    ensures records == Collect(CityAttempts(pos, city), Fetcher(hasClient, env))
  {
    ghost var here := CityAttempts(pos, city);
    ghost var fetch := Fetcher(hasClient, env);
    records := [];
    for i := 0 to |stations|
      invariant records == Collect(here[..i], fetch)
    {
      var a := Attempt(pos, city, i, stations[i]);
      CityAttemptsAt(pos, city, i);
      CollectStep(here, i, fetch);
      var record := Fetch(a, hasClient, env);
      if record.Some? {
        records := records + [record.value];
      }
    }
    assert |here| == |stations| by {
      if |stations| > 0 { CityAttemptsAt(pos, city, 0); }
    }
    assert here[..|stations|] == here;
  }

  /** `fetch_all`: the loop over the polled cities, skipping unknown ones. */
  method FetchAll(cities: seq<string>, hasClient: bool, env: CycleEnv) returns (batch: seq<ZoneRecord>)
    ensures batch == CycleRecords(cities, hasClient, env)
  {
    ghost var fetch := Fetcher(hasClient, env);
    batch := [];
    for j := 0 to |cities|
      invariant batch == Collect(Attempts(cities[..j]), fetch)
    {
      assert cities[..j + 1][..j] == cities[..j];
      assert Attempts(cities[..j + 1]) == Attempts(cities[..j]) + CityAttempts(j, cities[j]);
      CollectAppend(Attempts(cities[..j]), CityAttempts(j, cities[j]), fetch);
      var found := Lookup(cities[j]);
      if found.Some? {
        var records := FetchCity(j, cities[j], found.value.stations, hasClient, env);
        batch := batch + records;
      }
    }
    assert cities[..|cities|] == cities;
  }

  // ---------------------------------------------------------------------------
  // _process_batch
  // ---------------------------------------------------------------------------

  /** One entry of the snapshot's "cities" dict. */
  datatype CityAggregate = CityAggregate(
    city: string,
    totalCo2: real,
    avgAqi: real,
    avgPm25: real,
    count: nat,
    color: string,
    emoji: string)

  /**
   * What `_process_batch` returns: `NoData` is `{"readings": [], "cities": {}}`; `Live`
   * carries the time stamp, the batch's records, the rounded totals, and the per-city
   * aggregates in order of first appearance (the dict's order).
   */
  datatype Snapshot =
    | NoData
    | Live(timestamp: string, readings: seq<ZoneRecord>, totalCo2: real, avgAqi: real,
           cities: seq<CityAggregate>)
  {
    function Readings(): seq<ZoneRecord> {
      if Live? then readings else []
    }
  }

  /** The numeric columns `_process_batch` aggregates. */
  datatype Column = Co2Column | AqiColumn | Pm25Column

  function ValueOf(z: ZoneRecord, c: Column): real {
    match c
    case Co2Column => z.co2
    case AqiColumn => z.aqi
    case Pm25Column => z.pm25
  }

  function SumOf(rows: seq<ZoneRecord>, c: Column): real {
    if rows == [] then 0.0 else SumOf(rows[..|rows| - 1], c) + ValueOf(rows[|rows| - 1], c)
  }

  function MeanOf(rows: seq<ZoneRecord>, c: Column): real
    requires rows != []
  {
    SumOf(rows, c) / (|rows| as real)
  }

  /** `df["city"].unique()`: each city once, in order of first appearance. */
  function CitiesIn(batch: seq<ZoneRecord>): seq<string> {
    if batch == [] then []
    else
      var seen := CitiesIn(batch[..|batch| - 1]);
      var c := batch[|batch| - 1].city;
      if c in seen then seen else seen + [c]
  }

  /** `df[df["city"] == city]`: the rows of one city, in batch order. */
  function RowsOf(batch: seq<ZoneRecord>, city: string): seq<ZoneRecord> {
    if batch == [] then []
    else
      RowsOf(batch[..|batch| - 1], city)
        + (if batch[|batch| - 1].city == city then [batch[|batch| - 1]] else [])
  }

  predicate Distinct<T(==)>(s: seq<T>) {
    forall p, q :: 0 <= p < q < |s| ==> s[p] != s[q]
  }

  lemma {:induction false} CitiesInSpec(batch: seq<ZoneRecord>)
    ensures Distinct(CitiesIn(batch))
    ensures forall c :: c in CitiesIn(batch) <==> exists k :: 0 <= k < |batch| && batch[k].city == c
  {
    if batch != [] {
      var init := batch[..|batch| - 1];
      CitiesInSpec(init);
      forall c
        ensures c in CitiesIn(batch) <==> exists k :: 0 <= k < |batch| && batch[k].city == c
      {
        if exists k :: 0 <= k < |batch| && batch[k].city == c {
          var k :| 0 <= k < |batch| && batch[k].city == c;
          if k < |init| {
            assert init[k].city == c;
          }
        }
        if c in CitiesIn(init) {
          var k :| 0 <= k < |init| && init[k].city == c;
          assert batch[k].city == c;
        }
      }
    }
  }

  /** A city with no row in the batch has no rows. */
  lemma {:induction false} RowsOfAbsent(batch: seq<ZoneRecord>, city: string)
    requires city !in CitiesIn(batch)
    ensures RowsOf(batch, city) == []
  {
    if batch != [] {
      var init := batch[..|batch| - 1];
      assert CitiesIn(init) <= CitiesIn(batch) by {
        assert forall c :: c in CitiesIn(init) ==> c in CitiesIn(batch);
      }
      RowsOfAbsent(init, city);
    }
  }

  /** Every city of the batch has at least one row. */
  lemma {:induction false} RowsOfPresent(batch: seq<ZoneRecord>, city: string)
    requires city in CitiesIn(batch)
    ensures |RowsOf(batch, city)| >= 1
  {
    var init := batch[..|batch| - 1];
    if batch[|batch| - 1].city != city {
      RowsOfPresent(init, city);
    }
  }

  /** One entry of `city_stats`. Colour and emoji fall back to defaults for an unconfigured city. */
  function AggregateOf(batch: seq<ZoneRecord>, city: string): CityAggregate
    requires RowsOf(batch, city) != []
  {
    var rows := RowsOf(batch, city);
    var cfg := Lookup(city);
    CityAggregate(
      city,
      RoundTo(SumOf(rows, Co2Column), 100.0),
      RoundTo(MeanOf(rows, AqiColumn), 10.0),
      RoundTo(MeanOf(rows, Pm25Column), 10.0),
      |rows|,
      if cfg.Some? then cfg.value.color else "#7fff00",
      if cfg.Some? then cfg.value.emoji else "\U{1F33F}")
  }

  /**
   * An entry of `city_stats` holds the city's row count, its CO2 sum to the nearest
   * hundredth, its mean AQI and PM2.5 to the nearest tenth, and the configured colour
   * and emoji (the defaults for a city not in the configuration).
   */
  lemma AggregateValues(batch: seq<ZoneRecord>, city: string)
    requires RowsOf(batch, city) != []
    ensures var a := AggregateOf(batch, city);
      var rows := RowsOf(batch, city);
      && a.city == city
      && a.count == |rows|
      && SumOf(rows, Co2Column) - 0.005 < a.totalCo2 <= SumOf(rows, Co2Column) + 0.005
      && MeanOf(rows, AqiColumn) - 0.05 < a.avgAqi <= MeanOf(rows, AqiColumn) + 0.05
      && MeanOf(rows, Pm25Column) - 0.05 < a.avgPm25 <= MeanOf(rows, Pm25Column) + 0.05
      && (city in CityNames ==> a.color == Lookup(city).value.color && a.emoji == Lookup(city).value.emoji)
      && (city !in CityNames ==> a.color == "#7fff00" && a.emoji == "\U{1F33F}")
  {
    var rows := RowsOf(batch, city);
    RoundToClose(SumOf(rows, Co2Column), 100.0);
    RoundToClose(MeanOf(rows, AqiColumn), 10.0);
    RoundToClose(MeanOf(rows, Pm25Column), 10.0);
  }

  /** Every row `RowsOf` selects belongs to that city, and rows of other cities are left out. */
  lemma {:induction false} RowsOfSpec(batch: seq<ZoneRecord>, city: string)
    ensures forall z :: z in RowsOf(batch, city) <==> z in batch && z.city == city
  {
    if batch != [] {
      var init := batch[..|batch| - 1];
      assert batch == init + [batch[|batch| - 1]];
      RowsOfSpec(init, city);
    }
  }

  /** The aggregates of the cities `cs`, in that order. */
  function Aggregates(batch: seq<ZoneRecord>, cs: seq<string>): seq<CityAggregate>
    requires forall c :: c in cs ==> RowsOf(batch, c) != []
  {
    if cs == [] then []
    else Aggregates(batch, cs[..|cs| - 1]) + [AggregateOf(batch, cs[|cs| - 1])]
  }

  /** `_process_batch(df)`, with `now` for `utcnow()`. */
  function Summarise(batch: seq<ZoneRecord>, now: string): Snapshot {
    if batch == [] then NoData
    else
      var cities := CitiesIn(batch);
      assert forall c :: c in cities ==> RowsOf(batch, c) != [] by {
        forall c | c in cities ensures RowsOf(batch, c) != [] { RowsOfPresent(batch, c); }
      }
      Live(now, batch,
           RoundTo(SumOf(batch, Co2Column), 100.0),
           RoundTo(MeanOf(batch, AqiColumn), 10.0),
           Aggregates(batch, cities))
  }

  function SumCounts(aggs: seq<CityAggregate>): nat {
    if aggs == [] then 0 else SumCounts(aggs[..|aggs| - 1]) + aggs[|aggs| - 1].count
  }

  /** Number of rows of the batch over the cities `cs`. */
  function CountSum(batch: seq<ZoneRecord>, cs: seq<string>): nat {
    if cs == [] then 0 else CountSum(batch, cs[..|cs| - 1]) + |RowsOf(batch, cs[|cs| - 1])|
  }

  /** How often `x` occurs in `cs`. */
  function Occurrences(cs: seq<string>, x: string): nat {
    if cs == [] then 0 else Occurrences(cs[..|cs| - 1], x) + (if cs[|cs| - 1] == x then 1 else 0)
  }

  lemma {:induction false} OccurrencesDistinct(cs: seq<string>, x: string)
    requires Distinct(cs)
    ensures Occurrences(cs, x) == if x in cs then 1 else 0
  {
    if cs != [] {
      var init := cs[..|cs| - 1];
      OccurrencesDistinct(init, x);
      assert cs == init + [cs[|cs| - 1]];
    }
  }

  lemma {:induction false} CountSumExtend(batch: seq<ZoneRecord>, r: ZoneRecord, cs: seq<string>)
    ensures CountSum(batch + [r], cs) == CountSum(batch, cs) + Occurrences(cs, r.city)
  {
    if cs != [] {
      CountSumExtend(batch, r, cs[..|cs| - 1]);
      assert (batch + [r])[..|batch|] == batch;
    }
  }

  lemma {:induction false} AggregatesCount(batch: seq<ZoneRecord>, cs: seq<string>)
    requires forall c :: c in cs ==> RowsOf(batch, c) != []
    ensures SumCounts(Aggregates(batch, cs)) == CountSum(batch, cs)
  {
    if cs != [] {
      var init := cs[..|cs| - 1];
      assert forall c :: c in init ==> c in cs;
      AggregatesCount(batch, init);
    }
  }

  /** Entry `k` of the aggregates is the aggregate of the `k`-th listed city. */
  lemma {:induction false} AggregatesIndex(batch: seq<ZoneRecord>, cs: seq<string>)
    requires forall c :: c in cs ==> RowsOf(batch, c) != []
    ensures |Aggregates(batch, cs)| == |cs|
    ensures forall k :: 0 <= k < |cs| ==>
      RowsOf(batch, cs[k]) != [] && Aggregates(batch, cs)[k] == AggregateOf(batch, cs[k])
  {
    if cs != [] {
      var init := cs[..|cs| - 1];
      assert forall c :: c in init ==> c in cs;
      AggregatesIndex(batch, init);
      var aggs := Aggregates(batch, cs);
      var prefix := Aggregates(batch, init);
      var last := AggregateOf(batch, cs[|cs| - 1]);
      assert aggs == prefix + [last];
      forall k | 0 <= k < |cs|
        ensures RowsOf(batch, cs[k]) != [] && aggs[k] == AggregateOf(batch, cs[k])
      {
        assert cs[k] in cs;
        if k < |init| {
          var c := init[k];
          assert c == cs[k];
          assert prefix[k] == AggregateOf(batch, c);
          assert aggs[k] == prefix[k];
        } else {
          assert k == |cs| - 1;
          assert aggs[k] == last;
        }
      }
    }
  }

  lemma AggregatesAt(batch: seq<ZoneRecord>, cs: seq<string>)
    requires forall c :: c in cs ==> RowsOf(batch, c) != []
    ensures |Aggregates(batch, cs)| == |cs|
    ensures forall k :: 0 <= k < |cs| ==>
      && RowsOf(batch, cs[k]) != []
      && Aggregates(batch, cs)[k] == AggregateOf(batch, cs[k])
      && Aggregates(batch, cs)[k].city == cs[k]
      && Aggregates(batch, cs)[k].count == |RowsOf(batch, cs[k])|
  {
    AggregatesIndex(batch, cs);
    forall k | 0 <= k < |cs|
      ensures AggregateOf(batch, cs[k]).city == cs[k]
      ensures AggregateOf(batch, cs[k]).count == |RowsOf(batch, cs[k])|
    {
      AggregateValues(batch, cs[k]);
    }
  }

  /** Grouping by city loses and invents no row: the per-city counts add up to the batch size. */
  lemma {:induction false} CountsCoverBatch(batch: seq<ZoneRecord>)
    ensures CountSum(batch, CitiesIn(batch)) == |batch|
  {
    if batch != [] {
      var init, r := batch[..|batch| - 1], batch[|batch| - 1];
      assert batch == init + [r];
      CountsCoverBatch(init);
      var seen := CitiesIn(init);
      CitiesInSpec(init);
      CountSumExtend(init, r, seen);
      OccurrencesDistinct(seen, r.city);
      if r.city !in seen {
        RowsOfAbsent(init, r.city);
        assert CitiesIn(batch) == seen + [r.city];
        assert (seen + [r.city])[..|seen|] == seen;
        assert RowsOf(batch, r.city) == RowsOf(init, r.city) + [r];
      }
    }
  }

  /**
   * What `_process_batch` promises of a non-empty batch: the readings are the batch
   * itself, there is one aggregate per distinct city of the batch (in order of first
   * appearance, no city twice), each aggregate counts at least one row, and the counts
   * add up to the number of readings. An empty batch gives the empty marker.
   */
  lemma SummariseShape(batch: seq<ZoneRecord>, now: string)
    ensures batch == [] ==> Summarise(batch, now) == NoData
    ensures batch != [] ==>
      var s := Summarise(batch, now);
      && s.Live?
      && s.readings == batch
      && s.timestamp == now
      && |s.cities| == |CitiesIn(batch)|
      && (forall k :: 0 <= k < |s.cities| ==> s.cities[k].city == CitiesIn(batch)[k] && s.cities[k].count >= 1)
      && (forall k :: 0 <= k < |s.cities| ==>
            RowsOf(batch, CitiesIn(batch)[k]) != [] && s.cities[k] == AggregateOf(batch, CitiesIn(batch)[k]))
      && Distinct(CitiesIn(batch))
      && SumCounts(s.cities) == |batch|
      && SumOf(batch, Co2Column) - 0.005 < s.totalCo2 <= SumOf(batch, Co2Column) + 0.005
      && MeanOf(batch, AqiColumn) - 0.05 < s.avgAqi <= MeanOf(batch, AqiColumn) + 0.05
  {
    if batch != [] {
      var cities := CitiesIn(batch);
      forall c | c in cities ensures RowsOf(batch, c) != [] { RowsOfPresent(batch, c); }
      var aggs := Aggregates(batch, cities);
      assert Summarise(batch, now) == Live(now, batch, RoundTo(SumOf(batch, Co2Column), 100.0),
                                           RoundTo(MeanOf(batch, AqiColumn), 10.0), aggs);
      RoundToClose(SumOf(batch, Co2Column), 100.0);
      RoundToClose(MeanOf(batch, AqiColumn), 10.0);
      AggregatesCount(batch, cities);
      AggregatesAt(batch, cities);
      CountsCoverBatch(batch);
      CitiesInSpec(batch);
      forall k | 0 <= k < |aggs|
        ensures aggs[k].city == cities[k] && aggs[k].count >= 1
      {
        RowsOfPresent(batch, cities[k]);
      }
    }
  }

  /** One more city of the list adds its aggregate at the end. */
  lemma AggregatesStep(batch: seq<ZoneRecord>, cs: seq<string>, k: nat)
    requires forall c :: c in cs ==> RowsOf(batch, c) != []
    requires k < |cs|
    ensures Aggregates(batch, cs[..k + 1]) == Aggregates(batch, cs[..k]) + [AggregateOf(batch, cs[k])]
  {
    assert cs[..k + 1][..k] == cs[..k];
  }

  /** `_process_batch`: the loop over the batch's cities that fills `city_stats`. */
  method ProcessBatch(batch: seq<ZoneRecord>, now: string) returns (s: Snapshot)
    ensures s == Summarise(batch, now)
  {
    if batch == [] {
      return NoData;
    }
    var cities := CitiesIn(batch);
    forall c | c in cities ensures RowsOf(batch, c) != [] { RowsOfPresent(batch, c); }
    var stats: seq<CityAggregate> := [];
    for k := 0 to |cities|
      invariant stats == Aggregates(batch, cities[..k])
    {
      AggregatesStep(batch, cities, k);
      stats := stats + [AggregateOf(batch, cities[k])];
    }
    assert cities[..|cities|] == cities;
    var total, mean := RoundTo(SumOf(batch, Co2Column), 100.0), RoundTo(MeanOf(batch, AqiColumn), 10.0);
    s := Live(now, batch, total, mean, stats);
  }

  // ---------------------------------------------------------------------------
  // AsyncProcessor and get_processor
  // ---------------------------------------------------------------------------

  /**
   * What one turn of `start()`'s loop does: `stream()` does not yield an empty batch
   * (it sleeps and polls again), a non-empty batch after `stop()` ends the generator,
   * any other batch is processed and yielded.
   */
  datatype CycleOutcome = Skipped | Stopped | Yielded(snapshot: Snapshot)

  class AsyncProcessor {
    /** `self.cities`. */
    var cities: seq<string>
    /** `self._running`. */
    var running: bool
    /**
     * The city list of the `WAQIConnector` that `start()` opened, `None` before. The
     * connector keeps the list object it was given; no code mutates that list in place,
     * so a copy of its value models it.
     */
    var polling: Option<seq<string>>

    constructor (cities: seq<string>)
      ensures this.cities == cities && !running && polling == None
    {
      this.cities := cities;
      running := false;
      polling := None;
    }

    /** `start()` up to its loop: set `_running` and open the connector on `self.cities`. */
    method Start()
      modifies this
      ensures running && cities == old(cities) && polling == Some(old(cities))
    {
      running := true;
      polling := Some(cities);
    }

    /** `stop()`. */
    method Stop()
      modifies this
      ensures !running && cities == old(cities) && polling == old(polling)
    {
      running := false;
    }

    /**
     * One turn of `start()`'s loop over `connector.stream()`: fetch from the connector's
     * cities (its client is open), skip an empty batch, stop if `_running` was cleared,
     * otherwise yield the processed batch.
     */
    method NextCycle(env: CycleEnv) returns (outcome: CycleOutcome)
      requires polling.Some?
      ensures outcome.Skipped? <==> CycleRecords(polling.value, true, env) == []
      ensures outcome.Stopped? <==> CycleRecords(polling.value, true, env) != [] && !running
      ensures outcome.Yielded? ==>
        && outcome.snapshot == Summarise(CycleRecords(polling.value, true, env), env.now)
        && outcome.snapshot.Live?
        && outcome.snapshot.readings != []
    {
      var batch := FetchAll(polling.value, true, env);
      if batch == [] {
        outcome := Skipped;
      } else if !running {
        outcome := Stopped;
      } else {
        var snapshot := ProcessBatch(batch, env.now);
        outcome := Yielded(snapshot);
      }
    }
  }

  /** The module-level `_processor` slot of `get_processor`. */
  class ProcessorSingleton {
    var instance: AsyncProcessor?

    constructor ()
      ensures instance == null
    {
      instance := null;
    }

    /** `get_processor(cities)`: the first call creates the processor, later calls return it unchanged. */
    method Get(cities: seq<string>) returns (p: AsyncProcessor)
      modifies this
      ensures instance == p
      ensures old(instance) != null ==> p == old(instance)
      ensures old(instance) == null ==> fresh(p) && p.cities == cities && !p.running && p.polling == None
    {
      if instance == null {
        instance := new AsyncProcessor(cities);
      }
      p := instance;
    }
  }
}
