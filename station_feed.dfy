/**
 * One WAQI station in backend/pathway_stream.py: the JSON payload a station request
 * returns, the normalisation of sensor values (`safe_float`, `get_val`), the reading
 * `fetch_station` builds from it, and the per-station derived quantities of `fetch_all`
 * (time-of-day multiplier, CO2 estimate, zone id), with the fixed city configuration.
 */
module StationFeed {
  import opened Wrappers

  // ---------------------------------------------------------------------------
  // Decoded JSON, as Python's json module hands it to the code
  // ---------------------------------------------------------------------------

  datatype Json =
    | JNull
    | JBool(b: bool)
    | JNum(n: real)
    | JStr(s: string)
    | JList(items: seq<Json>)
    | JObj(fields: map<string, Json>)

  /** Python truthiness of a decoded value. */
  predicate Truthy(v: Json) {
    match v
    case JNull => false
    case JBool(b) => b
    case JNum(n) => n != 0.0
    case JStr(s) => s != ""
    case JList(items) => items != []
    case JObj(fields) => fields != map[]
  }

  /** `dict.get(key, default)`. */
  function Get(fields: map<string, Json>, key: string, default: Json): Json {
    if key in fields then fields[key] else default
  }

  // ---------------------------------------------------------------------------
  // safe_float and get_val
  // ---------------------------------------------------------------------------

  /** The value `safe_float` falls back to. */
  const Fallback: real := 0.0

  /** The markers WAQI uses for a missing sensor reading. */
  predicate IsSentinel(v: Json) {
    v == JNull || v == JStr("-") || v == JStr("") || v == JStr("NA") || v == JStr("N/A")
  }

  /**
   * Python's `float(s)` on a string: `Some(x)` when it parses `s` as `x`, `None` when
   * it raises ValueError. CPython's number syntax is not modelled; it is a parameter.
   */
  type FloatParser = string -> Option<real>

  /**
   * `safe_float(val)`: sentinels, values `float()` rejects (lists, objects, strings it
   * cannot parse) all become the fallback; numbers and booleans are converted.
   */
  function SafeFloat(v: Json, parse: FloatParser): (r: real)
    ensures IsSentinel(v) ==> r == Fallback
    ensures v.JNum? ==> r == v.n
    ensures v.JStr? && parse(v.s).None? ==> r == Fallback
    ensures v.JList? || v.JObj? ==> r == Fallback
    ensures v.JBool? ==> r == (if v.b then 1.0 else 0.0)
    ensures v.JStr? && !IsSentinel(v) && parse(v.s).Some? ==> r == parse(v.s).value
    ensures r != Fallback ==>
      v.JNum? || v == JBool(true) || (v.JStr? && !IsSentinel(v) && parse(v.s) == Some(r))
  {
    if IsSentinel(v) then Fallback
    else
      match v
      case JNum(n) => n
      case JBool(b) => if b then 1.0 else 0.0
      case JStr(s) => parse(s).GetOr(Fallback)
      case _ => Fallback
  }

  /**
   * `get_val(key)`: the "v" field of pollutant channel `key` of the `iaqi` object,
   * normalised by `safe_float`. A missing or falsy channel reads as `{}`, and a
   * channel object without "v" reads as 0. `None` stands for the AttributeError
   * Python raises when the channel is a truthy value that is not an object.
   */
  function ChannelValue(iaqi: map<string, Json>, key: string, parse: FloatParser): (r: Option<real>)
    ensures key !in iaqi ==> r == Some(Fallback)
    ensures key in iaqi && !Truthy(iaqi[key]) ==> r == Some(Fallback)
    ensures key in iaqi && iaqi[key].JObj? && "v" !in iaqi[key].fields ==> r == Some(Fallback)
    ensures r.None? <==> key in iaqi && Truthy(iaqi[key]) && !iaqi[key].JObj?
    ensures key in iaqi && Truthy(iaqi[key]) && iaqi[key].JObj? ==>
      r == Some(SafeFloat(Get(iaqi[key].fields, "v", JNum(0.0)), parse))
  {
    var entry := Get(iaqi, key, JNull);
    var channel := if Truthy(entry) then entry else JObj(map[]);
    match channel
    case JObj(f) => Some(SafeFloat(Get(f, "v", JNum(0.0)), parse))
    case _ => None
  }

  // ---------------------------------------------------------------------------
  // fetch_station
  // ---------------------------------------------------------------------------

  /** An HTTP reply; `body` is `None` when `resp.json()` raises. */
  datatype HttpResponse = HttpResponse(status: int, body: Option<Json>)

  /** The dict `fetch_station` returns. `timestamp` and `cityName` are passed through as JSON. */
  datatype StationReading = StationReading(
    station: string,
    aqi: real,
    pm25: real, pm10: real, no2: real, so2: real, o3: real, co: real,
    timestamp: Json,
    cityName: Json)

  /** A reply the code accepts: status 200 and a JSON object whose "status" is "ok". */
  predicate PayloadOk(resp: HttpResponse) {
    && resp.status == 200
    && resp.body.Some?
    && resp.body.value.JObj?
    && Get(resp.body.value.fields, "status", JNull) == JStr("ok")
  }

  /** A channel `get_val` can read: absent, falsy, or an object. */
  predicate ChannelReadable(iaqi: map<string, Json>, key: string) {
    key in iaqi ==> !Truthy(iaqi[key]) || iaqi[key].JObj?
  }

  /** The "iaqi", "time" and "city" values of a "data" object, with `{}` for a missing one. */
  function Section(d: map<string, Json>, key: string): Json {
    Get(d, key, JObj(map[]))
  }

  /**
   * A "data" value every lookup of `fetch_station` succeeds on: an object whose
   * "iaqi", "time" and "city" are objects (or missing) and whose six pollutant
   * channels are readable.
   */
  predicate Readable(d: Json) {
    && d.JObj?
    && Section(d.fields, "iaqi").JObj?
    && Section(d.fields, "time").JObj?
    && Section(d.fields, "city").JObj?
    && var iaqi := Section(d.fields, "iaqi").fields;
      && ChannelReadable(iaqi, "pm25") && ChannelReadable(iaqi, "pm10") && ChannelReadable(iaqi, "no2")
      && ChannelReadable(iaqi, "so2") && ChannelReadable(iaqi, "o3") && ChannelReadable(iaqi, "co")
  }

  /**
   * The reading built from the payload's "data" object `d`; `None` wherever Python
   * would raise (a `.get` on something that is not a dict), all of which the
   * surrounding `except` turns into `None`. `now` is the `utcnow()` time stamp.
   */
  function ReadingOf(station: string, d: Json, now: string, parse: FloatParser): (r: Option<StationReading>)
    ensures r.Some? <==> Readable(d)
    ensures r.Some? ==>
      var iaqi := Section(d.fields, "iaqi").fields;
      && r.value.station == station
      && r.value.aqi == SafeFloat(Get(d.fields, "aqi", JNum(0.0)), parse)
      && Some(r.value.pm25) == ChannelValue(iaqi, "pm25", parse)
      && Some(r.value.pm10) == ChannelValue(iaqi, "pm10", parse)
      && Some(r.value.no2) == ChannelValue(iaqi, "no2", parse)
      && Some(r.value.so2) == ChannelValue(iaqi, "so2", parse)
      && Some(r.value.o3) == ChannelValue(iaqi, "o3", parse)
      && Some(r.value.co) == ChannelValue(iaqi, "co", parse)
      && r.value.timestamp == Get(Section(d.fields, "time").fields, "iso", JStr(now))
      && r.value.cityName == Get(Section(d.fields, "city").fields, "name", JStr(""))
  {
    match d
    case JObj(f) =>
      var iaqi := Get(f, "iaqi", JObj(map[]));
      var time := Get(f, "time", JObj(map[]));
      var city := Get(f, "city", JObj(map[]));
      if !iaqi.JObj? || !time.JObj? || !city.JObj? then None
      else
        var pm25 := ChannelValue(iaqi.fields, "pm25", parse);
        var pm10 := ChannelValue(iaqi.fields, "pm10", parse);
        var no2 := ChannelValue(iaqi.fields, "no2", parse);
        var so2 := ChannelValue(iaqi.fields, "so2", parse);
        var o3 := ChannelValue(iaqi.fields, "o3", parse);
        var co := ChannelValue(iaqi.fields, "co", parse);
        if pm25.None? || pm10.None? || no2.None? || so2.None? || o3.None? || co.None? then None
        else
          Some(StationReading(
            station,
            SafeFloat(Get(f, "aqi", JNum(0.0)), parse),
            pm25.value, pm10.value, no2.value, so2.value, o3.value, co.value,
            Get(time.fields, "iso", JStr(now)),
            Get(city.fields, "name", JStr(""))))
    case _ => None
  }

  /**
   * `fetch_station(station)`: `hasClient` says whether the connector's HTTP client is
   * open, `response` is the reply to the request (`None` when the request raises).
   * The function is total: every failure is a `None`, never an exception.
   */
  function FetchStation(hasClient: bool, station: string, response: Option<HttpResponse>,
                        now: string, parse: FloatParser): (r: Option<StationReading>)
    ensures !hasClient || response.None? ==> r.None?
    ensures response.Some? && !PayloadOk(response.value) ==> r.None?
    ensures r.Some? <==>
      && hasClient && response.Some? && PayloadOk(response.value)
      && "data" in response.value.body.value.fields
      && Readable(response.value.body.value.fields["data"])
    ensures r.Some? ==> r == ReadingOf(station, response.value.body.value.fields["data"], now, parse)
    ensures r.Some? ==>
      var d := response.value.body.value.fields["data"].fields;
      var iaqi := Get(d, "iaqi", JObj(map[]));
      && iaqi.JObj?
      && ("pm25" !in iaqi.fields ==> r.value.pm25 == Fallback)
      && ("co" !in iaqi.fields ==> r.value.co == Fallback)
  {
    if !hasClient then None
    else
      match response
      case None => None
      case Some(resp) =>
        if resp.status != 200 then None
        else
          match resp.body
          case Some(JObj(top)) =>
            if Get(top, "status", JNull) != JStr("ok") then None
            else if "data" !in top then None
            else ReadingOf(station, top["data"], now, parse)
          case _ => None
  }

  // ---------------------------------------------------------------------------
  // Derived quantities of fetch_all: multiplier, CO2 estimate, zone id
  // ---------------------------------------------------------------------------

  /** The grid-load multiplier for an hour of the day: morning peak, evening peak, otherwise 1. */
  function TimeMultiplier(hour: int): (m: real)
    ensures m == 1.7 <==> 7 <= hour <= 10
    ensures m == 1.85 <==> 18 <= hour <= 21
    ensures m == 1.0 <==> !(7 <= hour <= 10) && !(18 <= hour <= 21)
  {
    if 7 <= hour <= 10 then 1.7 else if 18 <= hour <= 21 then 1.85 else 1.0
  }

  /** The unrounded estimate: power from AQI, times the multiplier, kW to MW, grid factor 0.82, 8 hours. */
  function RawCo2(aqi: real, hour: int): real {
    (500.0 + aqi / 100.0 * 300.0) * TimeMultiplier(hour) / 1000.0 * 0.82 * 8.0
  }

  /** Rounding to the nearest multiple of 1/scale, halves upwards. */
  function RoundTo(x: real, scale: real): real
    requires scale > 0.0
  {
    ((x * scale + 0.5).Floor as real) / scale
  }

  lemma RoundToClose(x: real, scale: real)
    requires scale > 0.0
    ensures x - 0.5 / scale < RoundTo(x, scale) <= x + 0.5 / scale
  {
    var f := (x * scale + 0.5).Floor as real;
    assert x * scale - 0.5 < f <= x * scale + 0.5;
    assert RoundTo(x, scale) * scale == f;
  }

  lemma RoundToMonotone(x: real, y: real, scale: real)
    requires scale > 0.0 && x <= y
    ensures RoundTo(x, scale) <= RoundTo(y, scale)
  {
    assert x * scale <= y * scale;
    var fx, fy := (x * scale + 0.5).Floor, (y * scale + 0.5).Floor;
    assert fx <= fy;
    assert (fx as real) / scale <= (fy as real) / scale;
  }

  /** `co2_kg_hr`: the estimate rounded to two decimals; a function of (aqi, hour) alone. */
  function Co2(aqi: real, hour: int): (r: real)
    ensures RawCo2(aqi, hour) - 0.005 < r <= RawCo2(aqi, hour) + 0.005
  {
    RoundToClose(RawCo2(aqi, hour), 100.0);
    RoundTo(RawCo2(aqi, hour), 100.0)
  }

  /** For a fixed hour the estimate never decreases as the AQI grows. */
  lemma Co2Monotone(aqi1: real, aqi2: real, hour: int)
    requires aqi1 <= aqi2
    ensures Co2(aqi1, hour) <= Co2(aqi2, hour)
  {
    var m := TimeMultiplier(hour);
    assert RawCo2(aqi1, hour) <= RawCo2(aqi2, hour) by {
      assert m > 0.0;
      assert 500.0 + aqi1 / 100.0 * 300.0 <= 500.0 + aqi2 / 100.0 * 300.0;
    }
    RoundToMonotone(RawCo2(aqi1, hour), RawCo2(aqi2, hour), 100.0);
  }

  /** At a non-negative AQI a peak hour never estimates less than an off-peak hour. */
  lemma Co2PeakAtLeastOffPeak(aqi: real, peak: int, offPeak: int)
    requires aqi >= 0.0
    requires 7 <= peak <= 10 || 18 <= peak <= 21
    requires !(7 <= offPeak <= 10) && !(18 <= offPeak <= 21)
    ensures Co2(aqi, peak) >= Co2(aqi, offPeak)
  {
    var base := 500.0 + aqi / 100.0 * 300.0;
    assert base >= 0.0;
    assert TimeMultiplier(peak) >= TimeMultiplier(offPeak);
    assert base * TimeMultiplier(peak) >= base * TimeMultiplier(offPeak);
    RoundToMonotone(RawCo2(aqi, offPeak), RawCo2(aqi, peak), 100.0);
  }

  /** ASCII upper-casing of one character. */
  function UpperChar(c: char): char {
    if 'a' <= c <= 'z' then (c as int - 32) as char else c
  }

  /** `str.upper()` over ASCII. */
  function Upper(s: string): (r: string)
    ensures |r| == |s|
    ensures forall i :: 0 <= i < |s| ==> r[i] == UpperChar(s[i])
  {
    seq(|s|, i requires 0 <= i < |s| => UpperChar(s[i]))
  }

  /** `str(n)` of a natural number: its decimal digits, most significant first. */
  function Decimal(n: nat): (r: string)
    ensures |r| >= 1
    ensures n >= 10 ==> |r| >= 2
    ensures r[|r| - 1] == DigitChar(n % 10)
  {
    if n < 10 then [DigitChar(n)] else Decimal(n / 10) + [DigitChar(n % 10)]
  }

  function DigitChar(d: nat): char
    requires d < 10
  {
    ('0' as int + d) as char
  }

  /** Distinct numbers have distinct decimal renderings. */
  lemma {:induction false} DecimalInjective(a: nat, b: nat)
    requires Decimal(a) == Decimal(b)
    ensures a == b
  {
    var da, db := Decimal(a), Decimal(b);
    assert DigitChar(a % 10) == DigitChar(b % 10);
    if a >= 10 && b >= 10 {
      assert da[..|da| - 1] == Decimal(a / 10);
      assert db[..|db| - 1] == Decimal(b / 10);
      DecimalInjective(a / 10, b / 10);
    }
  }

  /** `f"{city[:2].upper()}{i+1}"`: the zone id of station `index` (0-based) of `city`. */
  function ZoneId(city: string, index: nat): string {
    Upper(city[..if |city| < 2 then |city| else 2]) + Decimal(index + 1)
  }

  /**
   * For city names of two or more characters, two zone ids are equal exactly when the
   * upper-cased two-letter prefixes are equal and the station indices are equal.
   */
  lemma ZoneIdInjective(city1: string, i: nat, city2: string, j: nat)
    requires |city1| >= 2 && |city2| >= 2
    ensures ZoneId(city1, i) == ZoneId(city2, j) <==> Upper(city1[..2]) == Upper(city2[..2]) && i == j
  {
    var z1, z2 := ZoneId(city1, i), ZoneId(city2, j);
    if z1 == z2 {
      assert z1[..2] == Upper(city1[..2]) && z2[..2] == Upper(city2[..2]);
      assert z1[2..] == Decimal(i + 1) && z2[2..] == Decimal(j + 1);
      DecimalInjective(i + 1, j + 1);
    }
  }

  // ---------------------------------------------------------------------------
  // CITIES_CONFIG
  // ---------------------------------------------------------------------------

  datatype CityConfig = CityConfig(name: string, stations: seq<string>, color: string, emoji: string)

  /** The five configured cities, in the dict's insertion order. */
  const Cities: seq<CityConfig> := [
    CityConfig("Delhi",
      ["delhi/anand-vihar", "delhi/punjabi-bagh", "delhi/ito", "delhi/dwarka-sector-8"],
      "#7fff00", "\U{1F3DB}"),
    CityConfig("Mumbai",
      ["mumbai/bandra-kurla", "mumbai/chembur", "mumbai/worli", "mumbai/navi-mumbai"],
      "#38bdf8", "\U{1F30A}"),
    CityConfig("Kolkata",
      ["kolkata/rabindra-bharati", "kolkata/victoria", "kolkata/ballygunge", "kolkata/jadavpur"],
      "#f5a623", "\U{2693}"),
    CityConfig("Chennai",
      ["chennai/alandur", "chennai/manali", "chennai/velachery", "chennai/kodungaiyur"],
      "#c084fc", "\U{1F334}"),
    CityConfig("Prayagraj",
      ["allahabad/nh-27,-prayagraj", "allahabad/civil-lines-prayagraj"],
      "#ff6b6b", "\U{1F549}")
  ]

  /** `list(CITIES_CONFIG.keys())`. */
  const CityNames: seq<string> := ["Delhi", "Mumbai", "Kolkata", "Chennai", "Prayagraj"]

  /** `CITIES_CONFIG.get(name)`. */
  function Lookup(name: string): (r: Option<CityConfig>)
    ensures r.Some? <==> name in CityNames
    ensures r.Some? ==> r.value.name == name && r.value in Cities
  {
    LookupIn(Cities, name)
  }

  function LookupIn(configs: seq<CityConfig>, name: string): (r: Option<CityConfig>)
    ensures r.Some? <==> exists k :: 0 <= k < |configs| && configs[k].name == name
    ensures r.Some? ==> r.value.name == name && r.value in configs
  {
    if configs == [] then None
    else if configs[0].name == name then Some(configs[0])
    else
      var r := LookupIn(configs[1..], name);
      assert forall k :: 0 < k < |configs| ==> configs[k] == configs[1..][k - 1];
      r
  }

  /** Zone ids of configured stations never collide, across all five cities. */
  lemma ConfiguredZoneIdsUnique(city1: string, i: nat, city2: string, j: nat)
    requires city1 in CityNames && city2 in CityNames
    requires ZoneId(city1, i) == ZoneId(city2, j)
    ensures city1 == city2 && i == j
  {
    ZoneIdInjective(city1, i, city2, j);
    assert Upper("Delhi"[..2]) == "DE";
    assert Upper("Mumbai"[..2]) == "MU";
    assert Upper("Kolkata"[..2]) == "KO";
    assert Upper("Chennai"[..2]) == "CH";
    assert Upper("Prayagraj"[..2]) == "PR";
  }
}
