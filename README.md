# GreenPulse backend core in Dafny

GreenPulse polls the WAQI air-quality feed for the stations of five Indian cities. It turns
each reading into a zone record with a CO2 estimate, aggregates every poll cycle per city,
and keeps the latest aggregate as the current snapshot. It pushes each snapshot to the
connected WebSocket clients. A retrieval-augmented question answering engine runs beside
it; it is initialised in the background and queries wait for it.

This project models the sequential logic under that glue and proves properties of it:

- `wrappers.dfy`, module `Wrappers`: the `Option` type.
- `station_feed.dfy`, module `StationFeed`: the decoded JSON payload, `safe_float` and
  `get_val`, `fetch_station`, the time-of-day multiplier, the CO2 estimate, zone ids and
  `CITIES_CONFIG`.
- `pathway_stream.dfy`, module `PathwayStream`: `fetch_all` (a loop that is proved against
  a specification function), `_process_batch` (likewise), `AsyncProcessor` (a class
  with `start`/`stop` and one turn of its stream loop) and the `get_processor` singleton.
- `rag.dfy`, module `Rag`: the `_init` stage machine of `LangchainRAG` (a class), the wait
  loop at the head of `query_stream`, the answer dispatch after it, the top-three zone
  selection of `_build_live_context`, `get_sources` and the `get_rag` singleton.
- `server.dfy`, module `Api`: the globals of `backend/main.py` as a class `AppState`.
  It covers the broadcast pass of `stream_loop`, connecting and disconnecting in
  `ws_endpoint`, the ping reply, `snapshot`, `select_cities`, `get_rag_lazy` and
  `rag_status`.

External inputs are parameters of the model:
- HTTP replies are an oracle indexed by the city's position in the polled list and the
  station's index.
- Python's `float()` on strings is an oracle of type `string -> Option<real>`.
- The hour of day and the UTC time stamp are given per cycle.
- Whether a WebSocket send succeeds is an oracle per client.
- What the waiting query observes is a sequence of observations, one per tick.
- What `_init` meets is a record of step outcomes.

## Model

| member | source | states |
|---|---|---|
| StationFeed.SafeFloat | backend/pathway_stream.py:82-89 | None and the strings "-", "", "NA", "N/A" give the fallback 0.0. So do lists, objects and strings `float()` rejects. A decoded number gives itself, a boolean 1.0 or 0.0, and a parsable non-sentinel string its parsed value. A non-fallback result comes only from a number, `True` or a parsable non-sentinel string. |
| StationFeed.ChannelValue | backend/pathway_stream.py:91-93 | A missing channel, a falsy entry, or an object without "v" gives 0.0. A truthy object channel gives the `safe_float` of its "v" (0 when absent). The lookup fails (the exception path) exactly when the entry is truthy and not an object. |
| StationFeed.ReadingOf | backend/pathway_stream.py:79-106 | A reading is built exactly when "data" is an object whose "iaqi", "time" and "city" are objects (or missing) and whose six channels are readable. It carries the station, the `safe_float` of "aqi" (0 when missing), the `get_val` of each of the six channels, time.iso (the current time when missing) and city.name ("" when missing). |
| StationFeed.FetchStation | backend/pathway_stream.py:66-109 | It returns a reading exactly when the client is open, the status is 200, the payload is an object whose "status" is "ok", and its "data" is readable; otherwise None, and it never raises. The reading is the one `ReadingOf` builds from "data". A missing pm25 or co channel reads 0. Integers beyond double range are left out (see below). |
| StationFeed.TimeMultiplier | backend/pathway_stream.py:127 | The multiplier is 1.7 exactly for hours 7..10, 1.85 exactly for hours 18..21, and 1.0 exactly otherwise. |
| StationFeed.Co2 | backend/pathway_stream.py:128-129 | The result is a function of (aqi, hour) alone, within half a hundredth of ((500 + aqi/100·300)·mult/1000)·0.82·8. |
| StationFeed.RoundToClose | backend/pathway_stream.py:129 | Rounding to a decimal scale moves a value by at most half a unit of that scale. |
| StationFeed.Co2Monotone | backend/pathway_stream.py:128-129 | For a fixed hour the CO2 estimate never decreases as AQI grows. |
| StationFeed.Co2PeakAtLeastOffPeak | backend/pathway_stream.py:127-129 | At a non-negative AQI a peak hour never gives a lower estimate than an off-peak hour. |
| StationFeed.DecimalInjective | backend/pathway_stream.py:132 | `str(n)` is injective on naturals, so zone-id suffixes of different indices differ. |
| StationFeed.ZoneIdInjective | backend/pathway_stream.py:132 | For city names of length at least 2, two zone ids are equal iff the upper-cased two-letter prefixes and the station indices are equal. |
| StationFeed.Lookup | backend/pathway_stream.py:22-48 | A name is found iff it is one of the five configured cities, and the entry found carries that name. |
| StationFeed.ConfiguredZoneIdsUnique | backend/pathway_stream.py:132 | No two stations of the configured cities share a zone id. |
| PathwayStream.ToZone | backend/pathway_stream.py:126-145 | A record carries the zone id, the city, the reading's city name as zone name, its time stamp and its seven measurements, and `co2 == Co2(aqi, hour)`. |
| PathwayStream.Fetch | backend/pathway_stream.py:122-145 | A request yields a record exactly when `fetch_station` returns a reading. The record is that reading's `ToZone` for the request's city, index and hour: zone id upper(city[:2]) + str(index+1), and CO2 from its AQI. |
| PathwayStream.AttemptsAreStations | backend/pathway_stream.py:115-123 | The requests of a cycle are exactly the stations of the configured cities in the polled list; unknown cities are skipped. |
| PathwayStream.AttemptsOrdered | backend/pathway_stream.py:115-123 | The requests are made in list-position order, then station order, so each (list position, station index) pair is requested at most once. A city listed twice is polled twice. |
| PathwayStream.CycleRecordsProvenance | backend/pathway_stream.py:111-147 | The batch has one record per successful request and nothing for a failed one, in list-position-then-station order. Record k is exactly what the k-th successful request fetched, so it has that request's city, zone id and measurements. |
| PathwayStream.RecordsFromPolledCities | backend/pathway_stream.py:115-117 | Every record belongs to a configured city that is in the polled list. |
| PathwayStream.NoClientNoRecords | backend/pathway_stream.py:68-69 | Without an open HTTP client a cycle produces no records. |
| PathwayStream.FetchCity | backend/pathway_stream.py:119-145 | The inner loop appends exactly the records of the successful stations of one city, in list order. |
| PathwayStream.FetchAll | backend/pathway_stream.py:111-147 | The nested loops return exactly the cycle's records as characterised by `CycleRecordsProvenance`. |
| PathwayStream.CitiesInSpec | backend/pathway_stream.py:189 | `unique()` lists each city of the batch exactly once, and no other city. |
| PathwayStream.RowsOfSpec | backend/pathway_stream.py:190 | The per-city filter keeps exactly the batch rows of that city. |
| PathwayStream.AggregateValues | backend/pathway_stream.py:190-198 | An aggregate gives the city's row count, its CO2 sum to a hundredth, and its mean AQI and PM2.5 to a tenth. Colour and emoji are the configured ones, or "#7fff00" and the herb emoji for an unknown city. |
| PathwayStream.AggregatesIndex | backend/pathway_stream.py:189-198 | Entry k of the aggregates is the aggregate of the k-th listed city. |
| PathwayStream.AggregatesAt | backend/pathway_stream.py:189-198 | There is one aggregate per listed city, in that order. Each is that city's `AggregateOf`, so it carries the values of `AggregateValues`, and its count is that city's number of rows. |
| PathwayStream.CountsCoverBatch | backend/pathway_stream.py:189-195 | The per-city counts add up to the number of readings. |
| PathwayStream.SummariseShape | backend/pathway_stream.py:182-210 | An empty batch gives `{"readings": [], "cities": {}}`. A non-empty batch gives: readings equal to the batch, one aggregate per distinct city in first-appearance order, each equal to that city's `AggregateOf` (sum and means as in `AggregateValues`, count ≥ 1), counts summing to the batch size, and totals rounded from the batch's sum and mean. |
| PathwayStream.ProcessBatch | backend/pathway_stream.py:182-210 | The loop filling `city_stats` returns exactly the summary characterised by `SummariseShape`. |
| PathwayStream.AsyncProcessor.constructor | backend/pathway_stream.py:168-171 | A new processor keeps the given cities and is not running. |
| PathwayStream.AsyncProcessor.Start | backend/pathway_stream.py:173-176 | `start` sets `_running` and opens the connector on the current `cities` list. |
| PathwayStream.AsyncProcessor.Stop | backend/pathway_stream.py:212-213 | `stop` clears `_running` and changes nothing else. |
| PathwayStream.AsyncProcessor.NextCycle | backend/pathway_stream.py:149-180 | An empty batch is never yielded. A non-empty batch after `stop` ends the loop. Otherwise the yielded snapshot is the summary of the connector's batch. |
| PathwayStream.ProcessorSingleton.Get | backend/pathway_stream.py:217-223 | The first call creates the processor with the given cities. Later calls return the same processor and ignore their argument. |
| Rag.RagEngine.constructor | backend/rag.py:133-140 | A new engine is at stage "starting", not ready, with no error and no services. |
| Rag.RagEngine.RecordFailure | backend/rag.py:197-203 | A failure records message, newline, traceback as `_init_error` and sets the stage to "error"; readiness is untouched. |
| Rag.RagEngine.Init | backend/rag.py:142-203 | The stages set are a prefix of initializing_embeddings, loading_vectors, loading_llm, ready; a failure cuts the prefix and appends "error". The engine becomes ready iff every step succeeds, and only in the last step. An empty or placeholder key stops it after the first stage with the key message. An error is recorded iff the stage is "error". A failure stops the stage trace where it happened: "error" alone when the directories fail, after "loading_vectors" when the vector store cannot be built or saved, and after "loading_llm" when the chat model fails. Every failure other than the missing key records the exception text, a newline and the traceback as `_init_error`. |
| Rag.RagEngine.AnswerRoute | backend/rag.py:265-279 | A failed similarity search is reported. Once `Init` has made the engine ready a chat model exists, so the canned answer is never chosen after a successful wait. |
| Rag.RagEngine.GetSources | backend/rag.py:321-331 | `[]` when the engine is not ready, has no vector store, or the search raises. Otherwise one entry per retrieved chunk, titled "Policy" and with id "" where metadata is missing. |
| Rag.RagSingleton.Get | backend/rag.py:335-341 | The engine is constructed on the first call only; later calls return the same engine. |
| Rag.StageMessage | backend/rag.py:246-251 | The four listed stages have their own message; any other stage gets "Working... (stage)". |
| Rag.EmittingTickYields | backend/rag.py:235-254 | Every tick at which at least 5 whole seconds have passed since the last progress fragment contributes a progress fragment with that tick's stage message and its truncated elapsed seconds. |
| Rag.ProgressOfShape | backend/rag.py:235-254 | The progress fragments are all progress messages, at least 5 whole seconds apart, and the last one carries the seconds of the last progress. |
| Rag.ProgressOfFirst | backend/rag.py:235-254 | The first tick (at a non-negative elapsed time) always yields a progress fragment. |
| Rag.FailedWaitShape | backend/rag.py:238-263 | A failed wait's output is its progress fragments followed by one terminal fragment, and only that last fragment is not a progress message. |
| Rag.WaitForReady | backend/rag.py:228-263 | It proceeds iff the engine is ready when the wait ends. Its progress fragments are exactly `ProgressOf` the observed ticks: one per tick at least 5 whole seconds after the previous one, carrying that tick's stage message and truncated seconds. A failed wait appends exactly one terminal fragment: "initialization failed" with the first 200 characters of the error when one is observed, else the 180-second timeout. The first tick always yields progress. |
| Rag.TopZonesSpec | backend/rag.py:213 | The top list has min(3, n) readings from distinct positions, in descending CO2 order, ties in reading order. Every reading left out ranks below every reading kept, as a stable descending sort cut to three. |
| Api.RemoveFirst | backend/main.py:67 | `list.remove` shortens the list by one and removes one occurrence of the value. |
| Api.RemoveFirstAt | backend/main.py:67 | The occurrence removed is the first; the rest keeps its order. |
| Api.Discard | backend/main.py:99-100 | The guarded removal is a no-op for an absent client and removes one occurrence of a present one. |
| Api.BroadcastKeepsSurvivors | backend/main.py:59-67 | Removing the collected dead clients leaves exactly the clients whose send succeeded, in order, even if a client is registered twice. |
| Api.SendAll | backend/main.py:60-64 | One send is attempted per client of the copied registry, in order, and the failed ones are collected in order. |
| Api.KnownCities | backend/main.py:131 | The active list holds a requested name iff that name is a configured city. |
| Api.KnownCitiesAppend | backend/main.py:131 | The filter distributes over concatenation, so it keeps request order. |
| Api.KnownCitiesCount | backend/main.py:131 | A configured city is kept as often as it was requested; unknown names are dropped. |
| Api.KnownCitiesIdempotent | backend/main.py:131 | Filtering the effective selection again changes nothing. |
| Api.Reply | backend/main.py:95-97 | A client's "ping" is answered with "pong", and any other message with nothing. |
| Api.AppState.constructor | backend/main.py:37-40 | At import there is no snapshot, no client, all five cities are active, and there is no RAG handle. |
| Api.AppState.CurrentSnapshot | backend/main.py:110-111 | `snapshot()` is the latest batch, or `{"readings": [], "cities": {}}` before the first. |
| Api.AppState.Status | backend/main.py:169-177 | `loaded` holds iff an engine handle exists. `ready` and `error` are the engine's, or false and None without one. It is a read and creates nothing. |
| Api.AppState.GetRagLazy | backend/main.py:43-49 | The handle is reused once set. An engine is constructed only if none exists anywhere, and the handle then stays the singleton's engine. |
| Api.AppState.Connect | backend/main.py:89-92 | The client is appended. It receives the latest batch immediately iff one exists. Nothing else changes. |
| Api.AppState.Disconnect | backend/main.py:98-100 | The failed socket is removed if still present; otherwise the registry is unchanged. |
| Api.AppState.RemoveDead | backend/main.py:65-67 | The removal loop applies the guarded removal for each dead client in turn. |
| Api.AppState.Publish | backend/main.py:55-67 | `_latest` becomes the batch before any send. Every client registered at the start is sent the update once. Afterwards the registry is the prior registry minus the failed clients. |
| Api.AppState.SelectCities | backend/main.py:128-134 | The active list and the processor's `cities` both become the known requested cities. A processor that is already streaming keeps its running flag and the list its connector polls. |
| Api.AppState.StartStream | backend/main.py:53-55 | The processor for the active cities (or the existing one) is started on its current `cities`. |
| Api.AppState.StreamStep | backend/main.py:55-67 | A cycle with no successful station publishes nothing and leaves `_latest` and the registry as they were. A yielded batch becomes `_latest`, each client registered at the start is sent that batch once and in order, and the registry becomes the survivors, as in `Publish`. |

## Behaviour notes

- **Empty cycles.** `stream()` yields no batch for a cycle in which no station succeeds
  (backend/pathway_stream.py:153-154), so the previous snapshot stays current.
  `AsyncProcessor.NextCycle` returns `Skipped` and `AppState.StreamStep` leaves `latest`
  unchanged. The empty branch of `_process_batch` is reachable only by a direct call.
- **City selection.** `select_cities` rebinds the processor's `cities` attribute
  (backend/main.py:133). The running `WAQIConnector` holds the list object it was given at
  `start()` (backend/pathway_stream.py:175), and nothing mutates that list, so a selection
  made while streaming never reaches the running connector. `SelectCities` states that the
  running processor's `polling` list is unchanged.
- **Duplicates in a selection.** A selection keeps the request order and any duplicates;
  it drops only unknown names (`KnownCitiesCount`).
- **Zone names.** The station-name default for "zone_name" (backend/pathway_stream.py:133)
  is never used. Every reading carries "city_name", possibly as "", so `ToZone` always
  takes the reading's city name.

## Left out

- StationFeed.SafeFloat: a JSON number is a decoded `real`, so the model does not capture
  an integer literal too large for a double (e.g. 400 digits). `json` decodes it to a
  Python int, and `float()` then raises OverflowError, which `safe_float` does not catch
  (backend/pathway_stream.py:87-89).
- StationFeed.FetchStation: for the same reason, the model returns a reading where the
  source's outer `except Exception` (backend/pathway_stream.py:107-109) turns that
  OverflowError into None. The success condition holds for numbers within double range.
- HTTP transport, URL building and JSON decoding. A reply is a status plus an optional
  decoded body; a request that raises is a missing reply.
- `float()` on strings is an oracle parameter, so CPython's number syntax (exponents,
  "inf", "nan", surrounding spaces) is not modelled. Sentinel strings never reach it.
- Floating point. All arithmetic is on `real`. Python's `round` is modelled as rounding
  half up at the decimal scale (`RoundTo`). On exact binary ties Python's banker's
  rounding and binary representation can differ by one unit in the last place.
- StationFeed.Co2: the contract states the half-hundredth bound around the exact formula
  rather than the exact float produced by `round(..., 2)`, because of the rounding above.
- PathwayStream.AggregateValues: means and sums are bounded to the rounding unit rather
  than pinned to pandas' float results, for the same reason.
- `datetime.now().hour` is read once per successful station in the code. The model reads
  one `hour` per cycle, so a cycle that crosses an hour boundary is not modelled.
- `datetime.utcnow()` is called for every station reading (its value is used when
  "time.iso" is missing, backend/pathway_stream.py:104) and again when a batch is
  processed (:204). The model uses one `now` per cycle for both, so a default
  reading time stamp always equals the snapshot's time stamp, which the code does not
  promise.
- StationFeed.Upper: upper-casing is ASCII-only. Python's `str.upper` also maps non-ASCII
  letters, which the configured city names do not contain.
- The constant "data_source": "live" fields of records and snapshots, and the f-string
  formatting of numbers, are presentation and are not modelled.
- `asyncio.sleep`, background threads, `asyncio.create_task` and the interleaving of
  concurrent coroutines are not modelled. The registry is changed only by the modelled
  operations, one at a time. The wait loop's time is a sequence of per-tick observations.
- Rag.WaitForReady: the loop test and the check after the loop read `_ready` at the same
  tick, so the engine is not modelled becoming ready between those two reads.
- FAISS, the text splitter, the Gemini embedding and chat calls, the prompt text and
  `_mock_stream`'s canned text are foreign calls or presentation. `Init` takes each
  step's outcome as input, and `AnswerRoute` stops at the choice of route.
- `_build_live_context` beyond the top-three selection (string joining and formatting)
  is presentation.
- The `/`, `/api/cities`, `/api/chat`, `/api/chat/stream`, `/api/rag/preload` and static
  file routes are framework glue around the modelled operations. The preload thread and
  the startup thread only call `get_rag_lazy`.
- run.py (environment checks and server start-up) is not part of this model.
