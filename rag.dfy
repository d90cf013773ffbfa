/**
 * The retrieval engine of backend/rag.py with its external services abstracted away:
 * the background `_init` stage machine, the wait loop at the head of `query_stream`,
 * the top-emitting-zones selection of `_build_live_context`, the `get_sources` guard
 * and the `get_rag` singleton.
 */
module Rag {
  import opened Wrappers
  import opened PathwayStream

  /** The values of `_init_stage`. */
  datatype Stage = Starting | InitializingEmbeddings | LoadingVectors | LoadingLlm | Ready | Error

  function StageName(s: Stage): string {
    match s
    case Starting => "starting"
    case InitializingEmbeddings => "initializing_embeddings"
    case LoadingVectors => "loading_vectors"
    case LoadingLlm => "loading_llm"
    case Ready => "ready"
    case Error => "error"
  }

  /** The stages a successful `_init` sets, in order, after the constructor's "starting". */
  const Pipeline: seq<Stage> := [InitializingEmbeddings, LoadingVectors, LoadingLlm, Ready]

  const PlaceholderKey: string := "your_key_here"
  const MissingKeyMessage: string := "GOOGLE_API_KEY environment variable is required"

  /** A key `_init` accepts: neither empty nor the placeholder from the sample configuration. */
  predicate UsableKey(key: string) {
    key != "" && key != PlaceholderKey
  }

  /** Python truthiness of `_init_error`. */
  predicate HasError(e: Option<string>) {
    e.Some? && e.value != ""
  }

  /**
   * What `_init` meets on its way: whether creating the index directory works, the
   * GOOGLE_API_KEY value, whether a vector store object gets created (loaded from disk
   * or built), whether the rest of that step (creating the directory and saving a
   * freshly built index) works, whether constructing the chat model works, and the
   * text of the exception and of the traceback for a failure other than the key check.
   */
  datatype InitEnv = InitEnv(
    dirsOk: bool,
    apiKey: string,
    storeCreated: bool,
    storeSaved: bool,
    llmOk: bool,
    failure: string,
    traceback: string)

  /** A retrieved chunk's metadata. */
  datatype PolicyDoc = PolicyDoc(title: Option<string>, id: Option<string>)

  /** An entry of the list `get_sources` returns. */
  datatype SourceRef = SourceRef(title: string, id: string)

  /** How a query that got past the wait is answered. */
  datatype Route = RetrievalFailed | CannedAnswer | ModelAnswer

  /** `LangchainRAG`: the services are reduced to whether each one has been set up. */
  class RagEngine {
    var ready: bool
    var initError: Option<string>
    var stage: Stage
    var hasEmbeddings: bool
    var hasVectorstore: bool
    var hasLlm: bool

    /** Readiness implies every service is in place. */
    ghost predicate Valid()
      reads this
    {
      && (ready <==> stage == Ready)
      && (ready ==> hasEmbeddings && hasVectorstore && hasLlm && initError.None?)
      && (stage == Error <==> HasError(initError))
    }

    /** `__init__` up to starting the `_init` thread, which runs as `Init` below. */
    constructor ()
      ensures Valid()
      ensures !ready && initError == None && stage == Starting
      ensures !hasEmbeddings && !hasVectorstore && !hasLlm
    {
      ready := false;
      initError := None;
      stage := Starting;
      hasEmbeddings := false;
      hasVectorstore := false;
      hasLlm := false;
    }

    /** The `except` branch of `_init`. */
    method RecordFailure(message: string, traceback: string)
      modifies this
      ensures initError == Some(message + "\n" + traceback) && stage == Error
      ensures ready == old(ready) && hasEmbeddings == old(hasEmbeddings)
      ensures hasVectorstore == old(hasVectorstore) && hasLlm == old(hasLlm)
    {
      initError := Some(message + "\n" + traceback);
      stage := Error;
    }

    /**
     * `_init`, run once on a fresh engine. `trace` lists the values assigned to
     * `_init_stage`, in order: a prefix of the pipeline ending in "error", or the
     * whole pipeline ending in "ready", which is also the only way `_ready` becomes true.
     */
    method Init(env: InitEnv) returns (trace: seq<Stage>)
      requires stage == Starting && !ready && initError == None
      requires !hasEmbeddings && !hasVectorstore && !hasLlm
      modifies this
      ensures Valid()
      ensures trace != [] && stage == trace[|trace| - 1]
      ensures stage == Ready ==> trace == Pipeline
      ensures stage != Ready ==> stage == Error && |trace| <= |Pipeline| && trace == Pipeline[..|trace| - 1] + [Error]
      ensures ready <==> env.dirsOk && UsableKey(env.apiKey) && env.storeCreated && env.storeSaved && env.llmOk
      ensures env.dirsOk && !UsableKey(env.apiKey) ==>
        trace == [InitializingEmbeddings, Error] && initError == Some(MissingKeyMessage + "\n" + env.traceback)
      ensures !env.dirsOk ==> trace == [Error]
      ensures env.dirsOk && UsableKey(env.apiKey) && !(env.storeCreated && env.storeSaved) ==>
        trace == Pipeline[..2] + [Error]
      ensures env.dirsOk && UsableKey(env.apiKey) && env.storeCreated && env.storeSaved && !env.llmOk ==>
        trace == Pipeline[..3] + [Error]
      ensures stage == Error && !(env.dirsOk && !UsableKey(env.apiKey)) ==>
        initError == Some(env.failure + "\n" + env.traceback)
      ensures hasEmbeddings <==> env.dirsOk && UsableKey(env.apiKey)
      ensures hasVectorstore <==> env.dirsOk && UsableKey(env.apiKey) && env.storeCreated
      ensures hasLlm <==> ready
    {
      if !env.dirsOk {
        RecordFailure(env.failure, env.traceback);
        return [Error];
      }
      stage := InitializingEmbeddings;
      trace := [stage];
      if !UsableKey(env.apiKey) {
        RecordFailure(MissingKeyMessage, env.traceback);
        return trace + [Error];
      }
      hasEmbeddings := true;

      stage := LoadingVectors;
      trace := trace + [stage];
      if !env.storeCreated {
        RecordFailure(env.failure, env.traceback);
        return trace + [Error];
      }
      hasVectorstore := true;
      if !env.storeSaved {
        RecordFailure(env.failure, env.traceback);
        return trace + [Error];
      }

      stage := LoadingLlm;
      trace := trace + [stage];
      if !env.llmOk {
        RecordFailure(env.failure, env.traceback);
        return trace + [Error];
      }
      hasLlm := true;

      stage := Ready;
      trace := trace + [stage];
      ready := true;
    }

    /**
     * What `query_stream` does once the wait is over and the engine is ready: report a
     * failed similarity search, fall back to the canned answer when there is no chat
     * model, or stream the model's answer. An engine that became ready through `Init`
     * always has a model, so the canned answer is never chosen after a successful wait.
     */
    function AnswerRoute(searchOk: bool): (r: Route)
      requires ready
      reads this
      ensures r == RetrievalFailed <==> !searchOk
      ensures Valid() && searchOk ==> r == ModelAnswer
    {
      if !searchOk then RetrievalFailed
      else if !hasLlm then CannedAnswer
      else ModelAnswer
    }

    /**
     * `get_sources(question)`, with `search` the result of the similarity search
     * (`None` when it raises): no sources unless the engine is ready and has a vector
     * store and the search succeeds; otherwise one entry per retrieved chunk, with
     * "Policy" and "" for missing metadata.
     */
    function GetSources(search: Option<seq<PolicyDoc>>): (r: seq<SourceRef>)
      reads this
      ensures !ready || !hasVectorstore || search.None? ==> r == []
      ensures ready && hasVectorstore && search.Some? ==>
        |r| == |search.value| &&
        forall k :: 0 <= k < |r| ==>
          r[k].title == search.value[k].title.GetOr("Policy") && r[k].id == search.value[k].id.GetOr("")
    {
      if !ready || !hasVectorstore then []
      else
        match search
        case None => []
        case Some(docs) =>
          seq(|docs|, k requires 0 <= k < |docs| => SourceRef(docs[k].title.GetOr("Policy"), docs[k].id.GetOr("")))
    }
  }

  /** The module-level `_rag` slot of `get_rag`. */
  class RagSingleton {
    var instance: RagEngine?

    constructor ()
      ensures instance == null
    {
      instance := null;
    }

    /** `get_rag()`: the engine is constructed on the first call only. */
    method Get() returns (r: RagEngine)
      modifies this
      ensures instance == r
      ensures old(instance) != null ==> r == old(instance)
      ensures old(instance) == null ==> fresh(r) && r.Valid() && r.stage == Starting && !r.ready && r.initError == None
    {
      if instance == null {
        instance := new RagEngine();
      }
      r := instance;
    }
  }

  // ---------------------------------------------------------------------------
  // The wait loop of query_stream
  // ---------------------------------------------------------------------------

  /** How long a query waits for the engine, in seconds. */
  const TimeoutSeconds: nat := 180

  /** The least number of whole seconds between two progress fragments. */
  const ProgressGap: int := 5

  /**
   * What the waiting query reads at one tick: `_ready` (at the loop test), `_init_error`
   * and `_init_stage` (in the body), and the seconds elapsed since the query started.
   */
  datatype Observation = Observation(ready: bool, initError: Option<string>, stage: Stage, elapsed: real)

  /** A text fragment the wait loop yields. */
  datatype Fragment =
    | Progress(message: string, seconds: int)
    | InitFailed(detail: string)
    | TimedOut(after: nat)

  /** The progress message for a stage; stages the lookup does not list get "Working... (stage)". */
  function StageMessage(s: Stage): (r: string)
    ensures |r| > 0 && (s.Ready? || s.Error? <==> r[0] == 'W')
    ensures s.Ready? || s.Error? ==> r == "Working... (" + StageName(s) + ")"
  {
    match s
    case Starting => "Initializing..."
    case InitializingEmbeddings => "Initializing embeddings API..."
    case LoadingVectors => "Loading vector database..."
    case LoadingLlm => "Loading language model..."
    case _ => "Working... (" + StageName(s) + ")"
  }

  /** Python's `int()` on a float: truncation toward zero. */
  function Truncate(x: real): int {
    if x >= 0.0 then x.Floor else -((-x).Floor)
  }

  /** `s[:200]`. */
  function Clip(s: string): (r: string)
    ensures |r| <= 200 && r <= s
  {
    if |s| <= 200 then s else s[..200]
  }

  /**
   * The `last_progress` value after ticks `0 .. n-1` have run without an error: -10
   * at the start, then the whole seconds of each tick that yielded progress.
   */
  function LastProgress(obs: seq<Observation>, n: nat): int
    requires n <= |obs|
  {
    if n == 0 then -10
    else
      var last := LastProgress(obs, n - 1);
      var seconds := Truncate(obs[n - 1].elapsed);
      if seconds - last >= ProgressGap then seconds else last
  }

  /** Tick `t` yields a progress fragment: at least 5 whole seconds since the last one. */
  predicate EmitsProgress(obs: seq<Observation>, t: nat)
    requires t < |obs|
  {
    Truncate(obs[t].elapsed) - LastProgress(obs, t) >= ProgressGap
  }

  /** The progress fragments ticks `0 .. n-1` yield, one for each tick that emits. */
  function ProgressOf(obs: seq<Observation>, n: nat): seq<Fragment>
    requires n <= |obs|
  {
    if n == 0 then []
    else
      ProgressOf(obs, n - 1)
        + if EmitsProgress(obs, n - 1)
          then [Progress(StageMessage(obs[n - 1].stage), Truncate(obs[n - 1].elapsed))]
          else []
  }

  /**
   * Progress fragments carry strictly growing seconds, at least 5 apart; the last one
   * carries `last_progress`, which stays -10 until one is yielded.
   */
  lemma {:induction false} ProgressOfShape(obs: seq<Observation>, n: nat)
    requires n <= |obs|
    ensures var p := ProgressOf(obs, n);
      && (forall j :: 0 <= j < |p| ==> p[j].Progress?)
      && (forall j :: 0 <= j < |p| - 1 ==> p[j + 1].seconds >= p[j].seconds + ProgressGap)
      && (p != [] ==> p[|p| - 1].seconds == LastProgress(obs, n))
      && (p == [] ==> LastProgress(obs, n) == -10)
  {
    if n > 0 {
      ProgressOfShape(obs, n - 1);
    }
  }

  /**
   * Progress is not only allowed but required: every tick at least 5 whole seconds after
   * the last progress yields a fragment with its own stage message and seconds.
   */
  lemma {:induction false} EmittingTickYields(obs: seq<Observation>, t: nat, n: nat)
    requires t < n <= |obs| && EmitsProgress(obs, t)
    ensures Progress(StageMessage(obs[t].stage), Truncate(obs[t].elapsed)) in ProgressOf(obs, n)
  {
    if t < n - 1 {
      EmittingTickYields(obs, t, n - 1);
    }
  }

  /** A first tick at a non-negative time always yields progress, for its stage and second. */
  lemma {:induction false} ProgressOfFirst(obs: seq<Observation>, n: nat)
    requires 1 <= n <= |obs| && obs[0].elapsed >= 0.0
    ensures |ProgressOf(obs, n)| >= 1
    ensures ProgressOf(obs, n)[0] == Progress(StageMessage(obs[0].stage), Truncate(obs[0].elapsed))
  {
    if n == 1 {
      assert EmitsProgress(obs, 0);
    } else {
      ProgressOfFirst(obs, n - 1);
    }
  }

  /** The fragment that ends a wait which did not succeed, judged by the observation `o`. */
  function Terminal(o: Observation): Fragment {
    if HasError(o.initError) then InitFailed(Clip(o.initError.value)) else TimedOut(TimeoutSeconds)
  }

  /** What the wait loop needs of the progress fragments of its first `k` ticks. */
  lemma ProgressFacts(obs: seq<Observation>, k: nat)
    requires k <= |obs|
    ensures var p := ProgressOf(obs, k);
      && (forall j :: 0 <= j < |p| ==> p[j].Progress?)
      && (forall j :: 0 <= j < |p| - 1 ==> p[j + 1].seconds >= p[j].seconds + ProgressGap)
      && (k > 0 && obs[0].elapsed >= 0.0 ==>
            |p| >= 1 && p[0] == Progress(StageMessage(obs[0].stage), Truncate(obs[0].elapsed)))
  {
    ProgressOfShape(obs, k);
    if k > 0 && obs[0].elapsed >= 0.0 {
      ProgressOfFirst(obs, k);
    }
  }

  /** A failed wait's fragments: progress only, then one terminal fragment. */
  lemma FailedWaitShape(obs: seq<Observation>, k: nat)
    requires k < |obs|
    ensures var f := ProgressOf(obs, k) + [Terminal(obs[k])];
      && |f| >= 1
      && !f[|f| - 1].Progress?
      && (forall j :: 0 <= j < |f| - 1 ==> f[j].Progress?)
      && (f[|f| - 1].InitFailed? ==>
            HasError(obs[k].initError) && f[|f| - 1].detail == Clip(obs[k].initError.value))
      && (f[|f| - 1].TimedOut? ==> !HasError(obs[k].initError) && f[|f| - 1].after == TimeoutSeconds)
      && (forall j :: 0 <= j < |f| - 1 && f[j + 1].Progress? ==>
            f[j].Progress? && f[j + 1].seconds >= f[j].seconds + ProgressGap)
      && (k > 0 && obs[0].elapsed >= 0.0 ==>
            f[0] == Progress(StageMessage(obs[0].stage), Truncate(obs[0].elapsed)))
  {
    var p := ProgressOf(obs, k);
    var f := p + [Terminal(obs[k])];
    ProgressFacts(obs, k);
    assert forall j :: 0 <= j < |p| ==> f[j] == p[j];
  }

  /**
   * The head of `query_stream`: wait while the engine is not ready and fewer than 180
   * seconds have passed. `obs[t]` is what tick `t` reads; the clock has passed the
   * timeout by tick `deadline`. The result is the fragments yielded, the tick `ticks`
   * at which waiting ended, and whether the query goes on to retrieval (`proceed`).
   * A query that does not proceed ends with exactly one terminal fragment (an
   * initialisation error or the timeout), after progress fragments only.
   */
  method WaitForReady(obs: seq<Observation>, deadline: nat) returns (frags: seq<Fragment>, ticks: nat, proceed: bool)
    requires deadline + 1 < |obs| && obs[deadline].elapsed >= TimeoutSeconds as real
    ensures ticks <= deadline + 1
    ensures proceed <==> obs[ticks].ready
    ensures proceed ==> frags == ProgressOf(obs, ticks)
    ensures !proceed ==> frags == ProgressOf(obs, ticks) + [Terminal(obs[ticks])]
    ensures forall t :: 0 <= t < ticks ==> !obs[t].ready && !HasError(obs[t].initError)
    ensures forall t :: 0 <= t && t + 1 < ticks ==> obs[t].elapsed < TimeoutSeconds as real
    ensures proceed ==> forall k :: 0 <= k < |frags| ==> frags[k].Progress?
    ensures !proceed ==>
      && |frags| >= 1
      && !frags[|frags| - 1].Progress?
      && (forall k :: 0 <= k < |frags| - 1 ==> frags[k].Progress?)
    ensures !proceed && frags[|frags| - 1].InitFailed? ==>
      HasError(obs[ticks].initError) && frags[|frags| - 1].detail == Clip(obs[ticks].initError.value)
    ensures !proceed && frags[|frags| - 1].TimedOut? ==>
      && ticks > 0 && obs[ticks - 1].elapsed >= TimeoutSeconds as real
      && !HasError(obs[ticks].initError)
      && frags[|frags| - 1].after == TimeoutSeconds
    ensures forall k :: 0 <= k < |frags| - 1 && frags[k + 1].Progress? ==>
      frags[k].Progress? && frags[k + 1].seconds >= frags[k].seconds + ProgressGap
    ensures !obs[0].ready && !HasError(obs[0].initError) && obs[0].elapsed >= 0.0 ==>
      |frags| >= 1 && frags[0] == Progress(StageMessage(obs[0].stage), Truncate(obs[0].elapsed))
  {
    var lastProgress: int := -10;
    var elapsed: real := 0.0;
    var k: nat := 0;
    frags := [];
    while !obs[k].ready && elapsed < TimeoutSeconds as real
      invariant k <= deadline + 1
      invariant k > 0 ==> elapsed == obs[k - 1].elapsed
      invariant k == 0 ==> elapsed == 0.0
      invariant frags == ProgressOf(obs, k) && lastProgress == LastProgress(obs, k)
      invariant forall t :: 0 <= t < k ==> !obs[t].ready && !HasError(obs[t].initError)
      invariant forall t :: 0 <= t && t + 1 < k ==> obs[t].elapsed < TimeoutSeconds as real
      decreases deadline + 1 - k
    {
      elapsed := obs[k].elapsed;
      if HasError(obs[k].initError) {
        FailedWaitShape(obs, k);
        frags := frags + [InitFailed(Clip(obs[k].initError.value))];
        assert frags == ProgressOf(obs, k) + [Terminal(obs[k])];
        ticks, proceed := k, false;
        return;
      }
      var seconds := Truncate(elapsed);
      if seconds - lastProgress >= ProgressGap {
        frags := frags + [Progress(StageMessage(obs[k].stage), seconds)];
        lastProgress := seconds;
      }
      k := k + 1;
    }
    ticks := k;
    if !obs[k].ready {
      FailedWaitShape(obs, k);
      if HasError(obs[k].initError) {
        frags := frags + [InitFailed(Clip(obs[k].initError.value))];
      } else {
        frags := frags + [TimedOut(TimeoutSeconds)];
      }
      assert frags == ProgressOf(obs, k) + [Terminal(obs[k])];
      proceed := false;
    } else {
      ProgressFacts(obs, k);
      proceed := true;
    }
  }

  // ---------------------------------------------------------------------------
  // Top emitting zones of _build_live_context
  // ---------------------------------------------------------------------------

  /**
   * Reading `i` comes before reading `j` in `sorted(readings, key=co2, reverse=True)`:
   * a higher estimate first, and, the sort being stable, equal estimates in reading order.
   */
  predicate Outranks(readings: seq<ZoneRecord>, i: nat, j: nat)
    requires i < |readings| && j < |readings|
  {
    readings[i].co2 > readings[j].co2 || (readings[i].co2 == readings[j].co2 && i < j)
  }

  predicate Indices(readings: seq<ZoneRecord>, s: seq<nat>) {
    forall k :: 0 <= k < |s| ==> s[k] < |readings|
  }

  predicate RankedBy(readings: seq<ZoneRecord>, s: seq<nat>)
    requires Indices(readings, s)
  {
    forall p, q :: 0 <= p < q < |s| ==> Outranks(readings, s[p], s[q])
  }

  /** Insertion of index `i` into a ranking. */
  function Insert(readings: seq<ZoneRecord>, i: nat, ranked: seq<nat>): (r: seq<nat>)
    requires i < |readings| && Indices(readings, ranked)
    ensures |r| == |ranked| + 1 && Indices(readings, r)
    ensures forall x :: x in r <==> x == i || x in ranked
  {
    if ranked == [] then [i]
    else if Outranks(readings, i, ranked[0]) then [i] + ranked
    else [ranked[0]] + Insert(readings, i, ranked[1..])
  }

  /** The indices `0 .. n-1`, in ranking order. */
  function Ranking(readings: seq<ZoneRecord>, n: nat): (r: seq<nat>)
    requires n <= |readings|
    ensures |r| == n && Indices(readings, r)
    ensures forall x: int :: x in r <==> 0 <= x < n
  {
    if n == 0 then [] else Insert(readings, n - 1, Ranking(readings, n - 1))
  }

  /** A head that outranks every entry of a ranking extends it to a ranking. */
  lemma ConsRanked(readings: seq<ZoneRecord>, h: nat, t: seq<nat>)
    requires h < |readings| && Indices(readings, t) && RankedBy(readings, t)
    requires forall y :: y in t ==> Outranks(readings, h, y)
    ensures Indices(readings, [h] + t) && RankedBy(readings, [h] + t)
  {
    var r := [h] + t;
    forall p, q | 0 <= p < q < |r|
      ensures Outranks(readings, r[p], r[q])
    {
      assert r[q] == t[q - 1];
      if p == 0 {
        assert t[q - 1] in t;
      } else {
        assert r[p] == t[p - 1];
      }
    }
  }

  /** The tail of a ranking is a ranking, and it misses whatever the whole misses. */
  lemma RankedTail(readings: seq<ZoneRecord>, i: nat, ranked: seq<nat>)
    requires Indices(readings, ranked) && ranked != []
    requires RankedBy(readings, ranked) && i !in ranked
    ensures Indices(readings, ranked[1..]) && RankedBy(readings, ranked[1..]) && i !in ranked[1..]
  {
    var rest := ranked[1..];
    assert forall m :: 0 <= m < |rest| ==> rest[m] == ranked[m + 1];
  }

  /** Inserting below the head of a ranking puts only entries the head outranks behind it. */
  lemma HeadOutranksInserted(readings: seq<ZoneRecord>, i: nat, ranked: seq<nat>)
    requires i < |readings| && Indices(readings, ranked) && ranked != []
    requires RankedBy(readings, ranked) && i !in ranked && !Outranks(readings, i, ranked[0])
    ensures forall y :: y in Insert(readings, i, ranked[1..]) ==> Outranks(readings, ranked[0], y)
  {
    var rest := ranked[1..];
    forall y | y in Insert(readings, i, rest)
      ensures Outranks(readings, ranked[0], y)
    {
      if y != i {
        var m :| 0 <= m < |rest| && rest[m] == y;
        assert ranked[m + 1] == y;
      } else {
        assert ranked[0] in ranked;
      }
    }
  }

  lemma {:induction false} InsertRanked(readings: seq<ZoneRecord>, i: nat, ranked: seq<nat>)
    requires i < |readings| && Indices(readings, ranked)
    requires RankedBy(readings, ranked) && i !in ranked
    ensures RankedBy(readings, Insert(readings, i, ranked))
  {
    if ranked != [] && !Outranks(readings, i, ranked[0]) {
      var rest := ranked[1..];
      RankedTail(readings, i, ranked);
      InsertRanked(readings, i, rest);
      HeadOutranksInserted(readings, i, ranked);
      ConsRanked(readings, ranked[0], Insert(readings, i, rest));
    }
  }

  lemma {:induction false} RankingRanked(readings: seq<ZoneRecord>, n: nat)
    requires n <= |readings|
    ensures RankedBy(readings, Ranking(readings, n))
  {
    if n > 0 {
      RankingRanked(readings, n - 1);
      InsertRanked(readings, n - 1, Ranking(readings, n - 1));
    }
  }

  /** `sorted(readings, key=co2, reverse=True)[:3]`, as indices into the readings. */
  function TopIndices(readings: seq<ZoneRecord>): seq<nat> {
    Ranking(readings, |readings|)[..if |readings| < 3 then |readings| else 3]
  }

  /** The top-emitting zones listed in the live context. */
  function TopZones(readings: seq<ZoneRecord>): seq<ZoneRecord> {
    var top := TopIndices(readings);
    seq(|top|, k requires 0 <= k < |top| => readings[top[k]])
  }

  /**
   * The selection is exactly a stable descending sort cut to three: at most three
   * entries (three when there are at least three readings), entries at distinct positions of the readings, in
   * ranking order, and every reading left out ranks below every reading kept (lower
   * CO2, or equal CO2 and later in the list).
   */
  lemma TopZonesSpec(readings: seq<ZoneRecord>)
    ensures var top := TopIndices(readings);
      && |top| == (if |readings| < 3 then |readings| else 3)
      && Indices(readings, top)
      && (forall p, q :: 0 <= p < q < |top| ==> top[p] != top[q])
      && RankedBy(readings, top)
      && (forall j, p :: 0 <= j < |readings| && j !in top && 0 <= p < |top| ==> Outranks(readings, top[p], j))
      && |TopZones(readings)| == |top|
      && (forall p :: 0 <= p < |top| ==> TopZones(readings)[p] == readings[top[p]])
      && (forall p, q :: 0 <= p < q < |top| ==> TopZones(readings)[p].co2 >= TopZones(readings)[q].co2)
  {
    var n := |readings|;
    var all := Ranking(readings, n);
    var m := if n < 3 then n else 3;
    var top := TopIndices(readings);
    RankingRanked(readings, n);
    assert top == all[..m];
    forall j, p | 0 <= j < n && j !in top && 0 <= p < |top|
      ensures Outranks(readings, top[p], j)
    {
      assert j in all;
      var q :| 0 <= q < n && all[q] == j;
      if q < m {
        assert false;
      }
    }
    forall p, q | 0 <= p < q < |top|
      ensures top[p] != top[q]
    {
      assert Outranks(readings, all[p], all[q]);
    }
  }
}
