/**
 * The module state of backend/main.py and the code that changes it: the subscriber
 * registry with the broadcast pass of `stream_loop` and the connect/disconnect path of
 * `ws_endpoint`, the latest snapshot, city selection, and the lazy RAG handle with its
 * status report. Clients are identities; whether a send succeeds is an oracle.
 */
module Api {
  import opened Wrappers
  import opened StationFeed
  import opened PathwayStream
  import Rag

  /** A connected WebSocket, by identity. */
  type ClientId = nat

  /** What the server sends on a socket: `{"type": "update", "data": …}` or "pong". */
  datatype Message = Update(snapshot: Snapshot) | Pong

  /** One attempted send. */
  datatype Send = Send(client: ClientId, message: Message)

  // ---------------------------------------------------------------------------
  // List removal
  // ---------------------------------------------------------------------------

  /** `s.remove(x)`: drop the first occurrence of `x`. */
  function RemoveFirst(s: seq<ClientId>, x: ClientId): (r: seq<ClientId>)
    requires x in s
    ensures |r| == |s| - 1
    ensures multiset(r) == multiset(s) - multiset{x}
  {
    assert s == [s[0]] + s[1..];
    if s[0] == x then s[1..] else [s[0]] + RemoveFirst(s[1..], x)
  }

  /** `if x in s: s.remove(x)`, the guarded removal of both call sites. */
  function Discard(s: seq<ClientId>, x: ClientId): (r: seq<ClientId>)
    ensures x !in s ==> r == s
    ensures x in s ==> |r| == |s| - 1 && multiset(r) == multiset(s) - multiset{x}
  {
    if x in s then RemoveFirst(s, x) else s
  }

  /** The guarded removal applied to each of `dead` in turn. */
  function DiscardAll(s: seq<ClientId>, dead: seq<ClientId>): seq<ClientId> {
    if dead == [] then s else Discard(DiscardAll(s, dead[..|dead| - 1]), dead[|dead| - 1])
  }

  /** The clients of `s` whose send fails, in order, as the `dead` list collects them. */
  function Failed(s: seq<ClientId>, ok: ClientId -> bool): (r: seq<ClientId>)
    ensures forall x :: x in r <==> x in s && !ok(x)
  {
    if s == [] then []
    else Failed(s[..|s| - 1], ok) + (if ok(s[|s| - 1]) then [] else [s[|s| - 1]])
  }

  /** The clients of `s` whose send succeeds, in order. */
  function Survivors(s: seq<ClientId>, ok: ClientId -> bool): (r: seq<ClientId>)
    ensures forall x :: x in r <==> x in s && ok(x)
  {
    if s == [] then []
    else Survivors(s[..|s| - 1], ok) + (if ok(s[|s| - 1]) then [s[|s| - 1]] else [])
  }

  /** `remove` takes out exactly the first occurrence and keeps the rest in order. */
  lemma {:induction false} RemoveFirstAt(s: seq<ClientId>, i: nat)
    requires i < |s| && s[i] !in s[..i]
    ensures RemoveFirst(s, s[i]) == s[..i] + s[i + 1..]
  {
    if i > 0 {
      var x, t := s[i], s[1..];
      assert s[0] != x by { assert s[0] == s[..i][0]; }
      assert t[i - 1] == x;
      assert t[..i - 1] == s[1..i];
      RemoveFirstAt(t, i - 1);
      assert RemoveFirst(s, x) == [s[0]] + RemoveFirst(t, x);
      SkipOneSplit(s, i);
    }
  }

  /** Re-bracketing `s` without its entry `i`, for `i > 0`. */
  lemma SkipOneSplit(s: seq<ClientId>, i: nat)
    requires 0 < i < |s|
    ensures [s[0]] + (s[1..][..i - 1] + s[1..][i..]) == s[..i] + s[i + 1..]
  {
    assert s[..i] == [s[0]] + s[1..][..i - 1];
    assert s[i + 1..] == s[1..][i..];
  }

  lemma {:induction false} RemoveFirstSnoc(t: seq<ClientId>, c: ClientId, x: ClientId)
    requires x in t
    ensures RemoveFirst(t + [c], x) == RemoveFirst(t, x) + [c]
  {
    assert (t + [c])[0] == t[0];
    assert (t + [c])[1..] == t[1..] + [c];
    if t[0] != x {
      RemoveFirstSnoc(t[1..], c, x);
    }
  }

  lemma {:induction false} FailedWithin(s: seq<ClientId>, ok: ClientId -> bool)
    ensures multiset(Failed(s, ok)) <= multiset(s)
  {
    if s != [] {
      var t := s[..|s| - 1];
      assert s == t + [s[|s| - 1]];
      FailedWithin(t, ok);
    }
  }

  lemma {:induction false} DiscardAllCount(t: seq<ClientId>, d: seq<ClientId>)
    requires multiset(d) <= multiset(t)
    ensures multiset(DiscardAll(t, d)) == multiset(t) - multiset(d)
  {
    if d != [] {
      var d', x := d[..|d| - 1], d[|d| - 1];
      assert d == d' + [x];
      DiscardAllCount(t, d');
      assert multiset(DiscardAll(t, d'))[x] == multiset(t)[x] - multiset(d')[x];
    }
  }

  /** Removing clients that occur in `t` never reaches a client appended after `t`. */
  lemma {:induction false} DiscardAllSnoc(t: seq<ClientId>, c: ClientId, d: seq<ClientId>)
    requires multiset(d) <= multiset(t)
    ensures DiscardAll(t + [c], d) == DiscardAll(t, d) + [c]
  {
    if d != [] {
      var d', x := d[..|d| - 1], d[|d| - 1];
      assert d == d' + [x];
      DiscardAllSnoc(t, c, d');
      DiscardAllCount(t, d');
      assert multiset(DiscardAll(t, d'))[x] == multiset(t)[x] - multiset(d')[x];
      RemoveFirstSnoc(DiscardAll(t, d'), c, x);
    }
  }

  lemma DiscardAllSnocDead(s: seq<ClientId>, d: seq<ClientId>, x: ClientId)
    ensures DiscardAll(s, d + [x]) == Discard(DiscardAll(s, d), x)
  {
    assert (d + [x])[..|d|] == d;
  }

  lemma DiscardLastAbsent(u: seq<ClientId>, c: ClientId)
    requires c !in u
    ensures Discard(u + [c], c) == u
  {
    assert (u + [c])[|u|] == c && (u + [c])[..|u|] == u;
    RemoveFirstAt(u + [c], |u|);
    assert (u + [c])[|u| + 1..] == [];
  }

  /**
   * The removal phase of a broadcast pass leaves exactly the clients whose send
   * succeeded, in their order, even when a client is registered more than once.
   */
  lemma {:induction false} BroadcastKeepsSurvivors(s: seq<ClientId>, ok: ClientId -> bool)
    ensures DiscardAll(s, Failed(s, ok)) == Survivors(s, ok)
  {
    if s != [] {
      var t, c := s[..|s| - 1], s[|s| - 1];
      assert s == t + [c];
      BroadcastKeepsSurvivors(t, ok);
      FailedWithin(t, ok);
      DiscardAllSnoc(t, c, Failed(t, ok));
      if ok(c) {
        assert Failed(s, ok) == Failed(t, ok);
        assert Survivors(s, ok) == Survivors(t, ok) + [c];
      } else {
        assert Failed(s, ok) == Failed(t, ok) + [c];
        assert Survivors(s, ok) == Survivors(t, ok);
        DiscardAllSnocDead(s, Failed(t, ok), c);
        DiscardLastAbsent(Survivors(t, ok), c);
      }
    }
  }

  // ---------------------------------------------------------------------------
  // City selection
  // ---------------------------------------------------------------------------

  /** `[c for c in requested if c in CITIES_CONFIG]`. */
  function KnownCities(requested: seq<string>): (r: seq<string>)
    ensures forall c :: c in r <==> c in requested && c in CityNames
  {
    if requested == [] then []
    else
      var last := requested[|requested| - 1];
      KnownCities(requested[..|requested| - 1]) + (if last in CityNames then [last] else [])
  }

  /** The filter distributes over concatenation: it keeps the request's order. */
  lemma {:induction false} KnownCitiesAppend(a: seq<string>, b: seq<string>)
    ensures KnownCities(a + b) == KnownCities(a) + KnownCities(b)
  {
    if b != [] {
      var b' := b[..|b| - 1];
      assert (a + b)[..|a + b| - 1] == a + b';
      assert (a + b)[|a + b| - 1] == b[|b| - 1];
      KnownCitiesAppend(a, b');
    } else {
      assert a + b == a;
    }
  }

  /** A configured city is kept as many times as it was requested; others are dropped. */
  lemma {:induction false} KnownCitiesCount(requested: seq<string>, c: string)
    ensures c in CityNames ==> multiset(KnownCities(requested))[c] == multiset(requested)[c]
    ensures c !in CityNames ==> multiset(KnownCities(requested))[c] == 0
  {
    if requested != [] {
      var init := requested[..|requested| - 1];
      assert requested == init + [requested[|requested| - 1]];
      KnownCitiesCount(init, c);
    }
  }

  /** Selecting the effective selection again changes nothing. */
  lemma {:induction false} KnownCitiesIdempotent(requested: seq<string>)
    ensures KnownCities(KnownCities(requested)) == KnownCities(requested)
  {
    if requested != [] {
      var init := requested[..|requested| - 1];
      var last := requested[|requested| - 1];
      KnownCitiesIdempotent(init);
      KnownCitiesAppend(KnownCities(init), if last in CityNames then [last] else []);
      if last in CityNames {
        assert [last][..0] == [];
      }
    }
  }

  /** The reply to a client message: "pong" to "ping", nothing otherwise. */
  function Reply(msg: string): (r: Option<Message>)
    ensures r.Some? <==> msg == "ping"
    ensures r.Some? ==> r.value == Pong
  {
    if msg == "ping" then Some(Pong) else None
  }

  /** One `send_json` of `message` per client of `s`, in order. */
  function Sends(s: seq<ClientId>, message: Message): (r: seq<Send>)
    ensures |r| == |s|
    ensures forall k :: 0 <= k < |s| ==> r[k] == Send(s[k], message)
  {
    if s == [] then []
    else Sends(s[..|s| - 1], message) + [Send(s[|s| - 1], message)]
  }

  lemma SendsStep(s: seq<ClientId>, i: nat, message: Message)
    requires i < |s|
    ensures Sends(s[..i + 1], message) == Sends(s[..i], message) + [Send(s[i], message)]
  {
    assert s[..i + 1][..i] == s[..i];
  }

  /** One more attempted send adds its client to the failures exactly when it fails. */
  lemma FailedStep(s: seq<ClientId>, i: nat, ok: ClientId -> bool)
    requires i < |s|
    ensures Failed(s[..i + 1], ok) == Failed(s[..i], ok) + (if ok(s[i]) then [] else [s[i]])
  {
    assert s[..i + 1][..i] == s[..i];
  }

  /**
   * The send loop of a broadcast pass over a copy of the registry: one attempt per
   * client, in order, collecting the clients whose send fails.
   */
  method SendAll(copy: seq<ClientId>, message: Message, sendOk: ClientId -> bool)
    returns (sends: seq<Send>, dead: seq<ClientId>)
    ensures |sends| == |copy|
    ensures forall k :: 0 <= k < |sends| ==> sends[k] == Send(copy[k], message)
    ensures dead == Failed(copy, sendOk)
  {
    dead := [];
    sends := [];
    for i := 0 to |copy|
      invariant dead == Failed(copy[..i], sendOk)
      invariant sends == Sends(copy[..i], message)
    {
      FailedStep(copy, i, sendOk);
      SendsStep(copy, i, message);
      sends := sends + [Send(copy[i], message)];
      if !sendOk(copy[i]) {
        dead := dead + [copy[i]];
      }
    }
    assert copy[..|copy|] == copy;
  }

  /** The body of `rag_status`. */
  datatype RagReport = RagReport(loaded: bool, ready: bool, error: Option<string>)

  /** The module globals of main.py, with the singleton slots of the two other modules. */
  class AppState {
    /** `_latest`; `None` is the initial empty dict. */
    var latest: Option<Snapshot>
    /** `_ws_clients`. */
    var clients: seq<ClientId>
    /** `_active_cities`. */
    var activeCities: seq<string>
    /** main.py's own `_rag` handle. */
    var rag: Rag.RagEngine?
    /** The `_processor` slot behind `get_processor`. */
    const processors: ProcessorSingleton
    /** The `_rag` slot behind rag.py's `get_rag`. */
    const rags: Rag.RagSingleton

    /** The handle, once set, is the engine `get_rag` holds. */
    ghost predicate Valid()
      reads this, rags
    {
      rag != null ==> rags.instance == rag
    }

    /** Import time: no snapshot, no clients, every configured city active, no engine. */
    constructor (processors: ProcessorSingleton, rags: Rag.RagSingleton)
      ensures this.processors == processors && this.rags == rags
      ensures latest == None && clients == [] && activeCities == CityNames && rag == null
      ensures Valid()
    {
      this.processors := processors;
      this.rags := rags;
      latest := None;
      clients := [];
      activeCities := CityNames;
      rag := null;
    }

    /** `snapshot()`: the latest batch, or `{"readings": [], "cities": {}}` before the first. */
    function CurrentSnapshot(): (s: Snapshot)
      reads this
      ensures latest.Some? ==> s == latest.value
      ensures latest.None? ==> s == NoData && s.Readings() == []
    {
      if latest.Some? then latest.value else NoData
    }

    /** `rag_status()`: reads the handle and never creates an engine. */
    function Status(): (s: RagReport)
      reads this, rag
      ensures s.loaded <==> rag != null
      ensures rag == null ==> !s.ready && s.error == None
      ensures rag != null ==> s.ready == rag.ready && s.error == rag.initError
    {
      if rag == null then RagReport(false, false, None)
      else RagReport(true, rag.ready, rag.initError)
    }

    /**
     * `get_rag_lazy()`: reuse the handle, otherwise ask `get_rag`; an engine is
     * constructed only when no engine exists anywhere.
     */
    method GetRagLazy() returns (r: Rag.RagEngine)
      requires Valid()
      modifies this, rags
      ensures Valid() && rag == r && rags.instance == r
      ensures old(rags.instance) != null ==> r == old(rags.instance)
      ensures old(rags.instance) == null ==> fresh(r) && !r.ready && r.stage == Rag.Starting && r.initError == None
      ensures latest == old(latest) && clients == old(clients) && activeCities == old(activeCities)
    {
      if rag == null {
        r := rags.Get();
        rag := r;
      } else {
        r := rag;
      }
    }

    /** `ws_endpoint` on connect: register, then send the latest batch if there is one. */
    method Connect(ws: ClientId) returns (sends: seq<Send>)
      modifies this
      ensures clients == old(clients) + [ws]
      ensures latest.Some? ==> sends == [Send(ws, Update(latest.value))]
      ensures latest.None? ==> sends == []
      ensures latest == old(latest) && activeCities == old(activeCities) && rag == old(rag)
    {
      clients := clients + [ws];
      sends := if latest.Some? then [Send(ws, Update(latest.value))] else [];
    }

    /** `ws_endpoint` when the socket fails: the guarded removal, a no-op for an absent client. */
    method Disconnect(ws: ClientId)
      modifies this
      ensures clients == Discard(old(clients), ws)
      ensures latest == old(latest) && activeCities == old(activeCities) && rag == old(rag)
    {
      if ws in clients {
        clients := RemoveFirst(clients, ws);
      }
    }

    /** The guarded removal of each client of `dead`, in order, from the registry. */
    method RemoveDead(dead: seq<ClientId>)
      modifies this
      ensures clients == DiscardAll(old(clients), dead)
      ensures latest == old(latest) && activeCities == old(activeCities) && rag == old(rag)
    {
      ghost var start := clients;
      for j := 0 to |dead|
        invariant clients == DiscardAll(start, dead[..j])
        invariant latest == old(latest) && activeCities == old(activeCities) && rag == old(rag)
      {
        assert dead[..j + 1] == dead[..j] + [dead[j]];
        DiscardAllSnocDead(start, dead[..j], dead[j]);
        if dead[j] in clients {
          clients := RemoveFirst(clients, dead[j]);
        }
      }
      assert dead[..|dead|] == dead;
    }

    /**
     * One turn of `stream_loop`: store the batch as `_latest`, try to send it to every
     * client registered when the pass starts, then remove the clients whose send failed.
     */
    method Publish(snapshot: Snapshot, sendOk: ClientId -> bool) returns (sends: seq<Send>)
      modifies this
      ensures latest == Some(snapshot)
      ensures |sends| == |old(clients)|
      ensures forall k :: 0 <= k < |sends| ==> sends[k] == Send(old(clients)[k], Update(snapshot))
      ensures clients == Survivors(old(clients), sendOk)
      ensures activeCities == old(activeCities) && rag == old(rag)
    {
      latest := Some(snapshot);
      var dead;
      sends, dead := SendAll(clients, Update(snapshot), sendOk);
      BroadcastKeepsSurvivors(clients, sendOk);
      RemoveDead(dead);
    }

    /**
     * `select_cities`: the active list becomes the known requested cities, and the same
     * list is assigned to the processor's `cities` (creating the processor if needed).
     * A processor that is already streaming keeps polling the list it started with.
     */
    method SelectCities(requested: seq<string>) returns (active: seq<string>)
      modifies this, processors, processors.instance
      ensures active == activeCities == KnownCities(requested)
      ensures processors.instance != null && processors.instance.cities == active
      ensures old(processors.instance) != null ==>
        && processors.instance == old(processors.instance)
        && processors.instance.running == old(processors.instance.running)
        && processors.instance.polling == old(processors.instance.polling)
      ensures old(processors.instance) == null ==>
        fresh(processors.instance) && !processors.instance.running && processors.instance.polling == None
      ensures latest == old(latest) && clients == old(clients) && rag == old(rag)
    {
      activeCities := KnownCities(requested);
      var p := processors.Get(activeCities);
      p.cities := activeCities;
      active := activeCities;
    }

    /** The head of `stream_loop`: get the processor for the active cities and start it. */
    method StartStream() returns (p: AsyncProcessor)
      modifies processors, processors.instance
      ensures processors.instance == p && p.running
      ensures old(processors.instance) == null ==> fresh(p) && p.cities == activeCities && p.polling == Some(activeCities)
      ensures old(processors.instance) != null ==>
        p == old(processors.instance) && p.cities == old(processors.instance.cities) && p.polling == Some(p.cities)
    {
      p := processors.Get(activeCities);
      p.Start();
    }

    /**
     * One poll cycle of the started processor as `stream_loop` sees it: a cycle with no
     * successful station yields nothing and leaves `_latest` as it was; a yielded batch
     * is published.
     */
    method StreamStep(p: AsyncProcessor, env: CycleEnv, sendOk: ClientId -> bool)
      returns (outcome: CycleOutcome, sends: seq<Send>)
      requires p.polling.Some?
      modifies this
      ensures outcome.Skipped? <==> CycleRecords(p.polling.value, true, env) == []
      ensures outcome.Stopped? <==> CycleRecords(p.polling.value, true, env) != [] && !p.running
      ensures outcome.Yielded? ==>
        && outcome.snapshot == Summarise(CycleRecords(p.polling.value, true, env), env.now)
        && latest == Some(outcome.snapshot)
        && clients == Survivors(old(clients), sendOk)
        && |sends| == |old(clients)|
        && (forall k :: 0 <= k < |sends| ==> sends[k] == Send(old(clients)[k], Update(outcome.snapshot)))
      ensures !outcome.Yielded? ==> latest == old(latest) && clients == old(clients) && sends == []
      ensures activeCities == old(activeCities) && rag == old(rag)
    {
      outcome := p.NextCycle(env);
      sends := [];
      if outcome.Yielded? {
        sends := Publish(outcome.snapshot, sendOk);
      }
    }
  }
}
