/** The network plugin as the program keeps it: sets and maps per network id and shared
    ones, updated in place by loops. Each critical section is proved against its function
    in `EndpointState`, and a whole tick that nobody interrupts against a run of
    `EndpointProtocol`. The locks are the subject of `LockOrder`. */
module NetworkPlugin {
  import opened EndpointState
  import opened EndpointProtocol
  import opened EndpointPaths

  class NetworkPlugin {
    const localEndpoints: array<set<nat>>
    const pendingInputs: array<map<nat, seq<Input>>>
    var newEndpoints: set<nat>
    var endpoints: set<nat>
    var endpointData: map<nat, seq<Input>>
    var pendingDisconnects: seq<nat>
    /** The callbacks made and the inputs dropped so far. */
    ghost var calls: map<nat, seq<Event>>

    ghost predicate Valid()
      reads this
    {
      localEndpoints.Length == pendingInputs.Length
    }

    ghost function View(): (p: Plugin)
      reads this, localEndpoints, pendingInputs
      requires Valid()
      ensures WellFormed(p) && |p.locals| == localEndpoints.Length
    {
      Plugin(localEndpoints[..], pendingInputs[..], newEndpoints, endpoints, endpointData, pendingDisconnects, calls)
    }

    constructor (maxConcurrentThreads: nat)
      ensures Valid() && View() == Initial(maxConcurrentThreads).plugin
      ensures fresh(localEndpoints) && fresh(pendingInputs)
    {
      localEndpoints := new set<nat>[maxConcurrentThreads](_ => {});
      pendingInputs := new map<nat, seq<Input>>[maxConcurrentThreads](_ => map[]);
      newEndpoints, endpoints, endpointData, pendingDisconnects, calls := {}, {}, map[], [], map[];
      new;
      assert View().locals == Initial(maxConcurrentThreads).plugin.locals;
      assert View().pending == Initial(maxConcurrentThreads).plugin.pending;
    }

    /** The body of a packet task. */
    method HandleNetworkPacket(id: nat, endpoint: nat, buffer: nat)
      requires Valid() && id < localEndpoints.Length && PacketAsserts(View(), id, endpoint)
      modifies this, localEndpoints, pendingInputs
      ensures Valid() && View() == Packet(old(View()), id, endpoint, buffer)
    {
      ghost var before := View();
      if endpoint !in localEndpoints[id] {
        if endpoint !in endpoints {
          endpoints := endpoints + {endpoint};
          newEndpoints := newEndpoints + {endpoint};
        }
        localEndpoints[id] := localEndpoints[id] + {endpoint};
        if endpoint !in pendingInputs[id] {
          pendingInputs[id] := pendingInputs[id][endpoint := []];
        }
        assert View() == Register(before, id, endpoint);
      }
      pendingInputs[id] := Record(pendingInputs[id], endpoint, Input(id, buffer));
    }

    method RequestDisconnect(endpoint: nat)
      requires Valid()
      modifies this`pendingDisconnects
      ensures Valid() && View() == Disconnect(old(View()), endpoint)
    {
      pendingDisconnects := pendingDisconnects + [endpoint];
    }

    /** Creates any new client. */
    method CreateNewClients()
      requires Valid()
      modifies this`endpointData, this`newEndpoints, this`calls
      ensures Valid() && View() == CreateClients(old(View()))
    {
      if newEndpoints != {} {
        ghost var data, was := endpointData, calls;
        var rest := newEndpoints;
        while rest != {}
          invariant rest <= newEndpoints == old(newEndpoints)
          invariant endpointData == Opened(data, newEndpoints - rest)
          invariant calls == Announced(was, newEndpoints - rest)
          decreases rest
        {
          var endpoint :| endpoint in rest;
          OpenedStep(data, newEndpoints - rest, endpoint);
          AnnouncedStep(was, newEndpoints - rest, endpoint);
          assert newEndpoints - rest + {endpoint} == newEndpoints - (rest - {endpoint});
          if endpoint !in endpointData {
            endpointData := endpointData[endpoint := []];
          }
          calls := Record(calls, endpoint, NewClient);
          rest := rest - {endpoint};
        }
        assert newEndpoints - {} == newEndpoints;
        newEndpoints := {};
      }
      CreateIs(old(View()));
    }

    /** Accumulates the pending inputs of one network id. */
    method Accumulate(id: nat)
      requires Valid() && id < pendingInputs.Length
      modifies this`endpointData, pendingInputs
      ensures Valid() && View() == Collect(old(View()), id)
    {
      if pendingInputs[id] != map[] {
        ghost var data, held := endpointData, pendingInputs[id];
        var rest := pendingInputs[id].Keys;
        while rest != {}
          invariant rest <= held.Keys == pendingInputs[id].Keys
          invariant forall k :: 0 <= k < pendingInputs.Length && k != id ==> pendingInputs[k] == old(pendingInputs[k])
          invariant endpointData == Gathered(data, held, held.Keys - rest)
          invariant pendingInputs[id] == Emptied(held, data.Keys, held.Keys - rest)
          decreases rest
        {
          var endpoint :| endpoint in rest;
          GatheredStep(data, held, held.Keys - rest, endpoint);
          EmptiedStep(held, data.Keys, held.Keys - rest, endpoint);
          assert held.Keys - rest + {endpoint} == held.Keys - (rest - {endpoint});
          if endpoint in endpointData {
            endpointData := endpointData[endpoint := endpointData[endpoint] + pendingInputs[id][endpoint]];
            pendingInputs[id] := pendingInputs[id][endpoint := []];
          }
          rest := rest - {endpoint};
        }
        assert held.Keys - {} == held.Keys;
      }
      CollectIs(old(View()), id);
      assert View().pending == Collect(old(View()), id).pending;
    }

    /** One task per client; they may finish in any order, and all have when this ends. */
    method DeliverClientInputs()
      requires Valid()
      modifies this`endpointData, this`calls
      ensures Valid() && View() == Deliver(old(View()))
    {
      ghost var data, was := endpointData, calls;
      var rest := endpointData.Keys;
      while rest != {}
        invariant rest <= data.Keys == endpointData.Keys
        invariant endpointData == Cleared(data, data.Keys - rest)
        invariant calls == Handed(was, data, data.Keys - rest)
        decreases rest
      {
        var endpoint :| endpoint in rest;
        HandedStep(was, data, data.Keys - rest, endpoint);
        assert data.Keys - rest + {endpoint} == data.Keys - (rest - {endpoint});
        calls := Record(calls, endpoint, Inputs(endpointData[endpoint]));
        endpointData := endpointData[endpoint := []];
        rest := rest - {endpoint};
      }
      assert data.Keys - {} == data.Keys;
      DeliverIs(old(View()));
    }

    /** Tears one endpoint down. */
    method Teardown(endpoint: nat)
      requires Valid() && endpoint in endpoints
      modifies this, localEndpoints, pendingInputs
      ensures Valid() && View() == TornDown(old(View()), endpoint)
    {
      calls := Record(calls, endpoint, Dropped(At(endpointData, endpoint)));
      endpointData := endpointData - {endpoint};
      assert endpoint in endpoints;
      endpoints := endpoints - {endpoint};
      ghost var unregistered := Unregister(EraseData(old(View()), endpoint), endpoint);
      assert View() == unregistered;
      for i := 0 to localEndpoints.Length
        invariant Valid() && View() == ClearedBelow(unregistered, i, endpoint)
      {
        ghost var p := View();
        if endpoint in localEndpoints[i] {
          calls := Record(calls, endpoint, Dropped(At(pendingInputs[i], endpoint)));
          localEndpoints[i] := localEndpoints[i] - {endpoint};
          pendingInputs[i] := pendingInputs[i] - {endpoint};
        }
        assert View() == ClearLocal(p, i, endpoint);
      }
      calls := Record(calls, endpoint, Disconnected);
    }

    /** Executes every pending disconnect. */
    method ExecuteDisconnects()
      requires Valid()
      requires forall k :: 0 <= k < |pendingDisconnects| ==> pendingDisconnects[k] in endpoints
      requires forall j, k :: 0 <= j < k < |pendingDisconnects| ==> pendingDisconnects[j] != pendingDisconnects[k]
      modifies this, localEndpoints, pendingInputs
      ensures Valid() && View() == ForgetDisconnects(TornDownBelow(old(View()), |old(pendingDisconnects)|))
    {
      ghost var p := View();
      for k := 0 to |pendingDisconnects|
        invariant Valid() && pendingDisconnects == p.disconnects
        invariant View() == TornDownBelow(p, k)
        invariant forall j :: k <= j < |pendingDisconnects| ==> pendingDisconnects[j] in endpoints
      {
        TornDownKeeps(View(), pendingDisconnects[k]);
        Teardown(pendingDisconnects[k]);
      }
      pendingDisconnects := [];
    }

    /** A whole tick, with nothing in between. */
    method Tick()
      requires Valid()
      requires forall k :: 0 <= k < |pendingDisconnects| ==> pendingDisconnects[k] in endpoints
      requires forall j, k :: 0 <= j < k < |pendingDisconnects| ==> pendingDisconnects[j] != pendingDisconnects[k]
      modifies this, localEndpoints, pendingInputs
      ensures Valid() && View() == TickAlone(old(View()))
    {
      CreateNewClients();
      ghost var created := View();
      for id := 0 to localEndpoints.Length
        invariant Valid() && View() == CollectedBelow(created, id)
        invariant pendingDisconnects == old(pendingDisconnects) && endpoints == old(endpoints)
      {
        Accumulate(id);
      }
      DeliverClientInputs();
      ExecuteDisconnects();
    }
  }

  // ---------------------------------------------------------------- loops half way

  /** The clients once the new endpoints in `handled` have theirs. */
  ghost function Opened(data: map<nat, seq<Input>>, handled: set<nat>): map<nat, seq<Input>> {
    map e | e in data.Keys + handled :: At(data, e)
  }

  ghost function Announced(calls: map<nat, seq<Event>>, handled: set<nat>): map<nat, seq<Event>> {
    map e | e in calls.Keys + handled :: if e in handled then At(calls, e) + [NewClient] else At(calls, e)
  }

  lemma OpenedStep(data: map<nat, seq<Input>>, handled: set<nat>, e: nat)
    requires e !in handled
    ensures Opened(data, handled + {e}) ==
            if e in Opened(data, handled) then Opened(data, handled) else Opened(data, handled)[e := []]
  {
  }

  lemma AnnouncedStep(calls: map<nat, seq<Event>>, handled: set<nat>, e: nat)
    requires e !in handled
    ensures Announced(calls, handled + {e}) == Record(Announced(calls, handled), e, NewClient)
  {
    assert At(Announced(calls, handled), e) == At(calls, e);
  }

  lemma CreateIs(p: Plugin)
    ensures CreateClients(p) ==
            p.(data := Opened(p.data, p.newcomers), newcomers := {}, calls := Announced(p.calls, p.newcomers))
    ensures p.newcomers == {} ==> CreateClients(p) == p
  {
    var q := CreateClients(p);
    forall e | e in q.calls
      ensures q.calls[e] == Announced(p.calls, p.newcomers)[e]
      ensures p.newcomers == {} ==> q.calls[e] == p.calls[e]
    {
      assert At(p.calls, e) + [] == At(p.calls, e);
    }
    assert q.calls == Announced(p.calls, p.newcomers);
    if p.newcomers == {} {
      assert q.calls == p.calls && q.data == p.data;
    }
  }

  ghost function Gathered(data: map<nat, seq<Input>>, held: map<nat, seq<Input>>, handled: set<nat>): map<nat,
      seq<Input>> {
    map e | e in data :: if e in handled then data[e] + At(held, e) else data[e]
  }

  ghost function Emptied(held: map<nat, seq<Input>>, known: set<nat>, handled: set<nat>): map<nat, seq<Input>> {
    map e | e in held :: if e in known && e in handled then [] else held[e]
  }

  lemma GatheredStep(data: map<nat, seq<Input>>, held: map<nat, seq<Input>>, handled: set<nat>, e: nat)
    requires e !in handled && e in held
    ensures Gathered(data, held, handled + {e}) ==
            if e in data then Gathered(data, held, handled)[e := Gathered(data, held, handled)[e] + held[e]]
            else Gathered(data, held, handled)
  {
  }

  lemma EmptiedStep(held: map<nat, seq<Input>>, known: set<nat>, handled: set<nat>, e: nat)
    requires e !in handled && e in held
    ensures Emptied(held, known, handled + {e}) ==
            if e in known then Emptied(held, known, handled)[e := []] else Emptied(held, known, handled)
    ensures Emptied(held, known, handled)[e] == held[e]
  {
  }

  lemma CollectIs(p: Plugin, i: nat)
    requires i < |p.pending|
    ensures Collect(p, i).data == Gathered(p.data, p.pending[i], p.pending[i].Keys)
    ensures Collect(p, i).pending == p.pending[i := Emptied(p.pending[i], p.data.Keys, p.pending[i].Keys)]
    ensures p.pending[i] == map[] ==> Collect(p, i) == p
  {
    var q := Collect(p, i);
    assert q.pending[i] == Emptied(p.pending[i], p.data.Keys, p.pending[i].Keys);
    forall e | e in p.data
      ensures q.data[e] == Gathered(p.data, p.pending[i], p.pending[i].Keys)[e]
      ensures p.pending[i] == map[] ==> q.data[e] == p.data[e]
    {
      assert p.data[e] + [] == p.data[e];
    }
    if p.pending[i] == map[] {
      assert q.data == p.data && q.pending[i] == p.pending[i] && q.pending == p.pending;
    }
  }

  ghost function Cleared(data: map<nat, seq<Input>>, handled: set<nat>): map<nat, seq<Input>> {
    map e | e in data :: if e in handled then [] else data[e]
  }

  ghost function Handed(calls: map<nat, seq<Event>>, data: map<nat, seq<Input>>, handled: set<nat>): map<nat,
      seq<Event>>
    requires handled <= data.Keys
  {
    map e | e in calls.Keys + handled :: if e in handled then At(calls, e) + [Inputs(data[e])] else At(calls, e)
  }

  lemma HandedStep(calls: map<nat, seq<Event>>, data: map<nat, seq<Input>>, handled: set<nat>, e: nat)
    requires handled <= data.Keys && e in data && e !in handled
    ensures Handed(calls, data, handled + {e}) == Record(Handed(calls, data, handled), e, Inputs(data[e]))
    ensures Cleared(data, handled + {e}) == Cleared(data, handled)[e := []] && Cleared(data, handled)[e] == data[e]
  {
    assert At(Handed(calls, data, handled), e) == At(calls, e);
  }

  lemma DeliverIs(p: Plugin)
    ensures Deliver(p) == p.(data := Cleared(p.data, p.data.Keys), calls := Handed(p.calls, p.data, p.data.Keys))
  {
    var q := Deliver(p);
    forall e | e in q.calls
      ensures q.calls[e] == Handed(p.calls, p.data, p.data.Keys)[e]
    {
      assert At(p.calls, e) + [] == At(p.calls, e);
    }
    assert q.calls == Handed(p.calls, p.data, p.data.Keys);
  }

  // ---------------------------------------------------------------- sections in sequence

  ghost function CollectedBelow(p: Plugin, n: nat): (q: Plugin)
    requires WellFormed(p) && n <= |p.locals|
    ensures WellFormed(q) && q.locals == p.locals
  {
    if n == 0 then p else Collect(CollectedBelow(p, n - 1), n - 1)
  }

  ghost function ClearedBelow(p: Plugin, n: nat, e: nat): (q: Plugin)
    requires WellFormed(p) && n <= |p.locals|
    ensures WellFormed(q) && |q.locals| == |p.locals| && q.disconnects == p.disconnects && q.endpoints == p.endpoints
  {
    if n == 0 then p else ClearLocal(ClearedBelow(p, n - 1, e), n - 1, e)
  }

  ghost function TornDown(p: Plugin, e: nat): (q: Plugin)
    requires WellFormed(p)
    ensures WellFormed(q) && q.disconnects == p.disconnects && |q.locals| == |p.locals|
  {
    Notify(ClearedBelow(Unregister(EraseData(p, e), e), |p.locals|, e), e)
  }

  ghost function TornDownBelow(p: Plugin, k: nat): (q: Plugin)
    requires WellFormed(p) && k <= |p.disconnects|
    ensures WellFormed(q) && q.disconnects == p.disconnects && |q.locals| == |p.locals|
  {
    if k == 0 then p else TornDown(TornDownBelow(p, k - 1), p.disconnects[k - 1])
  }

  ghost function TickAlone(p: Plugin): Plugin
    requires WellFormed(p)
  {
    var q := Deliver(CollectedBelow(CreateClients(p), |p.locals|));
    ForgetDisconnects(TornDownBelow(q, |q.disconnects|))
  }

  lemma TornDownKeeps(p: Plugin, e: nat)
    requires WellFormed(p)
    ensures TornDown(p, e).endpoints == p.endpoints - {e}
  {
  }

  // ---------------------------------------------------------------- the tick as a run

  lemma {:induction false} CollectingRuns(s: State, n: nat) returns (steps: seq<Step>, t: State)
    requires WellFormed(s.plugin) && s.phase == Collecting(0) && n <= |s.plugin.locals|
    ensures Continues(s, steps, t) && t == s.(plugin := CollectedBelow(s.plugin, n), phase := Collecting(n))
  {
    if n == 0 {
      steps, t := [], s;
    } else {
      hide Continues;
      hide Collect;
      var front, u := CollectingRuns(s, n - 1);
      steps, t := front + [CollectShard], Next(u, CollectShard);
      AndThen(s, front, u, CollectShard, t);
    }
  }

  lemma {:induction false} ClearingRuns(s: State, n: nat) returns (steps: seq<Step>, t: State)
    requires WellFormed(s.plugin) && n <= |s.plugin.locals| && s.phase.Closing? && s.phase.stage == Clearing(0)
    requires s.phase.index < |s.plugin.disconnects|
    ensures Continues(s, steps, t)
    ensures t == s.(plugin := ClearedBelow(s.plugin, n, s.plugin.disconnects[s.phase.index]),
            phase := Closing(s.phase.index, Clearing(n)))
  {
    if n == 0 {
      steps, t := [], s;
    } else {
      hide Continues;
      var front, u := ClearingRuns(s, n - 1);
      steps, t := front + [ClearShard], Next(u, ClearShard);
      AndThen(s, front, u, ClearShard, t);
    }
  }

  lemma TeardownRuns(s: State) returns (steps: seq<Step>, t: State)
    requires WellFormed(s.plugin) && s.phase.Closing? && s.phase.stage.Untouched? &&
             s.phase.index < |s.plugin.disconnects|
    ensures Continues(s, steps, t)
    ensures var e := s.plugin.disconnects[s.phase.index];
            t == s.(plugin := TornDown(s.plugin, e), ok := s.ok && e in s.plugin.endpoints,
                    phase := Closing(s.phase.index + 1, Untouched))
  {
    var erased := Next(s, EraseClient);
    var unregistered := Next(erased, UnregisterEndpoint);
    assert Continues(s, [], s);
    AndThen(s, [], s, EraseClient, erased);
    AndThen(s, [] + [EraseClient], erased, UnregisterEndpoint, unregistered);
    var clearing, u := ClearingRuns(unregistered, |s.plugin.locals|);
    var front := [] + [EraseClient] + [UnregisterEndpoint];
    ContinuesOn(s, front, unregistered, clearing, u);
    steps, t := front + clearing + [NotifyDisconnected], Next(u, NotifyDisconnected);
    AndThen(s, front + clearing, u, NotifyDisconnected, t);
  }

  lemma {:induction false} TeardownsRun(s: State, k: nat) returns (steps: seq<Step>, t: State)
    requires WellFormed(s.plugin) && s.phase == Closing(0, Untouched) && k <= |s.plugin.disconnects|
    ensures Continues(s, steps, t) && t.phase == Closing(k, Untouched) && t.plugin == TornDownBelow(s.plugin, k)
    ensures t.stored == s.stored && t.started == s.started
  {
    hide TornDown;
    hide Continues;
    if k == 0 {
      Nowhere(s);
      steps, t := [], s;
    } else {
      var front, u := TeardownsRun(s, k - 1);
      var more;
      more, t := TeardownRuns(u);
      steps := front + more;
      ContinuesOn(s, front, u, more, t);
    }
  }

  /** The tick method, when nothing interrupts it, is the protocol from one idle state to
      the next; so every interleaved run differs from it only in what comes in between. */
  lemma TickIsRun(s: State) returns (steps: seq<Step>, t: State)
    requires WellFormed(s.plugin) && s.phase.Idle?
    ensures Continues(s, steps, t) && t.phase.Idle? && t.plugin == TickAlone(s.plugin)
    ensures t.stored == s.stored && t.started == s.stored
  {
    var started := Next(s, StartTick);
    assert Continues(s, [], s);
    AndThen(s, [], s, StartTick, started);
    var collecting, collected := CollectingRuns(started, |s.plugin.locals|);
    ContinuesOn(s, [] + [StartTick], started, collecting, collected);
    var front := [] + [StartTick] + collecting;
    var delivered := Next(collected, DeliverInputs);
    AndThen(s, front, collected, DeliverInputs, delivered);
    var closing := Next(delivered, LockDisconnects);
    AndThen(s, front + [DeliverInputs], delivered, LockDisconnects, closing);
    var tearing, torn := TeardownsRun(closing, |closing.plugin.disconnects|);
    var all := front + [DeliverInputs] + [LockDisconnects];
    ContinuesOn(s, all, closing, tearing, torn);
    steps, t := all + tearing + [EndTick], Next(torn, EndTick);
    AndThen(s, all + tearing, torn, EndTick, t);
  }
}
