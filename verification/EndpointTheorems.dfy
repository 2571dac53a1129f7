/** What the invariant of the endpoint protocol means for whole runs. */
module EndpointTheorems {
  import opened EndpointState
  import opened EndpointProtocol
  import opened EndpointInvariant

  // ---------------------------------------------------------------- the registry

  /** Outside the teardown of an endpoint, in every interleaving: the registered endpoints
      are the disjoint union of clients and new endpoints, every shard has a list exactly
      for the endpoints it knows, and knows registered endpoints only. No assertion of the
      plugin has failed. */
  lemma RegistryOutsideTeardown(shards: nat, states: seq<State>, steps: seq<Step>, n: nat)
    requires IsDisciplinedRun(shards, states, steps) && n <= |steps|
    ensures states[n].ok
    ensures var s := states[n]; var p := s.plugin;
            && WellFormed(p)
            && (!s.phase.Closing? || s.phase.stage.Untouched? ==>
                 && p.endpoints == p.data.Keys + p.newcomers && p.data.Keys !! p.newcomers
                 && forall i :: 0 <= i < |p.locals| ==> p.locals[i] == p.pending[i].Keys && p.locals[i] <= p.endpoints)
  {
    RunKeeps(shards, states, steps, n);
    var s := states[n];
    if !s.phase.Closing? || s.phase.stage.Untouched? {
      assert forall e :: !IsClosing(s, e);
    }
  }

  // ---------------------------------------------------------------- inputs

  /** The inputs handed to `client_inputs` of one endpoint, in order. */
  function DeliveredTo(events: seq<Event>): seq<Input> {
    if events == [] then []
    else
      var n := |events| - 1;
      DeliveredTo(events[..n]) + if events[n].Inputs? then events[n].inputs else []
  }

  lemma {:induction false} NothingDropped(events: seq<Event>)
    requires NoneDropped(events)
    ensures Gone(events) == DeliveredTo(events)
  {
    if events != [] {
      NothingDropped(events[..|events| - 1]);
    }
  }

  /** Nothing was ever dropped, and nothing asks for it. */
  ghost predicate NoDrops(s: State) {
    && s.plugin.disconnects == []
    && (s.phase.Closing? ==> s.phase == Closing(0, Untouched))
    && forall e :: NoneDropped(At(s.plugin.calls, e))
  }

  predicate NoneDropped(events: seq<Event>) {
    forall k :: 0 <= k < |events| ==> !events[k].Dropped?
  }

  lemma StepNoDrops(s: State, step: Step)
    requires NoDrops(s) && Enabled(s, step) && !step.RequestDisconnect?
    ensures NoDrops(Next(s, step))
  {
    var t := Next(s, step);
    if step.StartTick? || step.DeliverInputs? {
      forall e
        ensures NoneDropped(At(t.plugin.calls, e))
      {
        assert NoneDropped(At(s.plugin.calls, e));
        if step.StartTick? { CreateAt(s.plugin, e); } else { DeliverAt(s.plugin, e); }
      }
    }
  }

  /** Without disconnect requests nothing is ever dropped. */
  lemma {:induction false} NoTeardown(shards: nat, states: seq<State>, steps: seq<Step>, n: nat)
    requires IsRun(shards, states, steps) && n <= |steps|
    requires forall j :: 0 <= j < n ==> !steps[j].RequestDisconnect?
    ensures NoDrops(states[n])
  {
    hide Next;
    hide NoDrops;
    if n > 0 {
      NoTeardown(shards, states, steps, n - 1);
      StepNoDrops(states[n - 1], steps[n - 1]);
    } else {
      InitialNoDrops(shards);
    }
  }

  lemma InitialNoDrops(shards: nat)
    ensures NoDrops(Initial(shards))
  {
  }

  /** Input conservation and order: without disconnects, for every network id and endpoint,
      what was delivered, then what the client holds, then what the shard holds is exactly
      what packet tasks stored there, in order. */
  lemma InputsConserved(shards: nat, states: seq<State>, steps: seq<Step>, n: nat, i: nat, e: nat)
    requires IsRun(shards, states, steps) && n <= |steps|
    requires forall j :: 0 <= j < |steps| ==> !steps[j].RequestDisconnect?
    requires i < |states[n].plugin.pending|
    ensures var p := states[n].plugin;
            From(DeliveredTo(At(p.calls, e)) + At(p.data, e), i) + At(p.pending[i], e) ==
                From(At(states[n].stored, e), i)
  {
    RunKeeps(shards, states, steps, n);
    NoTeardown(shards, states, steps, n);
    NothingDropped(At(states[n].plugin.calls, e));
    assert Balanced(states[n], i, e);
  }

  /** With disconnects the account still closes: every stored input was delivered, dropped by
      a teardown of its endpoint, or is still held, each once and in order. */
  lemma InputsAccountedFor(shards: nat, states: seq<State>, steps: seq<Step>, n: nat, i: nat, e: nat)
    requires IsDisciplinedRun(shards, states, steps) && n <= |steps| && i < |states[n].plugin.pending|
    ensures var p := states[n].plugin;
            From(Gone(At(p.calls, e)) + At(p.data, e), i) + At(p.pending[i], e) == From(At(states[n].stored, e), i)
  {
    RunKeeps(shards, states, steps, n);
    assert Balanced(states[n], i, e);
  }

  // ---------------------------------------------------------------- sessions

  /** The connection callbacks of one endpoint, in order. */
  function Connections(events: seq<Event>): seq<Event> {
    if events == [] then []
    else
      var n := |events| - 1;
      Connections(events[..n]) + if events[n].NewClient? || events[n].Disconnected? then [events[n]] else []
  }

  lemma {:induction false} SessionsAlternate(events: seq<Event>)
    requires SessionOf(events) != Broken
    ensures forall k :: 0 <= k < |Connections(events)| ==>
              Connections(events)[k] == if k % 2 == 0 then NewClient else Disconnected
    ensures SessionOf(events) == Closed <==> |Connections(events)| % 2 == 0
  {
    if events != [] {
      SessionsAlternate(events[..|events| - 1]);
    }
  }

  /** Session alternation: for every endpoint the connection callbacks strictly alternate,
      starting with `new_client`, whatever shards see its packets and even if it reconnects
      while it is being torn down; and inputs come only while it is connected. */
  lemma CallbacksAlternate(shards: nat, states: seq<State>, steps: seq<Step>, n: nat, e: nat)
    requires IsDisciplinedRun(shards, states, steps) && n <= |steps|
    ensures var events := At(states[n].plugin.calls, e);
            forall k :: 0 <= k < |Connections(events)| ==>
              Connections(events)[k] == if k % 2 == 0 then NewClient else Disconnected
    ensures var events := At(states[n].plugin.calls, e);
            forall k :: 0 <= k < |events| && events[k].Inputs? ==> SessionOf(events[..k]) == Open
  {
    RunKeeps(shards, states, steps, n);
    var events := At(states[n].plugin.calls, e);
    SessionsAlternate(events);
    forall k | 0 <= k < |events| && events[k].Inputs?
      ensures SessionOf(events[..k]) == Open
    {
      NeverBroken(events, k + 1);
      assert events[..k + 1][..k] == events[..k];
    }
  }

  lemma {:induction false} NeverBroken(events: seq<Event>, k: nat)
    requires SessionOf(events) != Broken && k <= |events|
    ensures SessionOf(events[..k]) != Broken
    decreases |events|
  {
    if k == |events| {
      assert events[..k] == events;
    } else {
      NeverBroken(events[..|events| - 1], k);
      assert events[..|events| - 1][..k] == events[..k];
    }
  }

  // ---------------------------------------------------------------- delivery

  /** Between the start of a tick and its delivery nothing is dropped, and `started` keeps
      what was stored when the tick started. */
  lemma {:induction false} WhileCollecting(shards: nat, states: seq<State>, steps: seq<Step>, a: nat, b: nat)
    requires IsRun(shards, states, steps) && a < b <= |steps| && steps[a] == StartTick
    requires forall j :: a < j < b ==> steps[j] != StartTick && steps[j] != DeliverInputs
    ensures states[b].phase.Collecting? && states[b].plugin.calls == states[a + 1].plugin.calls
    ensures states[b].started == states[a].stored
  {
    if b > a + 1 {
      WhileCollecting(shards, states, steps, a, b - 1);
    }
  }

  lemma CallsCreated(s: State, e: nat)
    requires Enabled(s, StartTick)
    ensures var events := At(Next(s, StartTick).plugin.calls, e);
            events == At(s.plugin.calls, e) || events == At(s.plugin.calls, e) + [NewClient]
  {
    CreateAt(s.plugin, e);
  }

  lemma CallsDelivered(s: State, e: nat)
    requires Enabled(s, DeliverInputs)
    ensures var events := At(Next(s, DeliverInputs).plugin.calls, e);
            events == At(s.plugin.calls, e) || events == At(s.plugin.calls, e) + [Inputs(At(s.plugin.data, e))]
  {
    DeliverAt(s.plugin, e);
  }

  /** Nothing is dropped from the start of a tick to its delivery. */
  lemma TickDropsNothing(shards: nat, states: seq<State>, steps: seq<Step>, a: nat, b: nat, e: nat)
    requires IsRun(shards, states, steps) && a < b < |steps|
    requires steps[a] == StartTick && steps[b] == DeliverInputs
    requires forall j :: a < j < b ==> steps[j] != StartTick && steps[j] != DeliverInputs
    ensures At(states[a].plugin.calls, e) <= At(states[b + 1].plugin.calls, e)
    ensures NoneDropped(At(states[b + 1].plugin.calls, e)[|At(states[a].plugin.calls, e)|..])
  {
    WhileCollecting(shards, states, steps, a, b);
    assert Enabled(states[a], steps[a]) && states[a + 1] == Next(states[a], steps[a]);
    assert Enabled(states[b], steps[b]) && states[b + 1] == Next(states[b], steps[b]);
    hide IsRun;
    CallsCreated(states[a], e);
    CallsDelivered(states[b], e);
  }

  lemma {:induction false} HistoryGrows(shards: nat, states: seq<State>, steps: seq<Step>, k: nat, n: nat, e: nat)
    requires IsRun(shards, states, steps) && k <= n <= |steps|
    ensures At(states[k].stored, e) <= At(states[n].stored, e)
    ensures At(states[k].plugin.calls, e) <= At(states[n].plugin.calls, e)
    ensures |states[k].plugin.locals| == |states[n].plugin.locals|
  {
    hide Next;
    if k < n {
      HistoryGrows(shards, states, steps, k, n - 1, e);
      StepGrows(states[n - 1], steps[n - 1]);
      StepShards(states[n - 1], steps[n - 1]);
    }
  }

  lemma StepShards(s: State, step: Step)
    requires Enabled(s, step)
    ensures |Next(s, step).plugin.locals| == |s.plugin.locals|
  {
  }

  lemma PrefixDrop(front: seq<Input>, a: seq<Input>, b: seq<Input>)
    requires front + a <= front + b
    ensures a <= b
  {
    forall k | 0 <= k < |a|
      ensures k < |b| && a[k] == b[k]
    {
      assert (front + a)[|front| + k] == (front + b)[|front| + k];
    }
  }

  lemma {:induction false} GoneConcat(a: seq<Event>, b: seq<Event>)
    ensures Gone(a + b) == Gone(a) + Gone(b)
  {
    if b == [] {
      assert a + b == a;
    } else {
      var init, last := b[..|b| - 1], b[|b| - 1];
      GoneConcat(a, init);
      GoneSnoc(a, init, b, last);
    }
  }

  lemma GoneSnoc(a: seq<Event>, init: seq<Event>, b: seq<Event>, last: Event)
    requires b == init + [last] && Gone(a + init) == Gone(a) + Gone(init)
    ensures Gone(a + b) == Gone(a) + Gone(b)
  {
    Assoc(a, init, [last]);
    Assoc(Gone(a), Gone(init), Out(last));
    GoneMore(init, last);
    GoneMore(a + init, last);
  }

  lemma Assoc<T>(a: seq<T>, b: seq<T>, c: seq<T>)
    ensures a + b + c == a + (b + c)
  {
  }

  /** What the invariant says of one endpoint and network id after a delivery. */
  lemma AfterDelivery(s: State, i: nat, e: nat)
    requires Inv(s) && i < |s.plugin.locals| && !s.phase.Collecting?
    ensures From(At(s.started, e), i) <= From(Gone(At(s.plugin.calls, e)), i)
  {
    hide Registry;
    hide Conserved;
    hide Sessions;
  }

  lemma AccountOf(s: State, i: nat, e: nat)
    requires Inv(s) && i < |s.plugin.pending|
    ensures WellFormed(s.plugin)
    ensures From(Gone(At(s.plugin.calls, e)), i) + (From(At(s.plugin.data, e), i) + At(s.plugin.pending[i], e)) ==
            From(At(s.stored, e), i)
  {
    hide Registry;
    hide OnTime;
    hide Sessions;
    assert Balanced(s, i, e);
    FromConcat(Gone(At(s.plugin.calls, e)), At(s.plugin.data, e), i);
  }

  /** By the delivery of the first tick to start after step `k`, everything stored by step
      `k` has left the plugin: handed over, or dropped by a teardown of its endpoint. */
  lemma GoneByNextTick(shards: nat, states: seq<State>, steps: seq<Step>, k: nat, a: nat, b: nat, i: nat, e: nat)
    requires IsDisciplinedRun(shards, states, steps) && k <= a < b < |steps|
    requires steps[a] == StartTick && steps[b] == DeliverInputs
    requires forall j :: a < j < b ==> steps[j] != StartTick && steps[j] != DeliverInputs
    requires i < |states[k].plugin.locals|
    ensures From(At(states[k].stored, e), i) <= From(Gone(At(states[b + 1].plugin.calls, e)), i)
  {
    WhileCollecting(shards, states, steps, a, b);
    assert Enabled(states[b], steps[b]) && states[b + 1] == Next(states[b], steps[b]);
    assert states[b + 1].started == states[a].stored && !states[b + 1].phase.Collecting?;
    hide Inv;
    hide Next;
    RunKeeps(shards, states, steps, b + 1);
    HistoryGrows(shards, states, steps, k, a, e);
    HistoryGrows(shards, states, steps, k, b + 1, e);
    FromPrefix(At(states[k].stored, e), At(states[a].stored, e), i);
    AfterDelivery(states[b + 1], i, e);
  }

  /** Two-tick delivery: whatever a client or a shard holds at step `k` is passed to
      `client_inputs`, in order, by the delivery of the first tick that starts at or after
      `k`, unless its endpoint is torn down before. So what is stored during one tick is
      delivered at the latest by the next, also for an endpoint that became known between
      the creation of clients and the collection of its shard. */
  lemma DeliveredByNextTick(shards: nat, states: seq<State>, steps: seq<Step>, k: nat, a: nat, b: nat, i: nat, e: nat)
    returns (since: seq<Event>)
    requires IsDisciplinedRun(shards, states, steps) && k <= a < b < |steps|
    requires steps[a] == StartTick && steps[b] == DeliverInputs
    requires forall j :: a < j < b ==> steps[j] != StartTick && steps[j] != DeliverInputs
    requires i < |states[k].plugin.locals| == |states[k].plugin.pending|
    ensures At(states[b + 1].plugin.calls, e) == At(states[k].plugin.calls, e) + since
    ensures NoneDropped(since) ==>
              From(At(states[k].plugin.data, e), i) + At(states[k].plugin.pending[i], e) <= From(DeliveredTo(since), i)
  {
    hide Inv;
    hide Gone;
    hide From;
    hide DeliveredTo;
    hide NoneDropped;
    hide Next;
    hide Enabled;
    RunKeeps(shards, states, steps, k);
    AccountOf(states[k], i, e);
    GoneByNextTick(shards, states, steps, k, a, b, i, e);
    HistoryGrows(shards, states, steps, k, b + 1, e);
    var before, after := At(states[k].plugin.calls, e), At(states[b + 1].plugin.calls, e);
    since := after[|before|..];
    assert after == before + since;
    hide IsDisciplinedRun;
    Since(before, since, From(At(states[k].plugin.data, e), i) + At(states[k].plugin.pending[i], e), i);
  }

  /** What was held comes out in the events since, in front of everything else. */
  lemma Since(before: seq<Event>, since: seq<Event>, held: seq<Input>, i: nat)
    requires From(Gone(before), i) + held <= From(Gone(before + since), i)
    ensures NoneDropped(since) ==> held <= From(DeliveredTo(since), i)
  {
    GoneConcat(before, since);
    FromConcat(Gone(before), Gone(since), i);
    if NoneDropped(since) {
      NothingDropped(since);
      PrefixDrop(From(Gone(before), i), held, From(Gone(since), i));
    }
  }

  /** What a shard holds when a tick starts is delivered in that tick, without condition. */
  lemma TickDelivers(shards: nat, states: seq<State>, steps: seq<Step>, a: nat, b: nat, i: nat, e: nat)
    returns (during: seq<Event>)
    requires IsDisciplinedRun(shards, states, steps) && a < b < |steps|
    requires steps[a] == StartTick && steps[b] == DeliverInputs
    requires forall j :: a < j < b ==> steps[j] != StartTick && steps[j] != DeliverInputs
    requires i < |states[a].plugin.locals| == |states[a].plugin.pending|
    ensures At(states[b + 1].plugin.calls, e) == At(states[a].plugin.calls, e) + during
    ensures From(At(states[a].plugin.data, e), i) + At(states[a].plugin.pending[i], e) <= From(DeliveredTo(during), i)
  {
    during := DeliveredByNextTick(shards, states, steps, a, a, b, i, e);
    TickDropsNothing(shards, states, steps, a, b, e);
    assert during == At(states[b + 1].plugin.calls, e)[|At(states[a].plugin.calls, e)|..];
  }
}
