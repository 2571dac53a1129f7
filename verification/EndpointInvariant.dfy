/** Every step of a disciplined run keeps the invariant of `EndpointProtocol`. */
module EndpointInvariant {
  import opened EndpointState
  import opened EndpointProtocol

  // ---------------------------------------------------------------- projections

  lemma {:induction false} FromConcat(a: seq<Input>, b: seq<Input>, i: nat)
    ensures From(a + b, i) == From(a, i) + From(b, i)
  {
    if b == [] {
      assert a + b == a;
    } else {
      var n := |b| - 1;
      FromConcat(a, b[..n], i);
      assert (a + b)[..|a + b| - 1] == a + b[..n];
    }
  }

  lemma {:induction false} FromOwn(inputs: seq<Input>, i: nat)
    requires AllFrom(inputs, i)
    ensures From(inputs, i) == inputs
  {
    if inputs != [] {
      FromOwn(inputs[..|inputs| - 1], i);
    }
  }

  lemma {:induction false} FromOther(inputs: seq<Input>, j: nat, i: nat)
    requires AllFrom(inputs, j) && i != j
    ensures From(inputs, i) == []
  {
    if inputs != [] {
      FromOther(inputs[..|inputs| - 1], j, i);
    }
  }

  lemma GoneMore(events: seq<Event>, event: Event)
    ensures Gone(events + [event]) == Gone(events) + Out(event)
    ensures SessionOf(events + [event]) == After(SessionOf(events), event)
  {
    assert (events + [event])[..|events|] == events;
  }

  // ---------------------------------------------------------------- the registry

  lemma PacketRegistry(s: State, i: nat, e: nat, buffer: nat)
    requires Registry(s) && Enabled(s, PacketTask(i, e, buffer))
    ensures Registry(Next(s, PacketTask(i, e, buffer)))
    ensures Next(s, PacketTask(i, e, buffer)).ok == s.ok
  {
  }

  lemma TickRegistry(s: State, step: Step)
    requires Registry(s) && Requests(s) && Enabled(s, step)
    requires step.StartTick? || step.CollectShard? || step.DeliverInputs? || step.LockDisconnects?
    ensures Registry(Next(s, step)) && Next(s, step).ok == s.ok
  {
  }

  lemma EraseRegistry(s: State)
    requires Registry(s) && Requests(s) && Enabled(s, EraseClient)
    ensures Registry(Next(s, EraseClient)) && Next(s, EraseClient).ok == s.ok
  {
  }

  /** The endpoint a teardown unregisters is registered, so the assertion there holds. */
  lemma UnregisterRegistry(s: State)
    requires Registry(s) && Requests(s) && Enabled(s, UnregisterEndpoint)
    ensures Registry(Next(s, UnregisterEndpoint)) && Next(s, UnregisterEndpoint).ok == s.ok
  {
    assert IsClosing(s, s.plugin.disconnects[s.phase.index]);
  }

  lemma ClearRegistry(s: State)
    requires Registry(s) && Requests(s) && Enabled(s, ClearShard)
    ensures Registry(Next(s, ClearShard)) && Next(s, ClearShard).ok == s.ok
  {
  }

  lemma EndRegistry(s: State, step: Step)
    requires Registry(s) && Requests(s) && Enabled(s, step)
    requires step.NotifyDisconnected? || step.EndTick? || step.RequestDisconnect?
    ensures Registry(Next(s, step)) && Next(s, step).ok == s.ok
  {
  }

  lemma StepRegistry(s: State, step: Step)
    requires Registry(s) && Requests(s) && Enabled(s, step)
    ensures Registry(Next(s, step)) && Next(s, step).ok == s.ok
  {
    hide Registry;
    hide Requests;
    match step
    case PacketTask(i, e, buffer) => PacketRegistry(s, i, e, buffer);
    case EraseClient => EraseRegistry(s);
    case UnregisterEndpoint => UnregisterRegistry(s);
    case ClearShard => ClearRegistry(s);
    case NotifyDisconnected => EndRegistry(s, step);
    case EndTick => EndRegistry(s, step);
    case RequestDisconnect(_) => EndRegistry(s, step);
    case _ => TickRegistry(s, step);
  }

  lemma StepRequests(s: State, step: Step)
    requires Registry(s) && Requests(s) && Enabled(s, step) && Disciplined(s, step)
    ensures Requests(Next(s, step))
  {
  }

  // ---------------------------------------------------------------- conservation of inputs

  lemma BalanceStores(events: seq<Event>, client: seq<Input>, shard: seq<Input>, stored: seq<Input>,
      i: nat, input: Input)
    requires Balance(events, client, shard, stored, i)
    ensures Balance(events, client, if input.source == i then shard + [input] else shard, stored + [input], i)
  {
    FromConcat(stored, [input], i);
    assert From([input], i) == if input.source == i then [input] else [];
  }

  lemma BalanceCalls(events: seq<Event>, client: seq<Input>, shard: seq<Input>, stored: seq<Input>,
      i: nat, event: Event)
    requires Balance(events, client, shard, stored, i) && (event.NewClient? || event.Disconnected?)
    ensures Balance(events + [event], client, shard, stored, i)
  {
    GoneMore(events, event);
    assert Gone(events) + [] == Gone(events);
  }

  /** What the client holds leaves the plugin. */
  lemma BalanceLeaves(events: seq<Event>, client: seq<Input>, shard: seq<Input>, stored: seq<Input>,
      i: nat, event: Event)
    requires Balance(events, client, shard, stored, i)
    requires (event.Inputs? || event.Dropped?) && event.inputs == client
    ensures Balance(events + [event], [], shard, stored, i)
  {
    GoneMore(events, event);
    assert Gone(events + [event]) + [] == Gone(events) + client;
  }

  /** What shard `j` holds moves to the client. */
  lemma BalanceMoves(events: seq<Event>, client: seq<Input>, shard: seq<Input>, stored: seq<Input>, i: nat,
      held: seq<Input>, j: nat)
    requires Balance(events, client, shard, stored, i) && AllFrom(held, j) && (i == j ==> held == shard)
    ensures Balance(events, client + held, if i == j then [] else shard, stored, i)
  {
    FromConcat(Gone(events) + client, held, i);
    assert Gone(events) + (client + held) == Gone(events) + client + held;
    if i == j {
      FromOwn(held, i);
    } else {
      FromOther(held, j, i);
      assert From(Gone(events) + client, i) + [] == From(Gone(events) + client, i);
    }
  }

  lemma PacketAt(p: Plugin, i: nat, e: nat, buffer: nat, j: nat, d: nat)
    requires WellFormed(p) && i < |p.locals| && j < |p.locals| && (e in p.locals[i] <==> e in p.pending[i])
    ensures var q := Packet(p, i, e, buffer);
            && |q.pending| == |p.pending| == |q.locals| && q.calls == p.calls && q.data == p.data
            && At(q.pending[j], d) == if j == i && d == e then At(p.pending[i], e) + [Input(i, buffer)]
                else At(p.pending[j], d)
  {
  }

  lemma PacketConserves(s: State, i: nat, e: nat, buffer: nat)
    requires Registry(s) && Conserved(s) && Enabled(s, PacketTask(i, e, buffer))
    ensures Conserved(Next(s, PacketTask(i, e, buffer)))
  {
    var p := s.plugin;
    var t := Next(s, PacketTask(i, e, buffer));
    hide Packet;
    forall j, d | 0 <= j < |p.pending|
      ensures |t.plugin.pending| == |p.pending| == |t.plugin.locals| && Balanced(t, j, d)
      ensures d in t.plugin.pending[j] ==> AllFrom(t.plugin.pending[j][d], j)
    {
      assert Balanced(s, j, d);
      PacketAt(p, i, e, buffer, j, d);
      assert d in t.plugin.pending[j] ==> t.plugin.pending[j][d] == At(t.plugin.pending[j], d);
      if d == e {
        BalanceStores(At(p.calls, e), At(p.data, e), At(p.pending[j], e), At(s.stored, e), j, Input(i, buffer));
      }
    }
    PacketAt(p, i, e, buffer, i, e);
  }

  lemma CreateAt(p: Plugin, e: nat)
    ensures var q := CreateClients(p);
            && At(q.data, e) == At(p.data, e)
            && At(q.calls, e) == if e in p.newcomers then At(p.calls, e) + [NewClient] else At(p.calls, e)
  {
  }

  lemma StartConserves(s: State)
    requires Conserved(s) && Enabled(s, StartTick)
    ensures Conserved(Next(s, StartTick))
  {
    var p := s.plugin;
    var t := Next(s, StartTick);
    forall i, e | 0 <= i < |t.plugin.pending|
      ensures Balanced(t, i, e)
    {
      assert Balanced(s, i, e);
      CreateAt(p, e);
      BalanceCalls(At(p.calls, e), At(p.data, e), At(p.pending[i], e), At(s.stored, e), i, NewClient);
    }
  }

  lemma CollectAt(p: Plugin, j: nat, i: nat, e: nat)
    requires WellFormed(p) && j < |p.pending| && i < |p.pending|
    ensures var q := Collect(p, j);
            && |q.pending| == |p.pending|
            && At(q.data, e) == (if e in p.data then At(p.data, e) + At(p.pending[j], e) else At(p.data, e))
            && At(q.pending[i], e) == if i == j && e in p.data then [] else At(p.pending[i], e)
  {
  }

  lemma CollectConserves(s: State)
    requires Conserved(s) && Enabled(s, CollectShard)
    ensures Conserved(Next(s, CollectShard))
  {
    var p := s.plugin;
    var t := Next(s, CollectShard);
    var j := s.phase.shard;
    forall i, e | 0 <= i < |t.plugin.pending|
      ensures Balanced(t, i, e)
    {
      assert Balanced(s, i, e);
      CollectAt(p, j, i, e);
      if e in p.data {
        assert AllFrom(At(p.pending[j], e), j);
        BalanceMoves(At(p.calls, e), At(p.data, e), At(p.pending[i], e), At(s.stored, e), i, At(p.pending[j], e), j);
      }
    }
  }

  lemma DeliverAt(p: Plugin, e: nat)
    ensures var q := Deliver(p);
            && At(q.data, e) == []
            && At(q.calls, e) == if e in p.data then At(p.calls, e) + [Inputs(p.data[e])] else At(p.calls, e)
  {
  }

  lemma DeliverConserves(s: State)
    requires Conserved(s) && Enabled(s, DeliverInputs)
    ensures Conserved(Next(s, DeliverInputs))
  {
    var p := s.plugin;
    var t := Next(s, DeliverInputs);
    forall i, e | 0 <= i < |t.plugin.pending|
      ensures Balanced(t, i, e)
    {
      assert Balanced(s, i, e);
      DeliverAt(p, e);
      if e in p.data {
        BalanceLeaves(At(p.calls, e), At(p.data, e), At(p.pending[i], e), At(s.stored, e), i, Inputs(p.data[e]));
      }
    }
  }

  lemma EraseConserves(s: State)
    requires Conserved(s) && Enabled(s, EraseClient)
    ensures Conserved(Next(s, EraseClient))
  {
    var p := s.plugin;
    var t := Next(s, EraseClient);
    var d := p.disconnects[s.phase.index];
    forall i, e | 0 <= i < |t.plugin.pending|
      ensures Balanced(t, i, e)
    {
      assert Balanced(s, i, e);
      if e == d {
        BalanceLeaves(At(p.calls, e), At(p.data, e), At(p.pending[i], e), At(s.stored, e), i, Dropped(At(p.data, e)));
      }
    }
  }

  lemma ClearConserves(s: State)
    requires Registry(s) && Conserved(s) && Enabled(s, ClearShard)
    ensures Conserved(Next(s, ClearShard))
  {
    var p := s.plugin;
    var t := Next(s, ClearShard);
    var d, j := p.disconnects[s.phase.index], s.phase.stage.shard;
    assert IsClosing(s, d);
    forall i, e | 0 <= i < |t.plugin.pending|
      ensures Balanced(t, i, e)
    {
      assert Balanced(s, i, e);
      if e == d && d in p.locals[j] {
        var held := At(p.pending[j], d);
        BalanceMoves(At(p.calls, d), [], At(p.pending[i], d), At(s.stored, d), i, held, j);
        assert [] + held == held;
        BalanceLeaves(At(p.calls, d), held, At(t.plugin.pending[i], d), At(s.stored, d), i, Dropped(held));
      }
    }
  }

  lemma NotifyConserves(s: State)
    requires Conserved(s) && Enabled(s, NotifyDisconnected)
    ensures Conserved(Next(s, NotifyDisconnected))
  {
    var p := s.plugin;
    var t := Next(s, NotifyDisconnected);
    forall i, e | 0 <= i < |t.plugin.pending|
      ensures Balanced(t, i, e)
    {
      assert Balanced(s, i, e);
      if e == p.disconnects[s.phase.index] {
        BalanceCalls(At(p.calls, e), At(p.data, e), At(p.pending[i], e), At(s.stored, e), i, Disconnected);
      }
    }
  }

  /** A step that moves no input. */
  lemma IdleConserves(s: State, step: Step)
    requires Conserved(s) && Enabled(s, step)
    requires step.RequestDisconnect? || step.LockDisconnects? || step.UnregisterEndpoint? || step.EndTick?
    ensures Conserved(Next(s, step))
  {
    var t := Next(s, step);
    forall i, e | 0 <= i < |t.plugin.pending|
      ensures Balanced(t, i, e)
    {
      assert Balanced(s, i, e);
    }
  }

  lemma StepConserves(s: State, step: Step)
    requires Registry(s) && Conserved(s) && Enabled(s, step)
    ensures Conserved(Next(s, step))
  {
    hide Registry;
    hide Conserved;
    match step
    case PacketTask(i, e, buffer) => PacketConserves(s, i, e, buffer);
    case StartTick => StartConserves(s);
    case CollectShard => CollectConserves(s);
    case DeliverInputs => DeliverConserves(s);
    case EraseClient => EraseConserves(s);
    case ClearShard => ClearConserves(s);
    case NotifyDisconnected => NotifyConserves(s);
    case _ => IdleConserves(s, step);
  }

  // ---------------------------------------------------------------- sessions

  lemma TickSessions(s: State, step: Step)
    requires Registry(s) && Sessions(s) && Enabled(s, step) && (step.StartTick? || step.DeliverInputs?)
    ensures Sessions(Next(s, step))
  {
    var t := Next(s, step);
    forall e
      ensures SessionOf(At(t.plugin.calls, e)) == if e in t.plugin.data || IsClosing(t, e) then Open else Closed
    {
      if step.StartTick? {
        CreateAt(s.plugin, e);
        GoneMore(At(s.plugin.calls, e), NewClient);
      } else {
        DeliverAt(s.plugin, e);
        GoneMore(At(s.plugin.calls, e), Inputs(At(s.plugin.data, e)));
      }
    }
  }

  /** Only the history of `d` grows, by `event`. */
  lemma SessionGrows(s: State, t: State, d: nat, event: Event)
    requires Sessions(s) && t.plugin.calls == Record(s.plugin.calls, d, event)
    requires After(if d in s.plugin.data || IsClosing(s, d) then Open else Closed, event) ==
             if d in t.plugin.data || IsClosing(t, d) then Open else Closed
    requires forall e :: e != d ==> (e in t.plugin.data || IsClosing(t, e) <==> e in s.plugin.data || IsClosing(s, e))
    ensures Sessions(t)
  {
    GoneMore(At(s.plugin.calls, d), event);
    forall e
      ensures SessionOf(At(t.plugin.calls, e)) == if e in t.plugin.data || IsClosing(t, e) then Open else Closed
    {
      assert e != d ==> At(t.plugin.calls, e) == At(s.plugin.calls, e);
    }
  }

  lemma EraseSessions(s: State)
    requires Requests(s) && Sessions(s) && Enabled(s, EraseClient)
    ensures Sessions(Next(s, EraseClient))
  {
    var d := s.plugin.disconnects[s.phase.index];
    hide Sessions;
    SessionGrows(s, Next(s, EraseClient), d, Dropped(At(s.plugin.data, d)));
  }

  lemma NotifySessions(s: State)
    requires Registry(s) && Sessions(s) && Enabled(s, NotifyDisconnected)
    ensures Sessions(Next(s, NotifyDisconnected))
  {
    var d := s.plugin.disconnects[s.phase.index];
    assert IsClosing(s, d);
    hide Sessions;
    SessionGrows(s, Next(s, NotifyDisconnected), d, Disconnected);
  }

  lemma ClearSessions(s: State)
    requires Sessions(s) && Enabled(s, ClearShard)
    ensures Sessions(Next(s, ClearShard))
  {
    var t := Next(s, ClearShard);
    var d, j := s.plugin.disconnects[s.phase.index], s.phase.stage.shard;
    assert forall e :: IsClosing(t, e) <==> IsClosing(s, e);
    if d in s.plugin.locals[j] {
      assert IsClosing(s, d);
      SessionGrows(s, t, d, Dropped(At(s.plugin.pending[j], d)));
    }
  }

  /** A step that adds nothing to any history. */
  lemma QuietSessions(s: State, step: Step)
    requires Registry(s) && Requests(s) && Sessions(s) && Enabled(s, step)
    requires step.PacketTask? || step.RequestDisconnect? || step.CollectShard? || step.LockDisconnects?
             || step.UnregisterEndpoint? || step.EndTick?
    ensures Sessions(Next(s, step))
  {
    var t := Next(s, step);
    forall e
      ensures SessionOf(At(t.plugin.calls, e)) == if e in t.plugin.data || IsClosing(t, e) then Open else Closed
    {
      assert IsClosing(t, e) == IsClosing(s, e);
    }
  }

  lemma StepSessions(s: State, step: Step)
    requires Registry(s) && Requests(s) && Sessions(s) && Enabled(s, step)
    ensures Sessions(Next(s, step))
  {
    hide Registry;
    hide Requests;
    hide Sessions;
    match step
    case StartTick => TickSessions(s, step);
    case DeliverInputs => TickSessions(s, step);
    case EraseClient => EraseSessions(s);
    case ClearShard => ClearSessions(s);
    case NotifyDisconnected => NotifySessions(s);
    case _ => QuietSessions(s, step);
  }

  // ---------------------------------------------------------------- delivery on time

  /** Histories and the record of what was stored only grow. */
  ghost predicate Grows(s: State, t: State) {
    forall e :: At(s.plugin.calls, e) <= At(t.plugin.calls, e) && At(s.stored, e) <= At(t.stored, e)
  }

  lemma StepGrows(s: State, step: Step)
    requires Enabled(s, step)
    ensures Grows(s, Next(s, step))
  {
  }

  lemma {:induction false} GonePrefix(a: seq<Event>, b: seq<Event>)
    requires a <= b
    ensures Gone(a) <= Gone(b)
  {
    if |a| < |b| {
      GonePrefix(a, b[..|b| - 1]);
    } else {
      assert a == b;
    }
  }

  lemma FromPrefix(a: seq<Input>, b: seq<Input>, i: nat)
    requires a <= b
    ensures From(a, i) <= From(b, i)
  {
    FromConcat(a, b[|a|..], i);
    assert b == a + b[|a|..];
  }

  /** The start of a tick: whoever is not a client then has nothing in any shard. */
  lemma StartOnTime(s: State)
    requires Registry(s) && Conserved(s) && Enabled(s, StartTick)
    ensures OnTime(Next(s, StartTick))
  {
    var t := Next(s, StartTick);
    forall i, e | 0 <= i < |t.plugin.locals| && e !in t.plugin.data
      ensures EndpointProtocol.Moved(t, i, e)
    {
      StartConserves(s);
      assert Balanced(t, i, e);
      assert e !in t.plugin.pending[i];
    }
  }

  lemma CollectOnTime(s: State)
    requires Conserved(s) && OnTime(s) && Enabled(s, CollectShard)
    ensures OnTime(Next(s, CollectShard))
  {
    var t := Next(s, CollectShard);
    CollectConserves(s);
    hide Collect;
    CollectAt(s.plugin, s.phase.shard, s.phase.shard, 0);
    forall i, e | 0 <= i < |t.plugin.locals| && (i < t.phase.shard || e !in t.plugin.data)
      ensures EndpointProtocol.Moved(t, i, e)
    {
      CollectedMoved(s, t, i, e);
    }
  }

  lemma CollectedMoved(s: State, t: State, i: nat, e: nat)
    requires OnTime(s) && Enabled(s, CollectShard) && t == Next(s, CollectShard) && Conserved(t)
    requires i < |s.plugin.locals| && (i <= s.phase.shard || e !in s.plugin.data)
    ensures EndpointProtocol.Moved(t, i, e)
  {
    var j := s.phase.shard;
    CollectAt(s.plugin, j, i, e);
    if i == j && e in s.plugin.data {
      assert Balanced(t, i, e) && At(t.plugin.pending[i], e) == [];
    } else {
      assert EndpointProtocol.Moved(s, i, e);
      hide Conserved;
      hide OnTime;
      var gone := Gone(At(s.plugin.calls, e));
      assert gone + At(s.plugin.data, e) <= gone + At(t.plugin.data, e);
      FromPrefix(gone + At(s.plugin.data, e), gone + At(t.plugin.data, e), i);
    }
  }

  lemma DeliverOnTime(s: State)
    requires OnTime(s) && Enabled(s, DeliverInputs)
    ensures OnTime(Next(s, DeliverInputs))
  {
    var t := Next(s, DeliverInputs);
    forall i, e | 0 <= i < |t.plugin.locals|
      ensures From(At(t.started, e), i) <= From(Gone(At(t.plugin.calls, e)), i)
    {
      assert EndpointProtocol.Moved(s, i, e);
      DeliverAt(s.plugin, e);
      if e in s.plugin.data {
        GoneMore(At(s.plugin.calls, e), Inputs(s.plugin.data[e]));
      } else {
        assert Gone(At(s.plugin.calls, e)) + [] == Gone(At(s.plugin.calls, e));
      }
    }
  }

  lemma PacketOnTime(s: State, i: nat, e: nat, buffer: nat)
    requires OnTime(s) && Enabled(s, PacketTask(i, e, buffer))
    ensures OnTime(Next(s, PacketTask(i, e, buffer)))
  {
    var t := Next(s, PacketTask(i, e, buffer));
    forall d, j | 0 <= j < |t.plugin.locals|
      ensures From(At(t.started, d), j) <= From(At(t.stored, d), j)
      ensures EndpointProtocol.Moved(s, j, d) ==> EndpointProtocol.Moved(t, j, d)
    {
      FromPrefix(At(s.stored, d), At(t.stored, d), j);
    }
  }

  /** The remaining steps: outside collection, or touching nothing that matters to it. */
  lemma RestOnTime(s: State, step: Step)
    requires OnTime(s) && Enabled(s, step)
    requires !step.PacketTask? && !step.StartTick? && !step.CollectShard? && !step.DeliverInputs?
    ensures OnTime(Next(s, step))
  {
    var t := Next(s, step);
    StepGrows(s, step);
    forall i, e | 0 <= i < |t.plugin.locals| && !t.phase.Collecting?
      ensures From(At(t.started, e), i) <= From(Gone(At(t.plugin.calls, e)), i)
    {
      GonePrefix(At(s.plugin.calls, e), At(t.plugin.calls, e));
      FromPrefix(Gone(At(s.plugin.calls, e)), Gone(At(t.plugin.calls, e)), i);
    }
    forall i, e | 0 <= i < |t.plugin.locals| && t.phase.Collecting? && (i < t.phase.shard || e !in t.plugin.data)
      ensures EndpointProtocol.Moved(t, i, e)
    {
      assert EndpointProtocol.Moved(s, i, e);
    }
  }

  lemma StepOnTime(s: State, step: Step)
    requires Registry(s) && Conserved(s) && OnTime(s) && Enabled(s, step)
    ensures OnTime(Next(s, step))
  {
    hide Registry;
    hide Conserved;
    hide OnTime;
    match step
    case PacketTask(i, e, buffer) => PacketOnTime(s, i, e, buffer);
    case StartTick => StartOnTime(s);
    case CollectShard => CollectOnTime(s);
    case DeliverInputs => DeliverOnTime(s);
    case _ => RestOnTime(s, step);
  }

  // ---------------------------------------------------------------- every run

  lemma StepKeeps(s: State, step: Step)
    requires Inv(s) && Enabled(s, step) && Disciplined(s, step)
    ensures Inv(Next(s, step))
  {
    hide Registry;
    hide Requests;
    hide Conserved;
    hide Sessions;
    hide OnTime;
    StepRegistry(s, step);
    StepRequests(s, step);
    StepConserves(s, step);
    StepSessions(s, step);
    StepOnTime(s, step);
  }

  lemma InitialHolds(shards: nat)
    ensures Inv(Initial(shards))
  {
  }

  /** In every state of every disciplined run the invariant holds; in particular no
      assertion of the plugin has failed, whatever the interleaving. */
  lemma {:induction false} RunKeeps(shards: nat, states: seq<State>, steps: seq<Step>, i: nat)
    requires IsDisciplinedRun(shards, states, steps) && i <= |steps|
    ensures Inv(states[i])
  {
    if i == 0 {
      InitialHolds(shards);
    } else {
      RunKeeps(shards, states, steps, i - 1);
      StepKeeps(states[i - 1], steps[i - 1]);
    }
  }
}
