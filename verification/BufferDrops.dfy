/** Buffers that a teardown drops are lost: when, and that nothing brings them back. */
module BufferDrops {
  import opened EndpointState
  import opened CoreLoop
  import opened BufferOwnership
  import opened BufferTheorems
  import EndpointProtocol
  import EndpointDrops
  import EndpointWitness

  // ---------------------------------------------------------------- lost for ever

  lemma {:induction false} DroppedStays(shards: nat, states: seq<State>, steps: seq<Step>, k: nat, n: nat, e: nat)
    requires IsRun(shards, states, steps) && k <= n <= |steps|
    ensures ListAt(states[k], DroppedList(e)) <= ListAt(states[n], DroppedList(e))
  {
    hide Next;
    hide Enabled;
    if k < n {
      DroppedStays(shards, states, steps, k, n - 1, e);
      StepKeepsDropped(states[n - 1], steps[n - 1], e);
    }
  }

  lemma StepKeepsDropped(s: State, step: Step, e: nat)
    requires Enabled(s, step)
    ensures ListAt(s, DroppedList(e)) <= ListAt(Next(s, step), DroppedList(e))
  {
  }

  /** A buffer that a teardown has dropped is never seen again: in no later state is it in
      the pool's queue, armed, with a task, in a list of a shard or a client, or with a
      user. So the pool never hands it out again. */
  lemma DroppedForever(shards: nat, states: seq<State>, steps: seq<Step>, k: nat, n: nat, e: nat, b: nat, p: Place)
    requires IsRun(shards, states, steps) && k <= n <= |steps| && b in ListAt(states[k], DroppedList(e))
    requires KindOf(p) == NetworkBuffer && p != DroppedList(e)
    ensures b in ListAt(states[n], DroppedList(e)) && b !in ListAt(states[n], p)
    ensures b !in states[n].loop.buffers.free
  {
    DroppedStays(shards, states, steps, k, n, e);
    RunOwns(shards, states, steps, n);
    assert ListAt(states[n], FreeBuffers) == states[n].loop.buffers.free;
    hide ListAt;
    hide Owned;
    hide IsRun;
    Apart(states[n], DroppedList(e), p, b);
    Apart(states[n], DroppedList(e), FreeBuffers, b);
  }

  // ---------------------------------------------------------------- which buffers

  /** The buffers lost are those of the inputs the plugin dropped, of which
      `EndpointDrops.TeardownDropsExactly` says when that is. */
  ghost predicate LostIsDropped(s: State, e: nat) {
    At(s.dropped, e) == Buffers(EndpointDrops.DroppedOf(At(s.protocol.plugin.calls, e)))
  }

  lemma StepLoses(s: State, step: Step, e: nat)
    requires Paired(s.protocol.plugin) && Enabled(s, step) && LostIsDropped(s, e)
    ensures LostIsDropped(Next(s, step), e)
  {
    match step
    case RunTask(k) => PacketDropsNothing(s.protocol, PacketOf(s.loop, s.loop.tasks[k]), e);
    case PluginStep(inner) =>
      PluginLoses(s, inner, e);
    case _ =>
  }

  lemma PacketDropsNothing(s: EndpointProtocol.State, step: EndpointProtocol.Step, e: nat)
    requires EndpointProtocol.Enabled(s, step) && step.PacketTask?
    ensures EndpointProtocol.Next(s, step).plugin.calls == s.plugin.calls
  {
  }

  lemma PluginLoses(s: State, step: EndpointProtocol.Step, e: nat)
    requires Paired(s.protocol.plugin) && Enabled(s, PluginStep(step)) && LostIsDropped(s, e)
    ensures LostIsDropped(Next(s, PluginStep(step)), e)
  {
    assert EndpointDrops.ListsKnown(s.protocol.plugin);
    EndpointDrops.StepDrops(s.protocol, step, e);
    hide EndpointDrops.DroppedOf;
    BuffersConcat(EndpointDrops.DroppedOf(At(s.protocol.plugin.calls, e)),
        EndpointDrops.DroppedBy(s.protocol, step, e));
    DroppedAfterIs(s, step, e);
    hide EndpointProtocol.Next;
  }

  lemma DroppedAfterIs(s: State, step: EndpointProtocol.Step, e: nat)
    requires EndpointProtocol.Enabled(s.protocol, step)
    ensures At(DroppedAfter(s, step), e) == At(s.dropped, e) + Buffers(EndpointDrops.DroppedBy(s.protocol, step, e))
  {
    assert At(s.dropped, e) + [] == At(s.dropped, e);
  }

  lemma {:induction false} RunLosesDropped(shards: nat, states: seq<State>, steps: seq<Step>, n: nat, e: nat)
    requires IsRun(shards, states, steps) && n <= |steps|
    ensures LostIsDropped(states[n], e)
  {
    hide Next;
    hide Enabled;
    hide LostIsDropped;
    if n == 0 {
      NothingLost(shards, e);
    } else {
      RunLosesDropped(shards, states, steps, n - 1, e);
      RunOwns(shards, states, steps, n - 1);
      StepLoses(states[n - 1], steps[n - 1], e);
    }
  }

  lemma NothingLost(shards: nat, e: nat)
    ensures LostIsDropped(Initial(shards), e)
  {
  }

  // ---------------------------------------------------------------- runs of the plugin alone

  /** The run keeps to the discipline of disconnects. */
  ghost predicate IsDisciplinedRun(shards: nat, states: seq<State>, steps: seq<Step>) {
    && IsRun(shards, states, steps)
    && forall j :: 0 <= j < |steps| && steps[j].PluginStep? ==>
        EndpointProtocol.Disciplined(states[j].protocol, steps[j].step)
  }

  /** What one step is to the plugin: a packet task, a step of its own, or nothing. */
  function StepOfPlugin(s: State, step: Step): seq<EndpointProtocol.Step> {
    match step
    case RunTask(k) => if k < |s.loop.tasks| then [PacketOf(s.loop, s.loop.tasks[k])] else []
    case PluginStep(inner) => [inner]
    case _ => []
  }

  function Projection(states: seq<State>, steps: seq<Step>, n: nat): seq<EndpointProtocol.Step>
    requires n <= |steps| && |states| == |steps| + 1
  {
    if n == 0 then [] else Projection(states, steps, n - 1) + StepOfPlugin(states[n - 1], steps[n - 1])
  }

  /** A step is the step of the plugin it stands for, or leaves the plugin alone. */
  lemma StepProjects(s: State, step: Step)
    requires Enabled(s, step)
    ensures var inner := StepOfPlugin(s, step);
            if inner == [] then Next(s, step).protocol == s.protocol
            else && inner == [inner[0]] && EndpointProtocol.Enabled(s.protocol, inner[0])
                 && Next(s, step).protocol == EndpointProtocol.Next(s.protocol, inner[0])
  {
  }

  /** What the plugin does in a disciplined run is a disciplined run of its protocol. */
  lemma {:induction false} Projects(shards: nat, states: seq<State>, steps: seq<Step>, n: nat)
    returns (plugins: seq<EndpointProtocol.State>)
    requires IsDisciplinedRun(shards, states, steps) && n <= |steps|
    ensures EndpointProtocol.IsDisciplinedRun(shards, plugins, Projection(states, steps, n))
    ensures plugins[|plugins| - 1] == states[n].protocol
  {
    hide Next;
    hide Enabled;
    hide EndpointProtocol.Next;
    hide EndpointProtocol.Enabled;
    hide EndpointProtocol.Disciplined;
    if n == 0 {
      plugins := [EndpointProtocol.Initial(shards)];
    } else {
      var before := Projects(shards, states, steps, n - 1);
      var s, step := states[n - 1], steps[n - 1];
      StepProjects(s, step);
      PacketsDisciplined(s, step);
      var inner := StepOfPlugin(s, step);
      if inner == [] {
        assert Projection(states, steps, n) == Projection(states, steps, n - 1);
        plugins := before;
      } else {
        plugins := before + [states[n].protocol];
        ProtocolGrows(shards, before, Projection(states, steps, n - 1), inner[0], states[n].protocol);
      }
    }
  }

  lemma PacketsDisciplined(s: State, step: Step)
    requires step.PluginStep? ==> EndpointProtocol.Disciplined(s.protocol, step.step)
    ensures StepOfPlugin(s, step) != [] ==> EndpointProtocol.Disciplined(s.protocol, StepOfPlugin(s, step)[0])
  {
  }

  lemma ProtocolGrows(shards: nat, plugins: seq<EndpointProtocol.State>, steps: seq<EndpointProtocol.Step>,
                      step: EndpointProtocol.Step, t: EndpointProtocol.State)
    requires EndpointProtocol.IsDisciplinedRun(shards, plugins, steps)
    requires EndpointProtocol.Enabled(plugins[|steps|], step) && EndpointProtocol.Disciplined(plugins[|steps|], step)
    requires t == EndpointProtocol.Next(plugins[|steps|], step)
    ensures EndpointProtocol.IsDisciplinedRun(shards, plugins + [t], steps + [step])
  {
    var all, more := plugins + [t], steps + [step];
    hide EndpointProtocol.Next;
    hide EndpointProtocol.Enabled;
    hide EndpointProtocol.Disciplined;
    forall i | 0 <= i < |more|
      ensures EndpointProtocol.Enabled(all[i], more[i]) && all[i + 1] == EndpointProtocol.Next(all[i], more[i])
      ensures EndpointProtocol.Disciplined(all[i], more[i])
    {
      if i < |steps| {
        assert all[i] == plugins[i] && all[i + 1] == plugins[i + 1] && more[i] == steps[i];
      }
    }
  }

  /** Which buffers are lost, and when: in a disciplined run, what is lost of the inputs of
      `e` grows only with a step that clears a shard of `e` in a teardown, and then by exactly
      the buffers that packet tasks filed there since the same tick collected the shard. */
  lemma BuffersLostExactly(shards: nat, states: seq<State>, steps: seq<Step>, n: nat, e: nat)
    returns (plugins: seq<EndpointProtocol.State>, i: nat, k: nat)
    requires IsDisciplinedRun(shards, states, steps) && n < |steps|
    ensures var all, m := Projection(states, steps, n + 1), |Projection(states, steps, n)|;
            var before, after := ListAt(states[n], DroppedList(e)), ListAt(states[n + 1], DroppedList(e));
            && EndpointProtocol.IsDisciplinedRun(shards, plugins, all)
            && if steps[n] == PluginStep(EndpointProtocol.ClearShard)
                  && EndpointProtocol.IsClosing(states[n].protocol, e) then
                 && states[n].protocol.phase.stage == EndpointProtocol.Clearing(i)
                 && m < |all| && EndpointDrops.CollectedAt(plugins, all, k, m, i)
                 && after == before + Buffers(EndpointDrops.StoredIn(all, k + 1, m, i, e))
               else after == before
  {
    hide Next;
    hide Enabled;
    hide LostIsDropped;
    hide EndpointProtocol.IsDisciplinedRun;
    hide EndpointProtocol.IsClosing;
    hide EndpointDrops.CollectedAt;
    hide EndpointDrops.StoredIn;
    hide Buffers;
    hide ListAt;
    RunLosesDropped(shards, states, steps, n, e);
    RunLosesDropped(shards, states, steps, n + 1, e);
    plugins := Projects(shards, states, steps, n + 1);
    i, k := 0, 0;
    var all, m := Projection(states, steps, n + 1), |Projection(states, steps, n)|;
    hide IsRun;
    if m < |all| {
      LastTwo(shards, states, steps, n, plugins);
      i, k := LostWithStep(shards, states[n], steps[n], states[n + 1], plugins, all, m, e);
    } else {
      LostWithout(states[n], steps[n], states[n + 1], e);
    }
  }

  lemma LostWithout(s: State, step: Step, t: State, e: nat)
    requires Enabled(s, step) && t == Next(s, step) && StepOfPlugin(s, step) == []
    ensures !step.PluginStep? && ListAt(t, DroppedList(e)) == ListAt(s, DroppedList(e))
  {
  }

  lemma LostWithStep(shards: nat, s: State, step: Step, t: State, plugins: seq<EndpointProtocol.State>,
                     all: seq<EndpointProtocol.Step>, m: nat, e: nat) returns (i: nat, k: nat)
    requires LostIsDropped(s, e) && LostIsDropped(t, e) && EndpointProtocol.IsDisciplinedRun(shards, plugins, all)
    requires |all| == m + 1 && plugins[m] == s.protocol && plugins[m + 1] == t.protocol &&
             StepOfPlugin(s, step) == [all[m]]
    ensures var before, after := ListAt(s, DroppedList(e)), ListAt(t, DroppedList(e));
            if step == PluginStep(EndpointProtocol.ClearShard) && EndpointProtocol.IsClosing(s.protocol, e) then
              && s.protocol.phase.stage == EndpointProtocol.Clearing(i) &&
                  EndpointDrops.CollectedAt(plugins, all, k, m, i)
              && after == before + Buffers(EndpointDrops.StoredIn(all, k + 1, m, i, e))
            else after == before
  {
    i, k := EndpointDrops.TeardownDropsExactly(shards, plugins, all, m, e);
    hide EndpointDrops.DroppedOf;
    hide EndpointProtocol.IsDisciplinedRun;
    hide EndpointProtocol.IsClosing;
    assert all[m] == EndpointProtocol.ClearShard <==> step == PluginStep(EndpointProtocol.ClearShard);
    if step == PluginStep(EndpointProtocol.ClearShard) && EndpointProtocol.IsClosing(s.protocol, e) {
      BuffersConcat(EndpointDrops.DroppedOf(At(s.protocol.plugin.calls, e)),
          EndpointDrops.StoredIn(all, k + 1, m, i, e));
    }
  }

  /** The last step of a projection goes from the plugin's state before to that after. */
  lemma LastTwo(shards: nat, states: seq<State>, steps: seq<Step>, n: nat, plugins: seq<EndpointProtocol.State>)
    requires IsDisciplinedRun(shards, states, steps) && n < |steps|
    requires EndpointProtocol.IsDisciplinedRun(shards, plugins, Projection(states, steps, n + 1))
    requires |Projection(states, steps, n)| < |Projection(states, steps, n + 1)|
    ensures var all, m := Projection(states, steps, n + 1), |Projection(states, steps, n)|;
            && |all| == m + 1 && StepOfPlugin(states[n], steps[n]) == [all[m]]
            && plugins[m] == states[n].protocol && plugins[m + 1] == states[n + 1].protocol
  {
    var before := Projects(shards, states, steps, n);
    StepProjects(states[n], steps[n]);
    var front, all := Projection(states, steps, n), Projection(states, steps, n + 1);
    SameRun(shards, before, front, plugins, all, |front|);
    hide Next;
    hide Enabled;
    hide EndpointProtocol.Next;
    hide EndpointProtocol.Enabled;
  }

  /** Runs that take the same steps go through the same states. */
  lemma {:induction false} SameRun(shards: nat, plugins: seq<EndpointProtocol.State>, steps: seq<EndpointProtocol.Step>,
                                   others: seq<EndpointProtocol.State>, more: seq<EndpointProtocol.Step>, k: nat)
    requires EndpointProtocol.IsRun(shards, plugins, steps) && EndpointProtocol.IsRun(shards, others, more)
    requires steps <= more && k <= |steps|
    ensures plugins[k] == others[k]
  {
    hide EndpointProtocol.Next;
    hide EndpointProtocol.Enabled;
    if k > 0 {
      SameRun(shards, plugins, steps, others, more, k - 1);
      assert steps[k - 1] == more[k - 1];
    }
  }

  // ---------------------------------------------------------------- a run that loses a buffer

  lemma Grow(shards: nat, states: seq<State>, steps: seq<Step>, step: Step)
      returns (longer: seq<State>, more: seq<Step>)
    requires IsDisciplinedRun(shards, states, steps) && Enabled(states[|steps|], step)
    requires step.PluginStep? ==> EndpointProtocol.Disciplined(states[|steps|].protocol, step.step)
    ensures IsDisciplinedRun(shards, longer, more) && |more| == |steps| + 1 &&
            longer[|more|] == Next(states[|steps|], step)
  {
    longer, more := states + [Next(states[|steps|], step)], steps + [step];
    hide Next;
    hide Enabled;
    forall i | 0 <= i < |more|
      ensures Enabled(longer[i], more[i]) && longer[i + 1] == Next(longer[i], more[i])
      ensures more[i].PluginStep? ==> EndpointProtocol.Disciplined(longer[i].protocol, more[i].step)
    {
      if i < |steps| {
        assert longer[i] == states[i] && longer[i + 1] == states[i + 1] && more[i] == steps[i];
      }
    }
  }

  /** Nothing is armed or waiting, and the next buffer and endpoint object are number `b`. */
  predicate Fresh(s: State, b: nat) {
    s.loop.armed == map[] && s.loop.tasks == [] && s.loop.buffers == Pool([], b) && s.loop.objects == Pool([], b)
  }

  /** A datagram from `e` is received into buffer `b` and filed by its packet task. */
  lemma PacketComes(states: seq<State>, steps: seq<Step>, b: nat, e: nat) returns (longer: seq<State>, more: seq<Step>)
    requires IsDisciplinedRun(1, states, steps) && Fresh(states[|steps|], b)
    requires var s := states[|steps|].protocol;
             WellFormed(s.plugin) && |s.plugin.locals| == 1 && !EndpointProtocol.ShardLocked(s.phase, 0)
    ensures IsDisciplinedRun(1, longer, more) && Fresh(longer[|more|], b + 1)
    ensures var s, t := states[|steps|], longer[|more|]; var packet := EndpointProtocol.PacketTask(0, e, b);
            && EndpointProtocol.Enabled(s.protocol, packet) && t.protocol == EndpointProtocol.Next(s.protocol, packet)
            && t.dropped == s.dropped
  {
    var s := states[|steps|];
    longer, more := Grow(1, states, steps, ArmReceive(0, 0, 0));
    var armed := longer[|more|];
    assert armed.loop.armed == map[0 := Armed(b, b)] && armed.loop.tasks == [] && armed.protocol == s.protocol;
    longer, more := Grow(1, longer, more, DatagramArrives(0, e, []));
    var arrived := longer[|more|];
    assert arrived.loop.armed == map[] && arrived.loop.tasks == [Task(0, b, b)] && arrived.loop.addresses[b] == e;
    assert PacketOf(arrived.loop, arrived.loop.tasks[0]) == EndpointProtocol.PacketTask(0, e, b);
    longer, more := Grow(1, longer, more, RunTask(0));
  }

  lemma PluginGoes(states: seq<State>, steps: seq<Step>, step: EndpointProtocol.Step, t: EndpointProtocol.State, b: nat)
    returns (longer: seq<State>, more: seq<Step>)
    requires IsDisciplinedRun(1, states, steps) && Fresh(states[|steps|], b) && !step.PacketTask?
    requires var s := states[|steps|].protocol;
             EndpointProtocol.Enabled(s, step) && EndpointProtocol.Disciplined(s, step) &&
                 t == EndpointProtocol.Next(s, step)
    ensures IsDisciplinedRun(1, longer, more) && Fresh(longer[|more|], b) && longer[|more|].protocol == t
    ensures EndpointProtocol.Enabled(states[|steps|].protocol, step) &&
            longer[|more|].dropped == DroppedAfter(states[|steps|], step)
  {
    longer, more := Grow(1, states, steps, PluginStep(step));
  }

  /** A client is created and served; its disconnect is requested; and before the tick comes
      to tear it down, one more datagram of it arrives. Its buffer is lost. */
  lemma LosesABuffer(e: nat) returns (states: seq<State>, steps: seq<Step>)
    ensures IsDisciplinedRun(1, states, steps) && ListAt(states[|steps|], DroppedList(e)) == [1]
  {
    states, steps := Served(e);
    var input := [Input(0, 0)];
    var live := states[|steps|].protocol;
    var requested := EndpointProtocol.Next(live, EndpointProtocol.RequestDisconnect(e));
    states, steps := PluginGoes(states, steps, EndpointProtocol.RequestDisconnect(e), requested, 1);
    assert requested.plugin == live.plugin.(disconnects := [e]) && requested.phase.Delivered?;
    states, steps := PacketComes(states, steps, 1, e);
    var late := states[|steps|].protocol;
    LatePacket(requested, e);
    states, steps := Closes(states, steps, e);
  }

  /** After the first datagram, a tick up to its delivery. */
  lemma Served(e: nat) returns (states: seq<State>, steps: seq<Step>)
    ensures IsDisciplinedRun(1, states, steps) && Fresh(states[|steps|], 1) && states[|steps|].dropped == map[]
    ensures var input := [Input(0, 0)];
            states[|steps|].protocol == EndpointProtocol.State(
              EndpointWitness.Live(e, [NewClient, Inputs(input)], []), EndpointProtocol.Delivered, true,
                  map[e := input], map[e := input])
  {
    var input := [Input(0, 0)];
    EndpointWitness.FirstPacket(e, 0);
    EndpointWitness.Created(e, input);
    EndpointWitness.Collected(e, input);
    EndpointWitness.GivenTo(e, input);
    EndpointWitness.EnabledAlong(e, input);
    states, steps := [Initial(1)], [];
    states, steps := PacketComes(states, steps, 0, e);
    states, steps := PluginGoes(states, steps, EndpointProtocol.StartTick,
        EndpointWitness.Serving(e, input, input, [], EndpointProtocol.Collecting(0)), 1);
    states, steps := PluginGoes(states, steps, EndpointProtocol.CollectShard,
        EndpointWitness.Serving(e, input, [], input, EndpointProtocol.Collecting(1)), 1);
    var last := EndpointProtocol.Next(EndpointWitness.Serving(e, input, [], input, EndpointProtocol.Collecting(1)),
        EndpointProtocol.DeliverInputs);
    states, steps := PluginGoes(states, steps, EndpointProtocol.DeliverInputs, last, 1);
  }

  /** The late datagram waits in the shard. */
  lemma LatePacket(s: EndpointProtocol.State, e: nat)
    requires WellFormed(s.plugin) && |s.plugin.locals| == 1 && s.phase.Delivered? && s.plugin.disconnects == [e]
    requires e in s.plugin.locals[0] && s.plugin.pending[0] == map[e := []] && s.plugin.data == map[e := []]
    ensures var packet := EndpointProtocol.PacketTask(0, e, 1);
            && EndpointProtocol.Enabled(s, packet)
            && var t := EndpointProtocol.Next(s, packet);
               && WellFormed(t.plugin) && |t.plugin.locals| == 1 && t.phase.Delivered? && t.plugin.disconnects == [e]
               && e in t.plugin.locals[0] && At(t.plugin.pending[0], e) == [Input(0, 1)] &&
                   t.plugin.data == map[e := []]
  {
  }

  /** The disconnects of the tick, as far as clearing the shard. */
  lemma Closes(states: seq<State>, steps: seq<Step>, e: nat) returns (longer: seq<State>, more: seq<Step>)
    requires IsDisciplinedRun(1, states, steps) && Fresh(states[|steps|], 2) && states[|steps|].dropped == map[]
    requires var s := states[|steps|].protocol;
             && WellFormed(s.plugin) && |s.plugin.locals| == 1 && s.phase.Delivered? && s.plugin.disconnects == [e]
             && e in s.plugin.locals[0] && At(s.plugin.pending[0], e) == [Input(0, 1)] && s.plugin.data == map[e := []]
    ensures IsDisciplinedRun(1, longer, more) && ListAt(longer[|more|], DroppedList(e)) == [1]
  {
    var s0 := states[|steps|].protocol;
    var s1 := EndpointProtocol.Next(s0, EndpointProtocol.LockDisconnects);
    longer, more := PluginGoes(states, steps, EndpointProtocol.LockDisconnects, s1, 2);
    var s2 := EndpointProtocol.Next(s1, EndpointProtocol.EraseClient);
    longer, more := PluginGoes(longer, more, EndpointProtocol.EraseClient, s2, 2);
    longer, more := ClosesOn(longer, more, e);
  }

  lemma ClosesOn(states: seq<State>, steps: seq<Step>, e: nat) returns (longer: seq<State>, more: seq<Step>)
    requires IsDisciplinedRun(1, states, steps) && Fresh(states[|steps|], 2) && At(states[|steps|].dropped, e) == []
    requires var s := states[|steps|].protocol;
             && WellFormed(s.plugin) && |s.plugin.locals| == 1
             && s.phase == EndpointProtocol.Closing(0, EndpointProtocol.Erased)
             && s.plugin.disconnects == [e] && e in s.plugin.locals[0] && At(s.plugin.pending[0], e) == [Input(0, 1)]
    ensures IsDisciplinedRun(1, longer, more) && ListAt(longer[|more|], DroppedList(e)) == [1]
  {
    var s0 := states[|steps|].protocol;
    var s1 := EndpointProtocol.Next(s0, EndpointProtocol.UnregisterEndpoint);
    longer, more := PluginGoes(states, steps, EndpointProtocol.UnregisterEndpoint, s1, 2);
    var s2 := EndpointProtocol.Next(s1, EndpointProtocol.ClearShard);
    longer, more := PluginGoes(longer, more, EndpointProtocol.ClearShard, s2, 2);
    assert Buffers([Input(0, 1)]) == [1];
  }
}
