/** What a teardown drops: in disciplined runs, exactly the inputs that arrived in a shard
    after the tick had collected it. */
module EndpointDrops {
  import opened EndpointState
  import opened EndpointProtocol
  import opened EndpointInvariant

  /** What one step stores for endpoint `e` under network id `i`. */
  function StoredBy(step: Step, i: nat, e: nat): seq<Input> {
    if step.PacketTask? && step.shard == i && step.endpoint == e then [Input(i, step.buffer)] else []
  }

  /** What packet tasks stored there by the steps `[lo, hi)`, in order. */
  function StoredIn(steps: seq<Step>, lo: nat, hi: nat, i: nat, e: nat): seq<Input>
    requires lo <= hi <= |steps|
    decreases hi - lo
  {
    if lo == hi then [] else StoredIn(steps, lo, hi - 1, i, e) + StoredBy(steps[hi - 1], i, e)
  }

  // ---------------------------------------------------------------- since shard `i` was collected

  /** The teardown of `e` in this tick is past shard `i`. */
  predicate PastClear(s: State, i: nat, e: nat) {
    s.phase.Closing? &&
    exists j :: 0 <= j < |s.plugin.disconnects| && s.plugin.disconnects[j] == e
                && (j < s.phase.index || (j == s.phase.index && s.phase.stage.Clearing? && s.phase.stage.shard > i))
  }

  /** In the tick that has collected shard `i`: whoever is a client now, or being torn down,
      was one then (`had`); and for such an endpoint the shard holds exactly what was `stored`
      since, unless it has been cleared. */
  ghost predicate SinceCollect(had: bool, s: State, stored: seq<Input>, i: nat, e: nat) {
    && i < |s.plugin.pending|
    && (s.phase.Idle?
        || (&& (s.phase.Collecting? ==> s.phase.shard > i)
            && (e in s.plugin.data || IsClosing(s, e) ==> had)
            && (had ==> PastClear(s, i, e) || At(s.plugin.pending[i], e) == stored)))
  }

  lemma PacketSince(had: bool, s: State, step: Step, stored: seq<Input>, i: nat, e: nat)
    requires Inv(s) && Enabled(s, step) && step.PacketTask? && SinceCollect(had, s, stored, i, e)
    ensures SinceCollect(had, Next(s, step), stored + StoredBy(step, i, e), i, e)
  {
    var t := Next(s, step);
    hide Conserved;
    hide Sessions;
    hide OnTime;
    PacketAt(s.plugin, step.shard, step.endpoint, step.buffer, i, e);
    PacketAt(s.plugin, step.shard, step.endpoint, step.buffer, step.shard, step.endpoint);
    hide Packet;
    assert t.phase == s.phase && t.plugin.disconnects == s.plugin.disconnects by { PacketLeaves(s, step); }
    assert stored + [] == stored;
    hide Inv;
    assert PastClear(t, i, e) == PastClear(s, i, e) && IsClosing(t, e) == IsClosing(s, e);
  }

  lemma PacketLeaves(s: State, step: Step)
    requires Enabled(s, step) && step.PacketTask?
    ensures Next(s, step).phase == s.phase && Next(s, step).plugin.disconnects == s.plugin.disconnects
  {
  }

  lemma TickSince(had: bool, s: State, step: Step, stored: seq<Input>, i: nat, e: nat)
    requires Inv(s) && Enabled(s, step) && SinceCollect(had, s, stored, i, e)
    requires step.CollectShard? || step.DeliverInputs? || step.LockDisconnects? || step.RequestDisconnect? ||
             step.EndTick?
    ensures SinceCollect(had, Next(s, step), stored, i, e)
  {
    hide Conserved;
    hide Sessions;
    hide OnTime;
    hide Registry;
    if step.CollectShard? {
      CollectAt(s.plugin, s.phase.shard, i, e);
    }
  }

  lemma CloseSince(had: bool, s: State, step: Step, stored: seq<Input>, i: nat, e: nat)
    requires Inv(s) && Enabled(s, step) && SinceCollect(had, s, stored, i, e)
    requires step.EraseClient? || step.UnregisterEndpoint? || step.NotifyDisconnected?
    ensures SinceCollect(had, Next(s, step), stored, i, e)
  {
    hide Conserved;
    hide Sessions;
    hide OnTime;
    hide Registry;
    var t := Next(s, step);
    assert t.plugin.pending == s.plugin.pending && t.plugin.disconnects == s.plugin.disconnects;
    assert PastClear(s, i, e) ==> PastClear(t, i, e);
  }

  lemma ClearSince(had: bool, s: State, stored: seq<Input>, i: nat, e: nat)
    requires Inv(s) && Enabled(s, ClearShard) && SinceCollect(had, s, stored, i, e)
    ensures SinceCollect(had, Next(s, ClearShard), stored, i, e)
  {
    hide Conserved;
    hide Sessions;
    hide OnTime;
    var t := Next(s, ClearShard);
    var d, j := s.plugin.disconnects[s.phase.index], s.phase.stage.shard;
    assert t.plugin.disconnects == s.plugin.disconnects;
    if d == e && j == i {
      assert PastClear(t, i, e);
    } else {
      assert PastClear(s, i, e) ==> PastClear(t, i, e);
      assert At(t.plugin.pending[i], e) == At(s.plugin.pending[i], e);
    }
  }

  lemma StepSince(had: bool, s: State, step: Step, stored: seq<Input>, i: nat, e: nat)
    requires Inv(s) && Enabled(s, step) && !step.StartTick? && SinceCollect(had, s, stored, i, e)
    ensures SinceCollect(had, Next(s, step), stored + StoredBy(step, i, e), i, e)
  {
    hide Inv;
    hide SinceCollect;
    assert stored + [] == stored;
    match step
    case PacketTask(_, _, _) => PacketSince(had, s, step, stored, i, e);
    case EraseClient => CloseSince(had, s, step, stored, i, e);
    case UnregisterEndpoint => CloseSince(had, s, step, stored, i, e);
    case NotifyDisconnected => CloseSince(had, s, step, stored, i, e);
    case ClearShard => ClearSince(had, s, stored, i, e);
    case _ => TickSince(had, s, step, stored, i, e);
  }

  lemma CollectStarts(s: State, i: nat, e: nat)
    requires WellFormed(s.plugin) && Enabled(s, CollectShard) && s.phase.shard == i
    ensures SinceCollect(e in s.plugin.data, Next(s, CollectShard), [], i, e)
  {
    CollectAt(s.plugin, i, i, e);
  }

  /** Step `k` collects shard `i`, and no tick starts between it and `n`. */
  ghost predicate CollectedAt(states: seq<State>, steps: seq<Step>, k: nat, n: nat, i: nat)
    requires |states| == |steps| + 1 && n <= |steps|
  {
    k < n && steps[k] == CollectShard && states[k].phase == Collecting(i) && forall m :: k < m < n ==>
        !steps[m].StartTick?
  }

  lemma {:induction false} SinceAlong(shards: nat, states: seq<State>, steps: seq<Step>, k: nat, n: nat, i: nat, e: nat)
    requires IsDisciplinedRun(shards, states, steps) && n <= |steps| && CollectedAt(states, steps, k, n, i)
    ensures SinceCollect(e in states[k].plugin.data, states[n], StoredIn(steps, k + 1, n, i, e), i, e)
    decreases n
  {
    hide Inv;
    hide Next;
    hide SinceCollect;
    hide Enabled;
    if n == k + 1 {
      EnabledIsWellFormed(states[k], steps[k]);
      CollectStarts(states[k], i, e);
    } else {
      SinceAlong(shards, states, steps, k, n - 1, i, e);
      RunKeeps(shards, states, steps, n - 1);
      StepSince(e in states[k].plugin.data, states[n - 1], steps[n - 1], StoredIn(steps, k + 1, n - 1, i, e), i, e);
    }
  }

  lemma EnabledIsWellFormed(s: State, step: Step)
    requires Enabled(s, step)
    ensures WellFormed(s.plugin)
  {
  }

  // ---------------------------------------------------------------- every tick collects every shard

  /** Shards the tick in progress has collected. */
  function Collected(s: State): nat {
    match s.phase
    case Idle => 0
    case Collecting(k) => k
    case _ => |s.plugin.locals|
  }

  lemma StepCollects(s: State, step: Step)
    requires Enabled(s, step)
    ensures |Next(s, step).plugin.locals| == |s.plugin.locals|
    ensures Collected(Next(s, step)) <= Collected(s) ||
            (step.CollectShard? && Collected(Next(s, step)) == Collected(s) + 1 && s.phase == Collecting(Collected(s)))
    ensures step.StartTick? ==> Collected(Next(s, step)) == 0
  {
  }

  /** So whatever shard a tick is past, there is the step that collected it. */
  lemma {:induction false} LastCollect(shards: nat, states: seq<State>, steps: seq<Step>, n: nat, i: nat)
      returns (k: nat)
    requires IsRun(shards, states, steps) && n <= |steps| && i < Collected(states[n])
    ensures CollectedAt(states, steps, k, n, i)
    decreases n
  {
    hide Next;
    hide Enabled;
    NothingCollected(shards);
    assert n > 0;
    StepCollects(states[n - 1], steps[n - 1]);
    if i < Collected(states[n - 1]) {
      k := LastCollect(shards, states, steps, n - 1, i);
    } else {
      k := n - 1;
    }
  }

  lemma NothingCollected(shards: nat)
    ensures Collected(Initial(shards)) == 0
  {
  }

  // ---------------------------------------------------------------- what is dropped

  /** All inputs that teardowns dropped, in order. */
  function DroppedOf(events: seq<Event>): seq<Input> {
    if events == [] then []
    else
      var n := |events| - 1;
      DroppedOf(events[..n]) + if events[n].Dropped? then events[n].inputs else []
  }

  lemma DroppedMore(events: seq<Event>, event: Event)
    ensures DroppedOf(events + [event]) == DroppedOf(events) + if event.Dropped? then event.inputs else []
  {
    assert (events + [event])[..|events|] == events;
  }

  /** What one step drops for endpoint `e`. */
  function DroppedBy(s: State, step: Step, e: nat): seq<Input>
    requires Enabled(s, step)
  {
    if (step.EraseClient? || step.ClearShard?) && s.plugin.disconnects[s.phase.index] == e then
      At(if step.EraseClient? then s.plugin.data else s.plugin.pending[s.phase.stage.shard], e)
    else []
  }

  lemma TickDrops(s: State, step: Step, e: nat)
    requires Enabled(s, step) && (step.StartTick? || step.DeliverInputs?)
    ensures DroppedOf(At(Next(s, step).plugin.calls, e)) == DroppedOf(At(s.plugin.calls, e))
  {
    var events := At(s.plugin.calls, e);
    assert DroppedOf(events) + [] == DroppedOf(events);
    CreateAt(s.plugin, e);
    DeliverAt(s.plugin, e);
    DroppedMore(events, NewClient);
    DroppedMore(events, Inputs(At(s.plugin.data, e)));
    hide DroppedOf;
    hide CreateClients;
    hide Deliver;
  }

  /** Every shard has a list exactly for the endpoints it knows. */
  ghost predicate ListsKnown(p: Plugin) {
    WellFormed(p) && forall i :: 0 <= i < |p.locals| ==> p.locals[i] == p.pending[i].Keys
  }

  /** What one step adds to the history of `e` in a teardown. */
  lemma TeardownCalls(s: State, step: Step, e: nat)
    requires ListsKnown(s.plugin) && Enabled(s, step) &&
             (step.EraseClient? || step.ClearShard? || step.NotifyDisconnected?)
    ensures var before, after := At(s.plugin.calls, e), At(Next(s, step).plugin.calls, e);
            || (after == before && DroppedBy(s, step, e) == [])
            || (after == before + [Dropped(DroppedBy(s, step, e))])
            || (after == before + [Disconnected] && DroppedBy(s, step, e) == [])
  {
  }

  lemma TeardownDrops(s: State, step: Step, e: nat)
    requires ListsKnown(s.plugin) && Enabled(s, step) &&
             (step.EraseClient? || step.ClearShard? || step.NotifyDisconnected?)
    ensures DroppedOf(At(Next(s, step).plugin.calls, e)) == DroppedOf(At(s.plugin.calls, e)) + DroppedBy(s, step, e)
  {
    var events := At(s.plugin.calls, e);
    TeardownCalls(s, step, e);
    hide ListsKnown;
    hide DroppedOf;
    hide DroppedBy;
    hide Next;
    assert DroppedOf(events) + [] == DroppedOf(events);
    DroppedMore(events, Dropped(DroppedBy(s, step, e)));
    DroppedMore(events, Disconnected);
  }

  lemma QuietDrops(s: State, step: Step, e: nat)
    requires Enabled(s, step)
    requires !step.StartTick? && !step.DeliverInputs? && !step.EraseClient? && !step.ClearShard? &&
             !step.NotifyDisconnected?
    ensures At(Next(s, step).plugin.calls, e) == At(s.plugin.calls, e) && DroppedBy(s, step, e) == []
  {
  }

  lemma StepDrops(s: State, step: Step, e: nat)
    requires ListsKnown(s.plugin) && Enabled(s, step)
    ensures DroppedOf(At(Next(s, step).plugin.calls, e)) == DroppedOf(At(s.plugin.calls, e)) + DroppedBy(s, step, e)
  {
    hide ListsKnown;
    hide DroppedOf;
    hide Next;
    var before := DroppedOf(At(s.plugin.calls, e));
    assert before + [] == before;
    if step.StartTick? || step.DeliverInputs? {
      TickDrops(s, step, e);
    } else if step.EraseClient? || step.ClearShard? || step.NotifyDisconnected? {
      TeardownDrops(s, step, e);
    } else {
      QuietDrops(s, step, e);
    }
  }

  /** When a teardown erases the data of a client there is none left: the tick has just
      delivered it. */
  lemma EraseDropsNothing(s: State)
    requires Inv(s) && Enabled(s, EraseClient)
    ensures DroppedBy(s, EraseClient, s.plugin.disconnects[s.phase.index]) == []
  {
    hide Registry;
    hide Conserved;
    hide Sessions;
  }

  /** In a disciplined run, what teardowns drop of endpoint `e` grows with a step only if that
      step clears a shard of `e`, and then by exactly what packet tasks stored there since
      the same tick collected the shard. So an input is lost if and only if it arrives in
      its shard between the collection of that shard and its clearing by the same tick. */
  lemma TeardownDropsExactly(shards: nat, states: seq<State>, steps: seq<Step>, n: nat, e: nat) returns (i: nat, k: nat)
    requires IsDisciplinedRun(shards, states, steps) && n < |steps|
    ensures var before, after := DroppedOf(At(states[n].plugin.calls, e)), DroppedOf(At(states[n + 1].plugin.calls, e));
            if steps[n] == ClearShard && IsClosing(states[n], e) then
              && states[n].phase.stage == Clearing(i) && CollectedAt(states, steps, k, n, i)
              && after == before + StoredIn(steps, k + 1, n, i, e)
            else after == before
  {
    var s, step := states[n], steps[n];
    RunKeeps(shards, states, steps, n);
    assert ListsKnown(s.plugin);
    StepDrops(s, step, e);
    i, k := 0, 0;
    if step == ClearShard && IsClosing(s, e) {
      i := s.phase.stage.shard;
      k := ClearedExactly(shards, states, steps, n, i, e);
    } else if step == EraseClient {
      EraseDropsNothing(s);
    }
    hide Inv;
    assert DroppedOf(At(s.plugin.calls, e)) + [] == DroppedOf(At(s.plugin.calls, e));
  }

  lemma ClearedExactly(shards: nat, states: seq<State>, steps: seq<Step>, n: nat, i: nat, e: nat) returns (k: nat)
    requires IsDisciplinedRun(shards, states, steps) && n < |steps|
    requires steps[n] == ClearShard && states[n].phase.Closing? && states[n].phase.stage == Clearing(i) &&
             IsClosing(states[n], e)
    ensures CollectedAt(states, steps, k, n, i) && i < |states[n].plugin.pending|
    ensures At(states[n].plugin.pending[i], e) == StoredIn(steps, k + 1, n, i, e)
  {
    assert Enabled(states[n], steps[n]);
    RunKeeps(shards, states, steps, n);
    NotPastClear(states[n], i, e);
    hide Inv;
    k := LastCollect(shards, states, steps, n, i);
    SinceAlong(shards, states, steps, k, n, i, e);
  }

  lemma NotPastClear(s: State, i: nat, e: nat)
    requires Inv(s) && s.phase.Closing? && s.phase.stage == Clearing(i) && IsClosing(s, e)
    ensures !PastClear(s, i, e)
  {
    hide Registry;
    hide Conserved;
    hide Sessions;
    hide OnTime;
  }
}
