/** The discipline of disconnects is exact: a request keeps to it if and only if nothing
    that may follow, all further requests keeping to it, makes an assertion fail. */
module EndpointDiscipline {
  import opened EndpointState
  import opened EndpointProtocol
  import opened EndpointPaths
  import opened EndpointInvariant

  ghost predicate AlwaysOk(s: State) {
    forall steps, t :: Continues(s, steps, t) ==> t.ok
  }

  lemma {:induction false} ContinuesKeeps(s: State, steps: seq<Step>, t: State)
    requires Inv(s) && Continues(s, steps, t)
    ensures Inv(t)
    decreases |steps|
  {
    hide Inv;
    hide Next;
    if steps != [] {
      StepKeeps(s, steps[0]);
      ContinuesKeeps(Next(s, steps[0]), steps[1..], t);
    }
  }

  lemma {:induction false} FailureStays(s: State, steps: seq<Step>, t: State)
    requires Continues(s, steps, t) && !s.ok
    ensures !t.ok
    decreases |steps|
  {
    if steps != [] {
      FailureStays(Next(s, steps[0]), steps[1..], t);
    }
  }

  // ---------------------------------------------------------------- finishing a tick

  predicate InBounds(s: State) {
    && WellFormed(s.plugin)
    && (s.phase.Collecting? ==> s.phase.shard <= |s.plugin.locals|)
  }

  /** How far the tick is from its disconnects. */
  function Distance(s: State): nat
    requires InBounds(s)
  {
    match s.phase
    case Idle => |s.plugin.locals| + 3
    case Collecting(k) => |s.plugin.locals| - k + 2
    case Delivered => 1
    case Closing(_, _) => 0
  }

  /** What matters to a disconnect is as before; an idle tick has given newcomers clients. */
  ghost predicate SameRegistry(s: State, t: State) {
    && WellFormed(t.plugin) && t.ok == s.ok
    && t.plugin.endpoints == s.plugin.endpoints && t.plugin.disconnects == s.plugin.disconnects
    && if s.phase.Idle? then t.plugin.newcomers == {} && t.plugin.data.Keys == s.plugin.data.Keys + s.plugin.newcomers
       else t.plugin.newcomers == s.plugin.newcomers && t.plugin.data.Keys == s.plugin.data.Keys
  }

  function TickStep(phase: Phase, shards: nat): Step {
    match phase
    case Idle => StartTick
    case Collecting(k) => if k < shards then CollectShard else DeliverInputs
    case _ => LockDisconnects
  }

  lemma OneTickStep(s: State)
    requires InBounds(s) && !s.phase.Closing?
    ensures var step := TickStep(s.phase, |s.plugin.locals|);
            && Enabled(s, step) && Disciplined(s, step) && InBounds(Next(s, step)) &&
                Distance(Next(s, step)) < Distance(s)
            && SameRegistry(s, Next(s, step)) && !Next(s, step).phase.Idle?
            && (Next(s, step).phase.Closing? ==> Next(s, step).phase == Closing(0, Untouched))
  {
  }

  /** The tick goes on to its disconnects. */
  lemma {:induction false} ToClosing(s: State) returns (steps: seq<Step>, t: State)
    requires InBounds(s) && !s.phase.Closing?
    ensures Continues(s, steps, t) && t.phase == Closing(0, Untouched) && SameRegistry(s, t)
    decreases Distance(s)
  {
    var step := TickStep(s.phase, |s.plugin.locals|);
    OneTickStep(s);
    var next := Next(s, step);
    hide Next;
    hide Enabled;
    hide Disciplined;
    if next.phase.Closing? {
      Nowhere(next);
      steps, t := [], next;
    } else {
      steps, t := ToClosing(next);
    }
    First(s, step, steps, t);
    steps := [step] + steps;
  }

  lemma {:induction false} ClearAll(s: State) returns (steps: seq<Step>, t: State)
    requires WellFormed(s.plugin) && s.phase.Closing? && s.phase.stage.Clearing? &&
             s.phase.index < |s.plugin.disconnects|
    requires s.phase.stage.shard <= |s.plugin.locals|
    ensures Continues(s, steps, t) && WellFormed(t.plugin) && t.phase == Closing(s.phase.index + 1, Untouched)
    ensures t.ok == s.ok && t.plugin.endpoints == s.plugin.endpoints && t.plugin.disconnects == s.plugin.disconnects
    ensures t.plugin.newcomers == s.plugin.newcomers
    decreases |s.plugin.locals| - s.phase.stage.shard
  {
    var step := if s.phase.stage.shard < |s.plugin.locals| then ClearShard else NotifyDisconnected;
    var next := Next(s, step);
    if step.ClearShard? {
      steps, t := ClearAll(next);
    } else {
      Nowhere(next);
      steps, t := [], next;
    }
    First(s, step, steps, t);
    steps := [step] + steps;
  }

  /** One teardown: it fails if the endpoint is not registered, and unregisters it. */
  lemma TearOne(s: State) returns (steps: seq<Step>, t: State)
    requires WellFormed(s.plugin) && s.phase.Closing? && s.phase.stage.Untouched? &&
             s.phase.index < |s.plugin.disconnects|
    ensures Continues(s, steps, t) && WellFormed(t.plugin) && t.phase == Closing(s.phase.index + 1, Untouched)
    ensures var e := s.plugin.disconnects[s.phase.index];
            && t.ok == (s.ok && e in s.plugin.endpoints) && t.plugin.endpoints == s.plugin.endpoints - {e}
            && t.plugin.disconnects == s.plugin.disconnects && t.plugin.newcomers == s.plugin.newcomers
  {
    var erased := Next(s, EraseClient);
    var unregistered := Next(erased, UnregisterEndpoint);
    var rest;
    rest, t := ClearAll(unregistered);
    First(erased, UnregisterEndpoint, rest, t);
    First(s, EraseClient, [UnregisterEndpoint] + rest, t);
    steps := [EraseClient] + ([UnregisterEndpoint] + rest);
  }

  /** All teardowns from position `k` on: they fail if an entry is not registered, or comes a
      second time. */
  lemma {:induction false} TearAll(s: State) returns (steps: seq<Step>, t: State)
    requires WellFormed(s.plugin) && s.phase.Closing? && s.phase.stage.Untouched? &&
             s.phase.index <= |s.plugin.disconnects|
    ensures Continues(s, steps, t) && WellFormed(t.plugin) && t.phase == Closing(|s.plugin.disconnects|, Untouched)
    ensures t.plugin.disconnects == s.plugin.disconnects && t.plugin.newcomers == s.plugin.newcomers
    ensures t.plugin.endpoints ==
            s.plugin.endpoints - set k | s.phase.index <= k < |s.plugin.disconnects| :: s.plugin.disconnects[k]
    ensures t.ok ==> s.ok && forall k :: s.phase.index <= k < |s.plugin.disconnects| ==>
            s.plugin.disconnects[k] in s.plugin.endpoints
    ensures t.ok ==> forall j, k :: s.phase.index <= j < k < |s.plugin.disconnects| ==>
            s.plugin.disconnects[j] != s.plugin.disconnects[k]
    decreases |s.plugin.disconnects| - s.phase.index
  {
    hide Continues;
    if s.phase.index == |s.plugin.disconnects| {
      Nowhere(s);
      steps, t := [], s;
    } else {
      var one, u := TearOne(s);
      var rest;
      rest, t := TearAll(u);
      ContinuesOn(s, one, u, rest, t);
      steps := one + rest;
    }
  }

  // ---------------------------------------------------------------- requests that break it

  /** The tick after an undisciplined request, to its end. */
  lemma RestOfTick(s: State) returns (steps: seq<Step>, t: State)
    requires InBounds(s) && !s.phase.Closing?
    ensures Continues(s, steps, t) && WellFormed(t.plugin) && t.phase.Idle? && t.plugin.disconnects == []
    ensures t.plugin.endpoints ==
            s.plugin.endpoints - set k | 0 <= k < |s.plugin.disconnects| :: s.plugin.disconnects[k]
    ensures !s.phase.Idle? ==> t.plugin.newcomers == s.plugin.newcomers
    ensures t.ok ==> forall k :: 0 <= k < |s.plugin.disconnects| ==> s.plugin.disconnects[k] in s.plugin.endpoints
    ensures t.ok ==> forall j, k :: 0 <= j < k < |s.plugin.disconnects| ==>
            s.plugin.disconnects[j] != s.plugin.disconnects[k]
  {
    var front, u := ToClosing(s);
    var tearing, v := TearAll(u);
    ContinuesOn(s, front, u, tearing, v);
    t := Next(v, EndTick);
    Nowhere(t);
    First(v, EndTick, [], t);
    ContinuesOn(s, front + tearing, v, [EndTick] + [], t);
    steps := front + tearing + ([EndTick] + []);
  }

  /** A newcomer that is disconnected in the middle of a tick is torn down before it has a
      client, gets one afterwards without being registered, and cannot be disconnected. */
  lemma NewcomerFails(s: State, e: nat) returns (steps: seq<Step>, t: State)
    requires InBounds(s) && !s.phase.Closing? && !s.phase.Idle? && e in s.plugin.newcomers && e in s.plugin.disconnects
    ensures Continues(s, steps, t) && !t.ok
  {
    var front, idle := RestOfTick(s);
    var k :| 0 <= k < |s.plugin.disconnects| && s.plugin.disconnects[k] == e;
    assert e !in idle.plugin.endpoints && e in idle.plugin.newcomers;
    var started := Next(idle, StartTick);
    var requested := Next(started, RequestDisconnect(e));
    assert requested.plugin.disconnects == [e] && e !in requested.plugin.endpoints;
    assert Disciplined(started, RequestDisconnect(e));
    var rest;
    rest, t := RestOfTick(requested);
    assert requested.plugin.disconnects[0] == e;
    First(started, RequestDisconnect(e), rest, t);
    First(idle, StartTick, [RequestDisconnect(e)] + rest, t);
    ContinuesOn(s, front, idle, [StartTick] + ([RequestDisconnect(e)] + rest), t);
    steps := front + ([StartTick] + ([RequestDisconnect(e)] + rest));
  }

  lemma UndisciplinedFails(s: State, e: nat) returns (steps: seq<Step>, t: State)
    requires Inv(s) && !s.phase.Closing? && !MayDisconnect(s, e)
    ensures Continues(Next(s, RequestDisconnect(e)), steps, t) && !t.ok
  {
    var p := s.plugin;
    var requested := Next(s, RequestDisconnect(e));
    var n := |p.disconnects|;
    assert InBounds(requested) && requested.plugin.disconnects == p.disconnects + [e];
    assert requested.plugin.disconnects[n] == e;
    RegisteredOnlyAs(s, e);
    hide Inv;
    if e !in p.disconnects && e in p.endpoints {
      steps, t := NewcomerFails(requested, e);
    } else {
      steps, t := RestOfTick(requested);
      if k :| 0 <= k < n && p.disconnects[k] == e {
        assert requested.plugin.disconnects[k] == requested.plugin.disconnects[n];
      }
    }
  }

  /** Outside a teardown a registered endpoint has a client or is new. */
  lemma RegisteredOnlyAs(s: State, e: nat)
    requires Inv(s) && !s.phase.Closing?
    ensures e in s.plugin.endpoints <==> e in s.plugin.data || e in s.plugin.newcomers
  {
    hide Conserved;
    hide Sessions;
    hide OnTime;
  }

  /** The exact condition: at the end of any disciplined run, outside the disconnects of a
      tick, a request for `e` can be followed by whatever callers and ticks do, with all
      further requests disciplined, without any assertion ever failing, if and only if `e`
      is not already in the list and has a client, or is new and no tick is under way. */
  lemma DisciplineIsExact(shards: nat, states: seq<State>, steps: seq<Step>, e: nat)
    requires IsDisciplinedRun(shards, states, steps) && !states[|steps|].phase.Closing?
    ensures Enabled(states[|steps|], RequestDisconnect(e))
    ensures AlwaysOk(Next(states[|steps|], RequestDisconnect(e))) <==> MayDisconnect(states[|steps|], e)
  {
    var s := states[|steps|];
    RunKeeps(shards, states, steps, |steps|);
    IsWellFormed(s);
    hide Inv;
    if MayDisconnect(s, e) {
      StepKeeps(s, RequestDisconnect(e));
      KeptIsOk(Next(s, RequestDisconnect(e)));
    } else {
      var more, t := UndisciplinedFails(s, e);
    }
  }

  lemma IsWellFormed(s: State)
    requires Inv(s)
    ensures WellFormed(s.plugin)
  {
  }

  lemma KeptIsOk(s: State)
    requires Inv(s)
    ensures AlwaysOk(s)
  {
    forall steps, t | Continues(s, steps, t)
      ensures t.ok
    {
      ContinuesKeeps(s, steps, t);
    }
  }
}
