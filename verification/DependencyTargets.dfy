/** Which dependencies may be pushed: exactly those on jobs that were pushed before. */
module DependencyTargets {
  import opened TransactionLog
  import opened TransactionState
  import opened Scheduler
  import opened SchedulerInvariant
  import opened SchedulerTheorems
  import opened Progress
  import opened Blocking
  import opened Draining

  /** The target of the dependency exists, and it is a job. */
  ghost predicate MayDepend(s: State, c: nat, other: nat, id: nat) {
    Exists(s.objects, Ref(other, c, id)) && !SlotOf(s.objects, Ref(other, c, id)).work.Depends?
  }

  /** A disciplined path from `s` to `t`. */
  ghost predicate Continues(s: State, steps: seq<Step>, t: State, order: seq<nat>)
    decreases |steps|
  {
    if steps == [] then s == t
    else Enabled(s, steps[0]) && Disciplined(s, steps[0], order) && Continues(Next(s, steps[0]), steps[1..], t, order)
  }

  /** However the run goes on, all further pushes disciplined: whenever its objects are alive
      the system can drain. */
  ghost predicate NeverBlocks(s: State, order: seq<nat>) {
    forall steps, t :: Continues(s, steps, t, order) && Alive(t) ==> CanDrain(t)
  }

  lemma {:induction false} ContinuesOn(s: State, a: seq<Step>, t: State, b: seq<Step>, u: State, order: seq<nat>)
    requires Continues(s, a, t, order) && Continues(t, b, u, order)
    ensures Continues(s, a + b, u, order)
    decreases |a|
  {
    hide Next;
    hide Enabled;
    hide Disciplined;
    if a == [] {
      assert a + b == b;
    } else {
      ContinuesOn(Next(s, a[0]), a[1..], t, b, u, order);
      assert (a + b)[1..] == a[1..] + b;
    }
  }

  lemma OneStep(s: State, step: Step, order: seq<nat>)
    requires Enabled(s, step) && Disciplined(s, step, order)
    ensures Continues(s, [step], Next(s, step), order)
  {
    assert [step][1..] == [];
  }

  lemma NoStep(s: State, order: seq<nat>)
    ensures Continues(s, [], s, order)
  {
  }

  // ---------------------------------------------------------------- dependencies on jobs

  ghost predicate Backward(s: State, order: seq<nat>) {
    Inv(s) && DependsBackward(s) && CommonOrder(s, order)
  }

  lemma {:induction false} StaysBackward(s: State, steps: seq<Step>, t: State, order: seq<nat>)
    requires Backward(s, order) && Continues(s, steps, t, order)
    ensures Backward(t, order)
    decreases |steps|
  {
    hide Inv;
    hide DependsBackward;
    hide CommonOrder;
    hide Next;
    hide Enabled;
    hide Disciplined;
    if steps != [] {
      StepKeeps(s, steps[0]);
      BackwardStays(s, steps[0], order);
      OrderStays(s, steps[0], order);
      StaysBackward(Next(s, steps[0]), steps[1..], t, order);
    }
  }

  lemma BackwardNeverBlocks(s: State, order: seq<nat>)
    requires Backward(s, order)
    ensures NeverBlocks(s, order)
  {
    hide Backward;
    hide Alive;
    hide CanDrain;
    forall steps, t | Continues(s, steps, t, order) && Alive(t)
      ensures CanDrain(t)
    {
      StaysBackward(s, steps, t, order);
      AliveCanDrain(t, order);
    }
  }

  lemma AliveCanDrain(s: State, order: seq<nat>)
    requires Backward(s, order) && Alive(s)
    ensures CanDrain(s)
  {
    hide Inv;
    hide DependsBackward;
    hide CommonOrder;
    hide Alive;
    assert Healthy(s, order);
    hide Reaches;
    var states, moves, t := Drain(s, order);
  }

  // ---------------------------------------------------------------- dependencies that are never met

  lemma {:induction false} LeadsInVain(s: State, steps: seq<Step>, t: State, owner: nat, c: nat, d: nat,
      other: nat, id: nat)
    requires Inv(s) && Leads(s, steps, t) && WaitsInVain(s, owner, c, d, other, id)
    requires forall k :: 0 <= k < |steps| ==> Finds(steps[k], owner, c, other)
    ensures WaitsInVain(t, owner, c, d, other, id)
    decreases |steps|
  {
    hide Inv;
    hide Next;
    hide Enabled;
    hide WaitsInVain;
    if steps != [] {
      StepKeeps(s, steps[0]);
      StepStaysBlocked(s, steps[0], owner, c, d, other, id);
      LeadsInVain(Next(s, steps[0]), steps[1..], t, owner, c, d, other, id);
    }
  }

  lemma PoolInVain(s: State, step: Step, owner: nat, c: nat, d: nat, other: nat, id: nat)
    requires Inv(s) && IsPoolStep(step) && Enabled(s, step) && WaitsInVain(s, owner, c, d, other, id)
    ensures WaitsInVain(Next(s, step), owner, c, d, other, id)
  {
    hide Inv;
    hide WaitsInVain;
    StepStaysBlocked(s, step, owner, c, d, other, id);
  }

  lemma UpdateInVain(s: State, o: nat, diff: nat, t: State, owner: nat, c: nat, d: nat, other: nat, id: nat)
    requires Inv(s) && Updated(s, o, diff, s.objects.Keys, t) && WaitsInVain(s, owner, c, d, other, id)
    ensures WaitsInVain(t, owner, c, d, other, id)
  {
    hide Inv;
    hide Update;
    hide WellFormed;
    hide WaitsInVain;
    var steps :| Leads(s, steps, t) && StepsOf(steps, o, s.objects.Keys);
    TargetKnown(s, owner, c, d, other, id);
    LeadsInVain(s, steps, t, owner, c, d, other, id);
  }

  lemma MoveInVain(s: State, m: Move, t: State, owner: nat, c: nat, d: nat, other: nat, id: nat)
    requires Inv(s) && MoveTo(s, m, t) && WaitsInVain(s, owner, c, d, other, id)
    requires m.UpdateMove? ==> m.known == s.objects.Keys
    ensures Inv(t) && WaitsInVain(t, owner, c, d, other, id) && t.objects.Keys == s.objects.Keys
  {
    MoveOnward(s, m, t);
    SameObjects(s, t);
    hide Inv;
    hide Onward;
    hide WaitsInVain;
    hide Updated;
    hide Next;
    hide Enabled;
    match m
    case PoolMove(step) => PoolInVain(s, step, owner, c, d, other, id);
    case UpdateMove(o, diff, _) => UpdateInVain(s, o, diff, t, owner, c, d, other, id);
  }

  lemma TargetKnown(s: State, owner: nat, c: nat, d: nat, other: nat, id: nat)
    requires WaitsInVain(s, owner, c, d, other, id)
    ensures other in s.objects.Keys && Unpassed(s.objects, Ref(owner, c, d))
  {
  }

  lemma {:induction false} ScheduleInVain(states: seq<State>, moves: seq<Move>, k: nat, owner: nat, c: nat, d: nat,
      other: nat, id: nat)
    requires IsSchedule(states, moves) && k <= |moves| && AllKnow(moves, states[0].objects.Keys)
    requires Inv(states[0]) && WaitsInVain(states[0], owner, c, d, other, id)
    ensures Inv(states[k]) && WaitsInVain(states[k], owner, c, d, other, id) &&
            states[k].objects.Keys == states[0].objects.Keys
  {
    hide Inv;
    hide MoveTo;
    hide WaitsInVain;
    if k > 0 {
      ScheduleInVain(states, moves, k - 1, owner, c, d, other, id);
      MoveInVain(states[k - 1], moves[k - 1], states[k], owner, c, d, other, id);
    }
  }

  lemma VainNeverDrains(s: State, owner: nat, c: nat, d: nat, other: nat, id: nat)
    requires Inv(s) && WaitsInVain(s, owner, c, d, other, id)
    ensures !CanDrain(s)
  {
    hide Inv;
    hide WaitsInVain;
    forall states, moves, t | Reaches(s, states, moves, t)
      ensures SomethingUnpassed(t)
    {
      ScheduleInVain(states, moves, |moves|, owner, c, d, other, id);
      TargetKnown(t, owner, c, d, other, id);
    }
  }

  // ---------------------------------------------------------------- making one never met

  /** Slot `d` of the log waits for slot `id` of `other`, and the cursor has not passed it. */
  ghost predicate Waits(s: State, owner: nat, c: nat, d: nat, other: nat, id: nat) {
    && Exists(s.objects, Ref(owner, c, d)) && SlotOf(s.objects, Ref(owner, c, d)).work == Depends(other, id)
    && s.objects[owner].logs[c].first <= d
  }

  /** What a path of pushes and new objects leaves as it is. */
  ghost predicate Adding(s: State, t: State, order: seq<nat>) {
    && Inv(t) && InRange(t) && CommonOrder(t, order) && WorkKept(s.objects, t.objects)
    && (forall o, c :: HasLog(s.objects, o, c) ==> HasLog(t.objects, o, c) && CursorOf(t, o, c) == CursorOf(s, o, c))
  }

  lemma AddingTwice(s: State, t: State, u: State, order: seq<nat>)
    requires Adding(s, t, order) && Adding(t, u, order)
    ensures Adding(s, u, order)
  {
  }

  lemma AddingWaits(s: State, t: State, order: seq<nat>, owner: nat, c: nat, d: nat, other: nat, id: nat)
    requires Adding(s, t, order) && Waits(s, owner, c, d, other, id)
    ensures Waits(t, owner, c, d, other, id)
  {
    hide Inv;
    assert CursorOf(t, owner, c) == CursorOf(s, owner, c);
  }

  /** A push of `work`, a new object, or an unflagging. */
  lemma StepAdds(s: State, step: Step, order: seq<nat>)
    requires Inv(s) && InRange(s) && CommonOrder(s, order) && Enabled(s, step) && Disciplined(s, step, order)
    requires step.PushWork? || step.Create? || step.Unflag?
    ensures Adding(s, Next(s, step), order)
  {
    StepKeeps(s, step);
    StepInRange(s, step);
    OrderStays(s, step, order);
    StepKeepsWork(s, step);
    hide Inv;
    hide InRange;
    hide CommonOrder;
    hide WorkKept;
    CursorsStay(s, step);
  }

  lemma CursorsStay(s: State, step: Step)
    requires Enabled(s, step) && (step.PushWork? || step.Create? || step.Unflag?)
    ensures forall o, c :: HasLog(s.objects, o, c) ==>
              HasLog(Next(s, step).objects, o, c) && CursorOf(Next(s, step), o, c) == CursorOf(s, o, c)
  {
  }

  const AnyJob: Work := Write(Insert, "", "")

  function SlotCount(s: State, o: nat, c: nat): nat {
    if HasLog(s.objects, o, c) then |s.objects[o].logs[c].slots| else 0
  }

  lemma PushIs(s: State, o: nat, c: nat, work: Work)
    requires HasLog(s.objects, o, c)
    ensures Enabled(s, PushWork(o, c, work))
    ensures var t := Next(s, PushWork(o, c, work));
            && HasLog(t.objects, o, c) && SlotCount(t, o, c) == SlotCount(s, o, c) + 1
            && SlotOf(t.objects, Ref(o, c, SlotCount(s, o, c))).work == work
  {
  }

  /** Jobs are pushed to a log until it has `n` slots. */
  lemma {:induction false} PushUntil(s: State, order: seq<nat>, o: nat, c: nat, n: nat)
      returns (steps: seq<Step>, t: State)
    requires Inv(s) && InRange(s) && CommonOrder(s, order) && HasLog(s.objects, o, c) && SlotCount(s, o, c) <= n
    ensures Continues(s, steps, t, order) && Adding(s, t, order) && HasLog(t.objects, o, c) && SlotCount(t, o, c) == n
    decreases n - SlotCount(s, o, c)
  {
    if SlotCount(s, o, c) == n {
      NoStep(s, order);
      AddingNothing(s, order);
      steps, t := [], s;
    } else {
      var step := PushWork(o, c, AnyJob);
      PushIs(s, o, c, AnyJob);
      StepAdds(s, step, order);
      OneStep(s, step, order);
      var next := Next(s, step);
      hide Inv;
      hide Next;
      var rest;
      rest, t := PushUntil(next, order, o, c, n);
      AddingTwice(s, next, t, order);
      ContinuesOn(s, [step], next, rest, t, order);
      steps := [step] + rest;
    }
  }

  lemma AddingNothing(s: State, order: seq<nat>)
    requires Inv(s) && InRange(s) && CommonOrder(s, order)
    ensures Adding(s, s, order)
  {
  }

  /** The other object exists, with the collection, after at most its creation. */
  lemma MakeObject(s: State, order: seq<nat>, owner: nat, c: nat, other: nat) returns (steps: seq<Step>, t: State)
    requires Inv(s) && InRange(s) && CommonOrder(s, order) && HasLog(s.objects, owner, c)
    ensures Continues(s, steps, t, order) && Adding(s, t, order) && HasLog(t.objects, other, c)
    ensures SlotCount(t, other, c) == SlotCount(s, other, c)
  {
    OrderOf(s, order, owner, c);
    if other in s.objects {
      OtherHasLog(s, order, owner, c, other);
      NoStep(s, order);
      AddingNothing(s, order);
      steps, t := [], s;
    } else {
      var step := Create(other, order, 0);
      t := Next(s, step);
      StepAdds(s, step, order);
      OneStep(s, step, order);
      steps := [step];
    }
  }

  lemma OrderOf(s: State, order: seq<nat>, owner: nat, c: nat)
    requires Inv(s) && CommonOrder(s, order) && HasLog(s.objects, owner, c)
    ensures Distinct(order) && c in order
  {
    OwnerFacts(s, owner, {});
  }

  lemma OtherHasLog(s: State, order: seq<nat>, owner: nat, c: nat, other: nat)
    requires Inv(s) && CommonOrder(s, order) && HasLog(s.objects, owner, c) && other in s.objects
    ensures HasLog(s.objects, other, c)
  {
    OrderOf(s, order, owner, c);
    OwnerFacts(s, other, {});
  }

  /** A target that does not exist yet can be made one that never gets done: in the log
      itself, by whatever is pushed there; elsewhere, by making it a dependency in turn. */
  lemma MakeVain(s: State, order: seq<nat>, owner: nat, c: nat, d: nat, other: nat, id: nat)
      returns (steps: seq<Step>, t: State)
    requires Inv(s) && InRange(s) && CommonOrder(s, order) && Waits(s, owner, c, d, other, id)
    requires SlotCount(s, other, c) <= id
    ensures Continues(s, steps, t, order) && Inv(t) && InRange(t) && WaitsInVain(t, owner, c, d, other, id)
  {
    hide Inv;
    hide InRange;
    hide CommonOrder;
    hide Adding;
    hide Continues;
    if other == owner {
      steps, t := PushUntil(s, order, owner, c, id + 1);
      AddingWaits(s, t, order, owner, c, d, other, id);
      AddingFacts(s, t, order);
      OwnTarget(t, owner, c, d, id);
    } else {
      steps, t := MakeVainElsewhere(s, order, owner, c, d, other, id);
    }
  }

  lemma AddingFacts(s: State, t: State, order: seq<nat>)
    requires Adding(s, t, order)
    ensures Inv(t) && InRange(t) && CommonOrder(t, order)
  {
  }

  lemma OwnTarget(s: State, owner: nat, c: nat, d: nat, id: nat)
    requires Waits(s, owner, c, d, owner, id) && SlotCount(s, owner, c) == id + 1
    ensures WaitsInVain(s, owner, c, d, owner, id)
  {
  }

  lemma MakeVainElsewhere(s: State, order: seq<nat>, owner: nat, c: nat, d: nat, other: nat, id: nat)
    returns (steps: seq<Step>, t: State)
    requires Inv(s) && InRange(s) && CommonOrder(s, order) && Waits(s, owner, c, d, other, id)
    requires SlotCount(s, other, c) <= id && other != owner
    ensures Continues(s, steps, t, order) && Inv(t) && InRange(t) && WaitsInVain(t, owner, c, d, other, id)
  {
    hide Inv;
    hide InRange;
    hide CommonOrder;
    hide Continues;
    // a job to depend on
    var job := Ref(owner, c, SlotCount(s, owner, c));
    var step := PushWork(owner, c, AnyJob);
    var s1 := Next(s, step);
    PushIs(s, owner, c, AnyJob);
    StepAdds(s, step, order);
    OneStep(s, step, order);
    PushElsewhere(s, step, other, c);
    assert Exists(s1.objects, job) && !SlotOf(s1.objects, job).work.Depends?;
    hide Next;
    hide Enabled;
    hide Disciplined;
    hide Adding;
    AddingFacts(s, s1, order);
    // the other log, up to the target
    var create, s2 := MakeObject(s1, order, owner, c, other);
    AddingFacts(s1, s2, order);
    var pushes, s3 := PushUntil(s2, order, other, c, id);
    AddingTwice(s, s1, s2, order);
    AddingTwice(s, s2, s3, order);
    AddingTwice(s1, s2, s3, order);
    AddingFacts(s, s3, order);
    AddingWaits(s, s3, order, owner, c, d, other, id);
    JobStays(s1, s3, order, job);
    // the target
    var last;
    last, t := PushTarget(s3, order, owner, c, d, other, id, job.id);
    ContinuesOn(s, [step], s1, create, s2, order);
    ContinuesOn(s, [step] + create, s2, pushes, s3, order);
    ContinuesOn(s, [step] + create + pushes, s3, last, t, order);
    steps := [step] + create + pushes + last;
  }

  lemma PushElsewhere(s: State, step: Step, o: nat, c: nat)
    requires Enabled(s, step) && step.PushWork? && step.owner != o
    ensures SlotCount(Next(s, step), o, c) == SlotCount(s, o, c)
  {
  }

  lemma JobStays(s: State, t: State, order: seq<nat>, job: Ref)
    requires Adding(s, t, order) && Exists(s.objects, job) && !SlotOf(s.objects, job).work.Depends?
    ensures Exists(t.objects, job) && !SlotOf(t.objects, job).work.Depends?
  {
    hide Inv;
  }

  /** The target becomes a dependency on the job. */
  lemma PushTarget(s: State, order: seq<nat>, owner: nat, c: nat, d: nat, other: nat, id: nat, job: nat)
    returns (steps: seq<Step>, t: State)
    requires Inv(s) && InRange(s) && CommonOrder(s, order) && Waits(s, owner, c, d, other, id)
    requires HasLog(s.objects, other, c) && SlotCount(s, other, c) == id
    requires Exists(s.objects, Ref(owner, c, job)) && !SlotOf(s.objects, Ref(owner, c, job)).work.Depends?
    ensures Continues(s, steps, t, order) && Inv(t) && InRange(t) && WaitsInVain(t, owner, c, d, other, id)
  {
    hide Inv;
    hide InRange;
    hide CommonOrder;
    hide WorkKept;
    var step := PushWork(other, c, Depends(owner, job));
    t := Next(s, step);
    PushIs(s, other, c, step.work);
    assert Disciplined(s, step, order);
    StepAdds(s, step, order);
    OneStep(s, step, order);
    AddingWaits(s, t, order, owner, c, d, other, id);
    hide Next;
    hide Adding;
    AddingFacts(s, t, order);
    steps := [step];
  }

  /** Every object can be unflagged, which leaves all logs as they are. */
  lemma {:induction false} UnflagAll(s: State, order: seq<nat>, rest: set<nat>, owner: nat, c: nat, d: nat,
      other: nat, id: nat)
    returns (steps: seq<Step>, t: State)
    requires Inv(s) && InRange(s) && rest <= s.objects.Keys && WaitsInVain(s, owner, c, d, other, id)
    requires forall o :: o in s.objects && o !in rest ==> !s.objects[o].flagged
    ensures Continues(s, steps, t, order) && Inv(t) && InRange(t) && WaitsInVain(t, owner, c, d, other, id)
    ensures forall o :: o in t.objects ==> !t.objects[o].flagged
    decreases rest
  {
    hide Inv;
    hide InRange;
    if rest == {} {
      NoStep(s, order);
      steps, t := [], s;
    } else {
      var o :| o in rest;
      var step := Unflag(o);
      var next := Next(s, step);
      StepKeeps(s, step);
      StepInRange(s, step);
      StepStaysBlocked(s, step, owner, c, d, other, id);
      OneStep(s, step, order);
      hide WaitsInVain;
      var more;
      more, t := UnflagAll(next, order, rest - {o}, owner, c, d, other, id);
      ContinuesOn(s, [step], next, more, t, order);
      steps := [step] + more;
    }
  }

  lemma VainBlocks(s: State, order: seq<nat>, owner: nat, c: nat, d: nat, other: nat, id: nat)
    requires Inv(s) && InRange(s) && WaitsInVain(s, owner, c, d, other, id)
    ensures !NeverBlocks(s, order)
  {
    hide Inv;
    hide WaitsInVain;
    var steps, t := UnflagAll(s, order, s.objects.Keys, owner, c, d, other, id);
    VainNeverDrains(t, owner, c, d, other, id);
    hide CanDrain;
    assert Alive(t);
  }

  lemma BlocksLater(s: State, steps: seq<Step>, t: State, order: seq<nat>)
    requires Continues(s, steps, t, order) && !NeverBlocks(t, order)
    ensures !NeverBlocks(s, order)
  {
    hide CanDrain;
    hide Alive;
    hide Continues;
    var more, u :| Continues(t, more, u, order) && Alive(u) && !CanDrain(u);
    ContinuesOn(s, steps, t, more, u, order);
  }

  // ---------------------------------------------------------------- the exact condition

  lemma PushKeepsOthers(s: State, owner: nat, c: nat, work: Work, ref: Ref)
    requires HasLog(s.objects, owner, c)
    ensures var t := Next(s, PushWork(owner, c, work));
            && (Exists(t.objects, ref) <==> Exists(s.objects, ref) || ref == Ref(owner, c, SlotCount(s, owner, c)))
            && (Exists(s.objects, ref) ==> SlotOf(t.objects, ref) == SlotOf(s.objects, ref))
            && CursorOf(t, owner, c) == CursorOf(s, owner, c)
  {
  }

  /** What the push of a dependency leaves: it waits, and in vain if its target exists and is
      a dependency, or is the dependency itself; otherwise the target may be missing. */
  lemma PushedWaits(s: State, owner: nat, c: nat, other: nat, id: nat)
    requires Inv(s) && HasLog(s.objects, owner, c) && !MayDepend(s, c, other, id)
    ensures var d := SlotCount(s, owner, c); var t := Next(s, PushWork(owner, c, Depends(other, id)));
            && Waits(t, owner, c, d, other, id)
            && (WaitsInVain(t, owner, c, d, other, id) || SlotCount(t, other, c) <= id)
  {
    OwnerFacts(s, owner, {});
    hide Inv;
    hide WellFormed;
    var d := SlotCount(s, owner, c);
    var t := Next(s, PushWork(owner, c, Depends(other, id)));
    PushIs(s, owner, c, Depends(other, id));
    PushKeepsOthers(s, owner, c, Depends(other, id), Ref(other, c, id));
    hide Next;
    assert HasLog(t.objects, owner, c) && Exists(t.objects, Ref(owner, c, d));
    assert CursorOf(t, owner, c) == CursorOf(s, owner, c) <= d;
    assert !Exists(t.objects, Ref(other, c, id)) ==> SlotCount(t, other, c) <= id;
  }

  /** The exact condition for a push, at the end of any disciplined run over one order: a
      dependency of `(owner, c)` on slot `id` of `other` leaves the system able to drain
      whenever its objects are alive, however the run goes on with disciplined pushes, if and
      only if its target exists at the push and is a job. */
  lemma DependencyExactly(states: seq<State>, steps: seq<Step>, order: seq<nat>, owner: nat, c: nat,
      other: nat, id: nat)
    requires IsRun(states, steps) && forall i :: 0 <= i < |steps| ==> Disciplined(states[i], steps[i], order)
    requires HasLog(states[|steps|].objects, owner, c)
    ensures Enabled(states[|steps|], PushWork(owner, c, Depends(other, id)))
    ensures NeverBlocks(Next(states[|steps|], PushWork(owner, c, Depends(other, id))), order) <==>
            MayDepend(states[|steps|], c, other, id)
  {
    var s := states[|steps|];
    var push := PushWork(owner, c, Depends(other, id));
    RunKeeps(states, steps, |steps|);
    RunInRange(states, steps, |steps|);
    RunIsDisciplined(states, steps, order, |steps|);
    hide Inv;
    hide IsRun;
    hide DependsBackward;
    hide CommonOrder;
    hide InRange;
    PushIs(s, owner, c, push.work);
    StepKeeps(s, push);
    hide Next;
    if MayDepend(s, c, other, id) {
      assert Disciplined(s, push, order);
      BackwardStays(s, push, order);
      OrderStays(s, push, order);
      BackwardNeverBlocks(Next(s, push), order);
    } else {
      PushedBlocks(s, order, owner, c, other, id);
    }
  }

  lemma PushedBlocks(s: State, order: seq<nat>, owner: nat, c: nat, other: nat, id: nat)
    requires Inv(s) && InRange(s) && CommonOrder(s, order) && HasLog(s.objects, owner, c) && !MayDepend(s, c, other, id)
    ensures !NeverBlocks(Next(s, PushWork(owner, c, Depends(other, id))), order)
  {
    var push := PushWork(owner, c, Depends(other, id));
    var t := Next(s, push);
    var d := SlotCount(s, owner, c);
    PushedWaits(s, owner, c, other, id);
    StepKeeps(s, push);
    StepInRange(s, push);
    OrderOfPush(s, push, order);
    hide Inv;
    hide InRange;
    hide CommonOrder;
    hide Next;
    hide Waits;
    hide WaitsInVain;
    hide NeverBlocks;
    if WaitsInVain(t, owner, c, d, other, id) {
      VainBlocks(t, order, owner, c, d, other, id);
    } else {
      var steps, u := MakeVain(t, order, owner, c, d, other, id);
      VainBlocks(u, order, owner, c, d, other, id);
      BlocksLater(t, steps, u, order);
    }
  }

  lemma OrderOfPush(s: State, step: Step, order: seq<nat>)
    requires CommonOrder(s, order) && Enabled(s, step) && step.PushWork?
    ensures CommonOrder(Next(s, step), order)
  {
  }
}
