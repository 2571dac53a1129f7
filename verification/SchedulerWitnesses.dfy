/** Concrete runs that show which hypotheses of the scheduler's theorems are needed. */
module SchedulerWitnesses {
  import opened TransactionLog
  import opened TransactionState
  import opened Scheduler
  import opened SchedulerInvariant
  import opened SchedulerTheorems
  import opened DispatchOrder
  import opened Progress
  import opened Blocking
  import opened Deletion
  import opened DeletionLimits

  /** A run as its steps and the state it ends in. */
  lemma {:induction false} LeadsMore(s: State, steps: seq<Step>, t: State, step: Step)
    requires Leads(s, steps, t) && Enabled(t, step)
    ensures Leads(s, steps + [step], Next(t, step))
  {
    assert Leads(t, [step], Next(t, step)) by {
      assert [step][1..] == [];
    }
    LeadsOn(s, steps, t, [step], Next(t, step));
  }

  const SomeWrite := Write(Insert, "", "")

  /** One object with one collection. */
  function OneTx(log: Log, callables: nat, flagged: bool): Tx {
    Tx(map[0 := log], [0], 0, 0, callables, flagged, false)
  }

  lemma Put<V>(x: V, y: V)
    ensures map[0 := x][0 := y] == map[0 := y]
  {
  }

  lemma OnePush(s: State, log: Log, callables: nat, work: Work)
    requires s.objects == map[0 := OneTx(log, callables, false)] && callables < 255
    ensures Next(s, PushWork(0, 0, work)).objects ==
            map[0 := OneTx(Push(log, work), if work.Call? then callables + 1 else callables, false)]
  {
    Put(log, Push(log, work));
    Put(OneTx(log, callables, false), PushTo(OneTx(log, callables, false), 0, work));
  }

  lemma OneCut(s: State, log: Log, callables: nat, sweep: Sweep)
    requires s.objects == map[0 := OneTx(log, callables, false)]
    requires log.first <= |log.slots| && sweep == Scan(log, PeersOf(s.objects, {}, 0)) && sweep.ids != []
    requires CallsOf(sweep) <= callables < U8
    ensures var t := Next(s, CutBatch(0, 0, {}));
            && t.objects == map[0 := OneTx(Advance(log, sweep), callables - CallsOf(sweep), false)]
            && t.flights == s.flights + [Flight(0, 0, sweep.ids, sweep.run, 0, 0)] && t.trace == s.trace
  {
    hide Scan;
    Put(log, Advance(log, sweep));
    Put(OneTx(log, callables, false), Take(OneTx(log, callables, false), 0, PeersOf(s.objects, {}, 0)));
  }

  const A := Fresh(SomeWrite)
  const B := Fresh(Call(0))
  const Sent := Slot(SomeWrite, true, false)
  const Called := Slot(Call(0), true, false)

  /** A write and a callable are pushed and cut into two batches. */
  lemma TwoPushes() returns (steps: seq<Step>, t: State)
    ensures Leads(Initial, steps, t) && t.flights == [] && t.trace == []
    ensures t.objects == map[0 := OneTx(Log(0, [A, B]), 1, false)]
  {
    var a, b, c := Create(0, [0], 0), PushWork(0, 0, SomeWrite), PushWork(0, 0, Call(0));
    var s1 := Next(Initial, a);
    assert Init([0], 0) == OneTx(Log(0, []), 0, false);
    assert s1.objects == map[0 := OneTx(Log(0, []), 0, false)];
    LeadsMore(Initial, [], Initial, a);
    OnePush(s1, Log(0, []), 0, SomeWrite);
    assert [] + [A] == [A];
    var s2 := Next(s1, b);
    LeadsMore(Initial, [] + [a], s1, b);
    OnePush(s2, Log(0, [A]), 0, Call(0));
    assert [A] + [B] == [A, B];
    t := Next(s2, c);
    LeadsMore(Initial, [] + [a] + [b], s2, c);
    steps := [] + [a] + [b] + [c];
  }

  lemma TwoScans(peers: Peers)
    ensures Scan(Log(0, [A, B]), peers) == Sweep(1, [0], Writes)
    ensures Advance(Log(0, [A, B]), Sweep(1, [0], Writes)) == Log(1, [Sent, B])
    ensures Scan(Log(1, [Sent, B]), peers) == Sweep(2, [1], Calls)
    ensures Advance(Log(1, [Sent, B]), Sweep(2, [1], Calls)) == Log(2, [Sent, Called])
  {
    assert ScanFrom([A, B], 1, Writes, peers) == Sweep(1, [], Writes);
    assert ScanFrom([A, B], 0, Neither, peers) == Sweep(1, [0] + [], Writes);
    assert ScanFrom([Sent, B], 2, Calls, peers) == Sweep(2, [], Calls);
    assert ScanFrom([Sent, B], 1, Neither, peers) == Sweep(2, [1] + [], Calls);
  }

  lemma TwoBatchesInFlight() returns (steps: seq<Step>, t: State)
    ensures Leads(Initial, steps, t) && t.trace == []
    ensures t.objects == map[0 := OneTx(Log(2, [Sent, Called]), 0, false)]
    ensures t.flights == [Flight(0, 0, [0], Writes, 0, 0), Flight(0, 0, [1], Calls, 0, 0)]
  {
    hide Scan;
    var before, s := TwoPushes();
    var step := CutBatch(0, 0, {});
    TwoScans(PeersOf(s.objects, {}, 0));
    OneCut(s, Log(0, [A, B]), 1, Sweep(1, [0], Writes));
    LeadsMore(Initial, before, s, step);
    var u := Next(s, step);
    TwoScans(PeersOf(u.objects, {}, 0));
    OneCut(u, Log(1, [Sent, B]), 1, Sweep(2, [1], Calls));
    LeadsMore(Initial, before + [step], u, step);
    t := Next(u, step);
    steps := before + [step] + [step];
  }

  /** An update of the object would answer that it can go. */
  ghost predicate SaysGo(s: State, owner: nat, diff: nat, known: set<nat>) {
    && owner in s.objects && WellFormed(s.objects[owner])
    && !Update(s.objects[owner], diff, EnvFor(s.objects, known, owner)).keep
  }

  /** Without in-order completion a flagged object can be told that it can go while an
      earlier batch is still in flight, and the effects are out of push order. */
  lemma EarlyDeletion() returns (states: seq<State>, steps: seq<Step>)
    ensures IsRun(states, steps)
    ensures var s := states[|steps|];
            && HasLog(s.objects, 0, 0) && s.objects[0].flagged && !s.objects[0].scheduled
            && (forall diff, known :: SaysGo(s, 0, diff, known))
            && |s.flights| == 2 && s.flights[0].owner == 0 && s.flights[0].flagged < |s.flights[0].ids|
            && !AllDone(s, 0, 0) && !PushOrdered(s, 0, 0)
  {
    var steps', w := EarlyDeletionPath();
    steps := steps';
    LastIsOutOfOrder(w);
    forall diff, known
      ensures SaysGo(w, 0, diff, known)
    {
      KeepsUnlessTold(w.objects[0], diff, EnvFor(w.objects, known, 0));
    }
    assert IsRun([Initial], []);
    states := RunExtends([Initial], [], steps, w);
    assert [] + steps == steps;
  }

  lemma EarlyDeletionPath() returns (steps: seq<Step>, w: State)
    ensures Leads(Initial, steps, w) && w.trace == [Ref(0, 0, 1)]
    ensures w.objects == map[0 := OneTx(Log(2, [Sent, Slot(Call(0), false, true)]), 0, true)]
    ensures |w.flights| == 2 && w.flights[0] == Flight(0, 0, [0], Writes, 0, 0)
  {
    var before, s := TwoBatchesInFlight();
    var u := Next(s, Execute(1));
    LeadsMore(Initial, before, s, Execute(1));
    var v := Next(u, Finish(1));
    LeadsMore(Initial, before + [Execute(1)], u, Finish(1));
    var last := Log(2, [Sent, Slot(Call(0), false, true)]);
    assert [Sent, Called][1 := Slot(Call(0), false, true)] == [Sent, Slot(Call(0), false, true)];
    Put(Log(2, [Sent, Called]), last);
    Put(OneTx(Log(2, [Sent, Called]), 0, false), OneTx(last, 0, false));
    assert v.objects == map[0 := OneTx(last, 0, false)];
    w := Next(v, Flag(0));
    LeadsMore(Initial, before + [Execute(1)] + [Finish(1)], v, Flag(0));
    Put(OneTx(last, 0, false), OneTx(last, 0, true));
    assert w.objects == map[0 := OneTx(last, 0, true)];
    steps := before + [Execute(1)] + [Finish(1)] + [Flag(0)];
  }

  lemma LastIsOutOfOrder(w: State)
    requires w.objects == map[0 := OneTx(Log(2, [Sent, Slot(Call(0), false, true)]), 0, true)]
    requires w.trace == [Ref(0, 0, 1)]
    ensures !PushOrdered(w, 0, 0)
  {
    var slots := [Sent, Slot(Call(0), false, true)];
    assert w.trace[..0] == [];
    assert IdsOf(w.trace, 0, 0) == [] + [1];
    assert Jobs(slots, 2, 2) == [];
    assert Jobs(slots, 1, 2) == [1] + [];
    assert Jobs(slots, 0, 2) == [0] + [1];
    assert IdsOf(w.trace, 0, 0)[0] == 1 && Jobs(slots, 0, 2)[0] == 0;
  }

  // ---------------------------------------------------------------- a dependency on a dependency

  const First := Fresh(Depends(1, 0))
  const Second := Fresh(Depends(0, 0))

  /** The run goes on, and scans of the log always find its owner. */
  ghost predicate GoesOn(states: seq<State>, steps: seq<Step>, all: seq<State>, more: seq<Step>) {
    && IsRun(all, more) && states <= all && steps <= more
    && forall k :: |steps| <= k < |more| ==> Finds(more[k], 0, 0, 0)
  }

  /** An object pushes a dependency, a dependency on that dependency, and a write. However
      this run goes on, the write never takes effect. */
  lemma DependencyOnDependency() returns (states: seq<State>, steps: seq<Step>)
    ensures IsRun(states, steps)
    ensures WaitsInVain(states[|steps|], 0, 0, 1, 0, 0)
    ensures Unpassed(states[|steps|].objects, Ref(0, 0, 2)) &&
            SlotOf(states[|steps|].objects, Ref(0, 0, 2)).work == SomeWrite
    ensures forall all: seq<State>, more: seq<Step>, j: nat ::
              GoesOn(states, steps, all, more) && |steps| <= j <= |more| ==>
                Ref(0, 0, 2) !in all[j].trace
  {
    var steps', s := PushBoth();
    steps := steps';
    assert IsRun([Initial], []);
    states := RunExtends([Initial], [], steps, s);
    assert [] + steps == steps;
    forall all: seq<State>, more: seq<Step>, j: nat | GoesOn(states, steps, all, more) && |steps| <= j <= |more|
      ensures Ref(0, 0, 2) !in all[j].trace
    {
      assert all[|steps|] == states[|steps|];
      VainDependencyBlocks(all, more, |steps|, j, 0, 0, 1, 0, 0);
    }
  }

  lemma PushBoth() returns (steps: seq<Step>, t: State)
    ensures Leads(Initial, steps, t)
    ensures t.objects == map[0 := OneTx(Log(0, [First, Second, A]), 0, false)]
  {
    var a, b, c, d := Create(0, [0], 0), PushWork(0, 0, First.work), PushWork(0, 0, Second.work),
        PushWork(0, 0, SomeWrite);
    var s1 := Next(Initial, a);
    assert Init([0], 0) == OneTx(Log(0, []), 0, false);
    assert s1.objects == map[0 := OneTx(Log(0, []), 0, false)];
    LeadsMore(Initial, [], Initial, a);
    OnePush(s1, Log(0, []), 0, First.work);
    assert [] + [First] == [First];
    var s2 := Next(s1, b);
    LeadsMore(Initial, [] + [a], s1, b);
    OnePush(s2, Log(0, [First]), 0, Second.work);
    assert [First] + [Second] == [First, Second];
    var s3 := Next(s2, c);
    LeadsMore(Initial, [] + [a] + [b], s2, c);
    OnePush(s3, Log(0, [First, Second]), 0, SomeWrite);
    assert [First, Second] + [A] == [First, Second, A];
    t := Next(s3, d);
    LeadsMore(Initial, [] + [a] + [b] + [c], s3, d);
    steps := [] + [a] + [b] + [c] + [d];
  }

  // ---------------------------------------------------------------- kept for ever

  const Done := Slot(SomeWrite, false, true)

  /** The run goes on, and nothing more is pushed to the log. */
  ghost predicate PushesNoMore(states: seq<State>, steps: seq<Step>, all: seq<State>, more: seq<Step>) {
    && IsRun(all, more) && states <= all && steps <= more
    && forall k :: |steps| <= k < |more| ==> !PushesTo(more[k], 0, 0)
  }

  /** Every update of the object, whatever time has elapsed and whatever its getter knows,
      answers that it is to be kept. */
  ghost predicate AlwaysKept(s: State, owner: nat) {
    && owner in s.objects && WellFormed(s.objects[owner])
    && forall diff, known: set<nat> :: Update(s.objects[owner], diff, EnvFor(s.objects, known, owner)).keep
  }

  /** An object that is flagged and has all its work done, with nothing in flight, but whose
      log ends in a dependency: however the run goes on, unless more is pushed to the log, no
      update ever tells the object to go. */
  lemma KeptForEver() returns (states: seq<State>, steps: seq<Step>)
    ensures IsRun(states, steps)
    ensures var s := states[|steps|];
            && HasLog(s.objects, 0, 0) && s.objects[0].flagged && AllDone(s, 0, 0) && Quiescent(s) && Trails(s, 0, 0)
    ensures forall all: seq<State>, more: seq<Step>, j: nat ::
              PushesNoMore(states, steps, all, more) && |steps| <= j <= |more| ==>
                AlwaysKept(all[j], 0)
  {
    var steps', s := KeptPath();
    steps := steps';
    KeptFacts(s);
    assert IsRun([Initial], []);
    states := RunExtends([Initial], [], steps, s);
    assert [] + steps == steps;
    hide Trails;
    hide AllDone;
    hide Quiescent;
    hide Leads;
    forall all: seq<State>, more: seq<Step>, j: nat | PushesNoMore(states, steps, all, more) && |steps| <= j <= |more|
      ensures AlwaysKept(all[j], 0)
    {
      assert all[|steps|] == states[|steps|];
      KeptAlways(all, more, |steps|, j);
    }
  }

  lemma KeptAlways(states: seq<State>, steps: seq<Step>, i: nat, j: nat)
    requires IsRun(states, steps) && i <= j <= |steps| && Trails(states[i], 0, 0)
    requires forall k :: i <= k < |steps| ==> !PushesTo(steps[k], 0, 0)
    ensures AlwaysKept(states[j], 0)
  {
    hide Next;
    hide Enabled;
    hide Gate;
    hide Update;
    TrailingDependencyKeeps(states, steps, i, j, 0, 0, 0, {});
    forall diff, known: set<nat>
      ensures Update(states[j].objects[0], diff, EnvFor(states[j].objects, known, 0)).keep
    {
      TrailingDependencyKeeps(states, steps, i, j, 0, 0, diff, known);
    }
    TrailsIn(states[j]);
  }

  lemma TrailsIn(s: State)
    requires Trails(s, 0, 0)
    ensures 0 in s.objects
  {
  }

  lemma KeptFacts(s: State)
    requires s.objects == map[0 := OneTx(Log(2, [Done, First]), 0, true)]
    requires s.flights == [Flight(0, 0, [0], Writes, 1, 1)]
    ensures HasLog(s.objects, 0, 0) && s.objects[0].flagged && AllDone(s, 0, 0) && Quiescent(s) && Trails(s, 0, 0)
  {
  }

  lemma KeptPath() returns (steps: seq<Step>, t: State)
    ensures Leads(Initial, steps, t)
    ensures t.objects == map[0 := OneTx(Log(2, [Done, First]), 0, true)]
    ensures t.flights == [Flight(0, 0, [0], Writes, 1, 1)]
  {
    var before, s := KeptExecuted();
    LeadsMore(Initial, before, s, Finish(0));
    KeptFinish(s);
    var s1 := Next(s, Finish(0));
    LeadsMore(Initial, before + [Finish(0)], s1, Flag(0));
    t := Next(s1, Flag(0));
    Put(OneTx(Log(2, [Done, First]), 0, false), OneTx(Log(2, [Done, First]), 0, true));
    steps := before + [Finish(0)] + [Flag(0)];
  }

  lemma KeptExecuted() returns (steps: seq<Step>, t: State)
    ensures Leads(Initial, steps, t)
    ensures t.objects == map[0 := OneTx(Log(2, [Sent, First]), 0, false)]
    ensures t.flights == [Flight(0, 0, [0], Writes, 1, 0)]
  {
    hide Scan;
    var before, s := KeptPushes();
    var cut := CutBatch(0, 0, {});
    KeptScan(PeersOf(s.objects, {}, 0));
    OneCut(s, Log(0, [A, First]), 0, Sweep(2, [0], Writes));
    LeadsMore(Initial, before, s, cut);
    var s1 := Next(s, cut);
    LeadsMore(Initial, before + [cut], s1, Execute(0));
    t := Next(s1, Execute(0));
    steps := before + [cut] + [Execute(0)];
  }

  lemma KeptFinish(s: State)
    requires s.objects == map[0 := OneTx(Log(2, [Sent, First]), 0, false)]
    requires s.flights == [Flight(0, 0, [0], Writes, 1, 0)]
    ensures Enabled(s, Finish(0))
    ensures Next(s, Finish(0)).objects == map[0 := OneTx(Log(2, [Done, First]), 0, false)]
    ensures Next(s, Finish(0)).flights == [Flight(0, 0, [0], Writes, 1, 1)]
  {
    assert [Sent, First][0 := Done] == [Done, First];
    Put(Log(2, [Sent, First]), Log(2, [Done, First]));
    Put(OneTx(Log(2, [Sent, First]), 0, false), OneTx(Log(2, [Done, First]), 0, false));
  }

  lemma KeptPushes() returns (steps: seq<Step>, t: State)
    ensures Leads(Initial, steps, t) && t.flights == [] && t.trace == []
    ensures t.objects == map[0 := OneTx(Log(0, [A, First]), 0, false)]
  {
    var a, b, c := Create(0, [0], 0), PushWork(0, 0, SomeWrite), PushWork(0, 0, First.work);
    var s1 := Next(Initial, a);
    assert Init([0], 0) == OneTx(Log(0, []), 0, false);
    assert s1.objects == map[0 := OneTx(Log(0, []), 0, false)];
    LeadsMore(Initial, [], Initial, a);
    OnePush(s1, Log(0, []), 0, SomeWrite);
    assert [] + [A] == [A];
    var s2 := Next(s1, b);
    LeadsMore(Initial, [] + [a], s1, b);
    OnePush(s2, Log(0, [A]), 0, First.work);
    assert [A] + [First] == [A, First];
    t := Next(s2, c);
    LeadsMore(Initial, [] + [a] + [b], s2, c);
    steps := [] + [a] + [b] + [c];
  }

  lemma KeptScan(peers: Peers)
    requires peers == map[]
    ensures Scan(Log(0, [A, First]), peers) == Sweep(2, [0], Writes)
    ensures Advance(Log(0, [A, First]), Sweep(2, [0], Writes)) == Log(2, [Sent, First])
  {
    assert ScanFrom([A, First], 2, Writes, peers) == Sweep(2, [], Writes);
    assert ScanFrom([A, First], 1, Writes, peers) == Sweep(2, [], Writes);
    assert ScanFrom([A, First], 0, Neither, peers) == Sweep(2, [0] + [], Writes);
  }
}
