/** The order in which objects visit their collections decides whether dependencies can
    block the system: it can always drain if and only if all objects use the same order. */
module IterationOrders {
  import opened TransactionLog
  import opened TransactionState
  import opened Scheduler
  import opened SchedulerInvariant
  import opened SchedulerTheorems
  import opened Progress
  import opened Draining

  // ---------------------------------------------------------------- objects that wait

  /** Object `o` has nothing to pass before position `i` of its order, and there it waits
      for a slot of another object that is not done. */
  ghost predicate BlockedAt(objects: map<nat, Tx>, o: nat, i: nat) {
    && o in objects && i < |objects[o].order| && PassedBefore(objects[o], 0, i)
    && var c := objects[o].order[i];
       && c in objects[o].logs && objects[o].logs[c].first < |objects[o].logs[c].slots|
       && var work := objects[o].logs[c].slots[objects[o].logs[c].first].work;
          && work.Depends? && Exists(objects, Ref(work.owner, c, work.id))
          && !SlotOf(objects, Ref(work.owner, c, work.id)).done
  }

  ghost predicate IsBlocked(objects: map<nat, Tx>, o: nat) {
    exists i: nat :: BlockedAt(objects, o, i)
  }

  /** There are objects, all of them wait, and nothing is in flight. */
  ghost predicate AllBlocked(s: State) {
    s.objects != map[] && Quiescent(s) && forall o :: o in s.objects ==> IsBlocked(s.objects, o)
  }

  lemma BlockedScan(log: Log, peers: Peers)
    requires Untouched(log) && log.first < |log.slots| && log.slots[log.first].work.Depends?
    requires !Met(peers, log.slots[log.first].work.owner, log.slots[log.first].work.id)
    ensures Scan(log, peers) == Sweep(log.first, [], Neither) && Advance(log, Scan(log, peers)) == log
  {
    assert Mark(log.slots, []) == log.slots;
  }

  /** With every object known, the dependency it waits for is not met. */
  lemma BlockedNotMet(s: State, o: nat, i: nat)
    requires BlockedAt(s.objects, o, i)
    ensures var c := s.objects[o].order[i];
            var log := s.objects[o].logs[c]; var work := log.slots[log.first].work;
            !Met(PeersOf(s.objects, s.objects.Keys, c), work.owner, work.id)
  {
    hide PassedBefore;
  }

  /** No update of such an object takes anything or moves any cursor. */
  lemma BlockedUpdate(s: State, o: nat, diff: nat)
    requires Inv(s) && IsBlocked(s.objects, o)
    ensures o in s.objects && WellFormed(s.objects[o])
    ensures var outcome := Update(s.objects[o], diff, EnvFor(s.objects, s.objects.Keys, o));
            && outcome.dispatches == [] && outcome.tx.logs == s.objects[o].logs &&
                outcome.tx.order == s.objects[o].order
  {
    hide Inv;
    hide Scan;
    hide Met;
    hide Update;
    hide PeersOf;
    hide PassedBefore;
    var i: nat :| BlockedAt(s.objects, o, i);
    var tx := s.objects[o];
    var c, log := tx.order[i], tx.logs[tx.order[i]];
    OwnerFacts(s, o, s.objects.Keys);
    InvHasValid(s);
    ObjectIsValid(s, o);
    hide WellFormed;
    hide Valid;
    hide Untouched;
    BlockedNotMet(s, o, i);
    BlockedScan(log, PeersOf(s.objects, s.objects.Keys, c));
    hide Advance;
    hide BlockedAt;
    BlockedPass(tx, i, diff, EnvFor(s.objects, s.objects.Keys, o));
  }

  lemma BlockedPass(tx: Tx, i: nat, diff: nat, env: map<nat, Peers>)
    requires WellFormed(tx) && tx.logs.Keys <= env.Keys && i < |tx.order| && PassedBefore(tx, 0, i) &&
             tx.order[i] in tx.logs
    requires var log := tx.logs[tx.order[i]];
             && log.first < |log.slots| && Scan(log, env[tx.order[i]]) == Sweep(log.first, [], Neither)
             && Advance(log, Scan(log, env[tx.order[i]])) == log
    ensures var outcome := Update(tx, diff, env);
            outcome.dispatches == [] && outcome.tx.logs == tx.logs && outcome.tx.order == tx.order
  {
    hide Scan;
    hide PassFrom;
    hide Advance;
    hide CanDelete;
    hide WellFormed;
    var open := tx.(since := 0);
    var c := tx.order[i];
    SinceIsFree(tx);
    PassReaches(open, 0, i, env);
    PassTurn(open, i, env);
    assert Take(open, c, env[c]).logs == tx.logs[c := tx.logs[c]] == tx.logs;
  }

  // ---------------------------------------------------------------- once blocked, always blocked

  /** Only flags and clocks differ. */
  ghost predicate SameLogs(before: map<nat, Tx>, after: map<nat, Tx>) {
    && after.Keys == before.Keys
    && forall o :: o in before ==> after[o].logs == before[o].logs && after[o].order == before[o].order
  }

  lemma SameLogsBlocked(before: map<nat, Tx>, after: map<nat, Tx>, o: nat)
    requires SameLogs(before, after) && IsBlocked(before, o)
    ensures IsBlocked(after, o)
  {
    var i: nat :| BlockedAt(before, o, i);
    assert BlockedAt(after, o, i);
  }

  lemma NothingForPool(s: State, step: Step)
    requires Inv(s) && Quiescent(s) && IsPoolStep(step)
    ensures !Enabled(s, step)
  {
    if Enabled(s, step) {
      PoolStepNeeds(s, step);
      hide Enabled;
      assert FlightValid(s.objects, s.flights[step.flight]);
      hide Inv;
      NothingLeft(s.objects, s.flights[step.flight]);
    }
  }

  lemma PoolStepNeeds(s: State, step: Step)
    requires Enabled(s, step) && IsPoolStep(step)
    ensures step.flight < |s.flights|
    ensures MayExecute(s.flights[step.flight]) || s.flights[step.flight].flagged < s.flights[step.flight].effected
  {
  }

  lemma NothingLeft(objects: map<nat, Tx>, f: Flight)
    requires FlightValid(objects, f) && f.flagged == |f.ids|
    ensures !MayExecute(f) && f.effected <= f.flagged
  {
  }

  lemma BlockedUpdated(s: State, owner: nat, diff: nat, t: State)
    requires Inv(s) && IsBlocked(s.objects, owner) && Updated(s, owner, diff, s.objects.Keys, t)
    ensures SameLogs(s.objects, t.objects) && t.flights == s.flights
  {
    hide Inv;
    hide Update;
    hide IsBlocked;
    BlockedUpdate(s, owner, diff);
    hide WellFormed;
    assert s.flights + FlightsOf(owner, []) == s.flights;
  }

  lemma MoveStaysBlocked(s: State, m: Move, t: State)
    requires Inv(s) && AllBlocked(s) && MoveTo(s, m, t) && (m.UpdateMove? ==> m.known == s.objects.Keys)
    ensures Inv(t) && AllBlocked(t) && t.objects.Keys == s.objects.Keys
  {
    MoveOnward(s, m, t);
    EachBlocked(s);
    hide Inv;
    hide IsBlocked;
    hide Onward;
    if m.PoolMove? {
      NothingForPool(s, m.step);
    } else {
      assert Updated(s, m.owner, m.diff, s.objects.Keys, t) && IsBlocked(s.objects, m.owner);
      hide MoveTo;
      hide Updated;
      BlockedUpdated(s, m.owner, m.diff, t);
      StillBlocked(s, t);
    }
  }

  lemma StillBlocked(s: State, t: State)
    requires AllBlocked(s) && SameLogs(s.objects, t.objects) && t.flights == s.flights
    ensures AllBlocked(t) && t.objects.Keys == s.objects.Keys
  {
    hide IsBlocked;
    forall o | o in t.objects
      ensures IsBlocked(t.objects, o)
    {
      SameLogsBlocked(s.objects, t.objects, o);
    }
    assert t.objects.Keys != {};
  }

  lemma {:induction false} StaysBlocked(states: seq<State>, moves: seq<Move>, k: nat)
    requires IsSchedule(states, moves) && k <= |moves| && AllKnow(moves, states[0].objects.Keys)
    requires Inv(states[0]) && AllBlocked(states[0])
    ensures Inv(states[k]) && AllBlocked(states[k]) && states[k].objects.Keys == states[0].objects.Keys
  {
    hide Inv;
    hide AllBlocked;
    hide MoveTo;
    if k > 0 {
      StaysBlocked(states, moves, k - 1);
      MoveStaysBlocked(states[k - 1], moves[k - 1], states[k]);
    }
  }

  lemma BlockedIsUnpassed(s: State)
    requires AllBlocked(s)
    ensures SomethingUnpassed(s)
  {
    var o :| o in s.objects;
    assert IsBlocked(s.objects, o);
    hide AllBlocked;
    BlockedSlot(s.objects, o);
  }

  lemma BlockedSlot(objects: map<nat, Tx>, o: nat)
    requires IsBlocked(objects, o)
    ensures exists ref :: Unpassed(objects, ref)
  {
    hide PassedBefore;
    var i: nat :| BlockedAt(objects, o, i);
    var c := objects[o].order[i];
    assert Unpassed(objects, Ref(o, c, objects[o].logs[c].first));
  }

  /** Such a system never drains, whatever is updated and executed, and when. */
  lemma BlockedNeverDrains(s: State)
    requires Inv(s) && AllBlocked(s)
    ensures !CanDrain(s)
  {
    hide Inv;
    hide AllBlocked;
    hide SomethingUnpassed;
    hide Quiescent;
    forall states, moves, t | Reaches(s, states, moves, t)
      ensures SomethingUnpassed(t)
    {
      StaysBlocked(states, moves, |moves|);
      BlockedIsUnpassed(t);
    }
  }

  // ---------------------------------------------------------------- two orders that cross

  /** One order visits `a` before `b`, the other `b` before `a`. */
  ghost predicate Inverts(first: seq<nat>, second: seq<nat>, a: nat, b: nat) {
    && (exists i, j :: 0 <= i < j < |first| && first[i] == a && first[j] == b)
    && (exists i, j :: 0 <= i < j < |second| && second[i] == b && second[j] == a)
  }

  /** Objects are created with one of `orders`, and dependencies name jobs. */
  ghost predicate DisciplinedIn(s: State, step: Step, orders: set<seq<nat>>) {
    if step.Create? then step.order in orders else Disciplined(s, step, [])
  }

  ghost predicate IsDisciplinedRun(states: seq<State>, steps: seq<Step>, orders: set<seq<nat>>) {
    IsRun(states, steps) && forall i :: 0 <= i < |steps| ==> DisciplinedIn(states[i], steps[i], orders)
  }

  lemma RunGrows(states: seq<State>, steps: seq<Step>, orders: set<seq<nat>>, step: Step)
    returns (longer: seq<State>, more: seq<Step>)
    requires IsDisciplinedRun(states, steps, orders) && Enabled(states[|steps|], step) &&
             DisciplinedIn(states[|steps|], step, orders)
    ensures IsDisciplinedRun(longer, more, orders) && |more| == |steps| + 1 &&
            longer[|more|] == Next(states[|steps|], step)
  {
    longer, more := states + [Next(states[|steps|], step)], steps + [step];
    hide Next;
    hide DisciplinedIn;
    forall i | 0 <= i < |more|
      ensures Enabled(longer[i], more[i]) && longer[i + 1] == Next(longer[i], more[i]) &&
              DisciplinedIn(longer[i], more[i], orders)
    {
      if i < |steps| {
        assert longer[i] == states[i] && longer[i + 1] == states[i + 1] && more[i] == steps[i];
      }
    }
  }

  const Job: Work := Write(Insert, "", "")

  /** Object `waiter` waits in `a` for slot 0 of `other`, and has a job in `b`. */
  function Waiting(order: seq<nat>, a: nat, b: nat, other: nat): Tx
    requires a in order && b in order
  {
    PushTo(PushTo(Init(order, 0), b, Job), a, Depends(other, 0))
  }

  /** Objects 0 and 1 each push a job where the other visits first, then wait for it. */
  lemma Cross(first: seq<nat>, second: seq<nat>, a: nat, b: nat) returns (states: seq<State>, steps: seq<Step>)
    requires Distinct(first) && Distinct(second) && a != b && a in first && b in first && a in second && b in second
    ensures IsDisciplinedRun(states, steps, {first, second})
    ensures var s := states[|steps|];
            && s.flights == [] && s.objects.Keys == {0, 1}
            && s.objects[0] == Waiting(first, a, b, 1) && s.objects[1] == Waiting(second, b, a, 0)
  {
    var orders := {first, second};
    states, steps := [Initial], [];
    states, steps := RunGrows(states, steps, orders, Create(0, first, 0));
    states, steps := RunGrows(states, steps, orders, Create(1, second, 0));
    states, steps := CrossJobs(states, steps, first, second, a, b);
    states, steps := RunGrows(states, steps, orders, PushWork(0, a, Depends(1, 0)));
    states, steps := RunGrows(states, steps, orders, PushWork(1, b, Depends(0, 0)));
  }

  lemma CrossJobs(states: seq<State>, steps: seq<Step>, first: seq<nat>, second: seq<nat>, a: nat, b: nat)
    returns (longer: seq<State>, more: seq<Step>)
    requires IsDisciplinedRun(states, steps, {first, second}) && a != b && a in first && b in first && a in second &&
             b in second
    requires var s := states[|steps|];
             && s.flights == [] && s.objects.Keys == {0, 1} && s.objects[0] == Init(first, 0) &&
                 s.objects[1] == Init(second, 0)
    ensures IsDisciplinedRun(longer, more, {first, second})
    ensures var s := longer[|more|];
            && s.flights == [] && s.objects.Keys == {0, 1}
            && s.objects[0] == PushTo(Init(first, 0), b, Job) && s.objects[1] == PushTo(Init(second, 0), a, Job)
  {
    longer, more := RunGrows(states, steps, {first, second}, PushWork(0, b, Job));
    longer, more := RunGrows(longer, more, {first, second}, PushWork(1, a, Job));
  }

  lemma WaitingLogs(order: seq<nat>, a: nat, b: nat, other: nat)
    requires a in order && b in order && a != b
    ensures var tx := Waiting(order, a, b, other);
            && tx.order == order && tx.logs.Keys == Elements(order)
            && tx.logs[a] == Log(0, [Fresh(Depends(other, 0))]) && tx.logs[b] == Log(0, [Fresh(Job)])
            && (forall c :: c in order && c != a && c != b ==> tx.logs[c] == Log(0, []))
  {
    assert Push(Log(0, []), Job) == Log(0, [Fresh(Job)]);
    assert Push(Log(0, []), Depends(other, 0)) == Log(0, [Fresh(Depends(other, 0))]);
  }

  lemma WaitingIsAlive(order: seq<nat>, a: nat, b: nat, other: nat)
    requires a in order && b in order
    ensures AliveObject(Waiting(order, a, b, other))
  {
  }

  lemma WaitingIsBlocked(objects: map<nat, Tx>, o: nat, order: seq<nat>, a: nat, b: nat, other: nat, order': seq<nat>)
    requires Distinct(order) && a in order' && b in order' && a != b && o in objects && other in objects
    requires exists i, j :: 0 <= i < j < |order| && order[i] == a && order[j] == b
    requires objects[o] == Waiting(order, a, b, other) && objects[other] == Waiting(order', b, a, o)
    ensures IsBlocked(objects, o)
  {
    var i, j :| 0 <= i < j < |order| && order[i] == a && order[j] == b;
    WaitingLogs(order, a, b, other);
    WaitingLogs(order', b, a, o);
    hide Waiting;
    assert Exists(objects, Ref(other, a, 0));
    assert BlockedAt(objects, o, i);
  }

  /** For any two orders that visit some pair of collections in opposite order there is a
      disciplined run, with every dependency on a job pushed before it, to a state with
      nothing in flight and slots unpassed, in which no update of any object, at any time,
      dispatches anything or moves any cursor, and from which the system never drains. */
  lemma OrdersMatter(first: seq<nat>, second: seq<nat>, a: nat, b: nat) returns (states: seq<State>, steps: seq<Step>)
    requires Distinct(first) && Distinct(second) && Inverts(first, second, a, b)
    ensures IsDisciplinedRun(states, steps, {first, second})
    ensures var s := states[|steps|];
            && Inv(s) && DependsBackward(s) && Alive(s) && Quiescent(s) && SomethingUnpassed(s) && !CanDrain(s)
            && (forall o, diff :: o in s.objects ==> UpdateIsStuck(s.objects, o, diff))
  {
    states, steps := Cross(first, second, a, b);
    var s := states[|steps|];
    CrossedBlocks(s, first, second, a, b);
    hide Waiting;
    RunKeeps(states, steps, |steps|);
    RunIsBackward(states, steps, {first, second}, |steps|);
    hide Inv;
    hide AllBlocked;
    hide IsBlocked;
    hide Update;
    hide IsDisciplinedRun;
    BlockedNeverDrains(s);
    BlockedIsUnpassed(s);
    EachBlocked(s);
    forall o, diff | o in s.objects
      ensures UpdateIsStuck(s.objects, o, diff)
    {
      BlockedUpdate(s, o, diff);
    }
  }

  lemma EachBlocked(s: State)
    requires AllBlocked(s)
    ensures Quiescent(s) && forall o :: o in s.objects ==> IsBlocked(s.objects, o)
  {
  }

  lemma CrossedBlocks(s: State, first: seq<nat>, second: seq<nat>, a: nat, b: nat)
    requires Distinct(first) && Distinct(second) && Inverts(first, second, a, b)
    requires s.flights == [] && s.objects.Keys == {0, 1}
    requires a in first && b in first && a in second && b in second
    requires s.objects[0] == Waiting(first, a, b, 1) && s.objects[1] == Waiting(second, b, a, 0)
    ensures AllBlocked(s) && Alive(s)
  {
    hide IsBlocked;
    hide Waiting;
    WaitingIsBlocked(s.objects, 0, first, a, b, 1, second);
    WaitingIsBlocked(s.objects, 1, second, b, a, 0, first);
    WaitingLogs(first, a, b, 1);
    WaitingLogs(second, b, a, 0);
    WaitingIsAlive(first, a, b, 1);
    WaitingIsAlive(second, b, a, 0);
    hide Inverts;
    hide Distinct;
    assert 0 in s.objects;
    forall o | o in s.objects
      ensures AliveObject(s.objects[o])
    {
      assert o in s.objects.Keys && (o == 0 || o == 1);
      assert s.objects[o] == if o == 0 then Waiting(first, a, b, 1) else Waiting(second, b, a, 0);
    }
  }

  /** This update dispatches nothing and leaves every log as it is. */
  ghost predicate UpdateIsStuck(objects: map<nat, Tx>, o: nat, diff: nat)
    requires o in objects
  {
    && WellFormed(objects[o])
    && var outcome := Update(objects[o], diff, EnvFor(objects, objects.Keys, o));
       outcome.tx.logs == objects[o].logs && outcome.dispatches == []
  }

  lemma {:induction false} RunIsBackward(states: seq<State>, steps: seq<Step>, orders: set<seq<nat>>, i: nat)
    requires IsDisciplinedRun(states, steps, orders) && i <= |steps|
    ensures DependsBackward(states[i])
  {
    hide Inv;
    hide Next;
    hide Enabled;
    hide JobBefore;
    if i > 0 {
      RunIsBackward(states, steps, orders, i - 1);
      RunKeeps(states, steps, i - 1);
      BackwardStays(states[i - 1], steps[i - 1], if steps[i - 1].Create? then steps[i - 1].order else []);
    }
  }

  // ---------------------------------------------------------------- exactly when it drains

  function Elements(order: seq<nat>): (collections: set<nat>)
    ensures forall c :: c in collections <==> c in order
  {
    set c | c in order
  }

  /** Orders over the same collections that never visit two of them in opposite order are
      the same. */
  lemma {:induction false} NoInversion(first: seq<nat>, second: seq<nat>) returns (a: nat, b: nat)
    requires Distinct(first) && Distinct(second) && first != second
    requires Elements(first) == Elements(second)
    ensures Inverts(first, second, a, b)
  {
    SameLengths(first, second);
    var i := FirstDifference(first, second, 0);
    a, b := first[i], second[i];
    assert a in Elements(first) && b in Elements(second);
    var j :| 0 <= j < |second| && second[j] == a;
    var k :| 0 <= k < |first| && first[k] == b;
    assert i < j && i < k;
  }

  lemma {:induction false} FirstDifference(first: seq<nat>, second: seq<nat>, k: nat) returns (i: nat)
    requires |first| == |second| && first != second && k <= |first| && first[..k] == second[..k]
    ensures i < |first| && first[i] != second[i] && forall j :: 0 <= j < i ==> first[j] == second[j]
    decreases |first| - k
  {
    assert first[..|first|] == first && second[..|second|] == second;
    if first[k] != second[k] {
      i := k;
      assert forall j :: 0 <= j < k ==> first[j] == first[..k][j] == second[..k][j] == second[j];
    } else {
      assert first[..k + 1] == first[..k] + [first[k]] && second[..k + 1] == second[..k] + [second[k]];
      i := FirstDifference(first, second, k + 1);
    }
  }

  lemma SameLengths(first: seq<nat>, second: seq<nat>)
    requires Distinct(first) && Distinct(second) && Elements(first) == Elements(second)
    ensures |first| == |second|
  {
    CountDistinct(first);
    CountDistinct(second);
  }

  lemma {:induction false} CountDistinct(order: seq<nat>)
    requires Distinct(order)
    ensures |Elements(order)| == |order|
  {
    if order != [] {
      var n := |order| - 1;
      CountDistinct(order[..n]);
      assert Elements(order) == Elements(order[..n]) + {order[n]};
      assert order[n] !in order[..n];
    }
  }

  /** Whatever disciplined run with objects of these orders ends with its objects alive can
      go on to pass everything. */
  ghost predicate AlwaysDrains(orders: set<seq<nat>>) {
    forall states, steps :: IsDisciplinedRun(states, steps, orders) && Alive(states[|steps|]) ==>
        CanDrain(states[|steps|])
  }

  /** For objects over one set of collections, however it is ordered in each: dependencies
      on earlier jobs can never block the system if and only if all orders are the same. */
  lemma OrdersDecide(orders: set<seq<nat>>, collections: set<nat>)
    requires forall o :: o in orders ==> Distinct(o) && Elements(o) == collections
    ensures AlwaysDrains(orders) <==> forall o, p :: o in orders && p in orders ==> o == p
  {
    if forall o, p :: o in orders && p in orders ==> o == p {
      forall states, steps | IsDisciplinedRun(states, steps, orders) && Alive(states[|steps|])
        ensures CanDrain(states[|steps|])
      {
        OneOrderDrains(states, steps, orders);
      }
    } else {
      hide CanDrain;
      var first, second :| first in orders && second in orders && first != second;
      var a, b := NoInversion(first, second);
      var states, steps := OrdersMatter(first, second, a, b);
      hide Inv;
      hide Alive;
      MoreOrders(states, steps, {first, second}, orders);
    }
  }

  lemma MoreOrders(states: seq<State>, steps: seq<Step>, orders: set<seq<nat>>, more: set<seq<nat>>)
    requires IsDisciplinedRun(states, steps, orders) && orders <= more
    ensures IsDisciplinedRun(states, steps, more)
  {
    hide Next;
    hide Enabled;
    hide Disciplined;
    forall i | 0 <= i < |steps|
      ensures DisciplinedIn(states[i], steps[i], more)
    {
      assert DisciplinedIn(states[i], steps[i], orders);
    }
  }

  lemma OneOrderDrains(states: seq<State>, steps: seq<Step>, orders: set<seq<nat>>)
    requires IsDisciplinedRun(states, steps, orders) && Alive(states[|steps|])
    requires forall o, p :: o in orders && p in orders ==> o == p
    ensures CanDrain(states[|steps|])
  {
    var order := if o :| o in orders then o else [];
    forall i | 0 <= i < |steps|
      ensures Disciplined(states[i], steps[i], order)
    {
      assert DisciplinedIn(states[i], steps[i], orders);
    }
    var all, more := RunCanAlwaysDrain(states, steps, order);
  }
}
