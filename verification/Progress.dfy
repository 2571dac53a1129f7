/** Dependencies cannot block the system for good, if every object visits its collections in
    one common order and every dependency names a job pushed before it. */
module Progress {
  import opened TransactionLog
  import opened TransactionState
  import opened Scheduler
  import opened SchedulerInvariant
  import opened SchedulerTheorems

  // ---------------------------------------------------------------- hypotheses

  /** Every dependency names a job that was pushed earlier, in the same collection. */
  ghost predicate DependsBackward(s: State) {
    forall p :: 0 <= p < |s.pushes| && Exists(s.objects, s.pushes[p]) ==>
      var work := SlotOf(s.objects, s.pushes[p]).work;
      work.Depends? ==> JobBefore(s, p, Ref(work.owner, s.pushes[p].collection, work.id))
  }

  ghost predicate JobBefore(s: State, p: nat, target: Ref)
    requires p <= |s.pushes|
  {
    target in s.pushes[..p] && Exists(s.objects, target) && !SlotOf(s.objects, target).work.Depends?
  }

  ghost predicate CommonOrder(s: State, order: seq<nat>) {
    forall o :: o in s.objects ==> s.objects[o].order == order
  }

  predicate AllPassed(tx: Tx) {
    forall c :: c in tx.logs ==> tx.logs[c].first == |tx.logs[c].slots|
  }

  /** No object that has been told that it can go has anything left to pass, and every gate
      can be opened by waiting. */
  ghost predicate AliveObject(tx: Tx) {
    (tx.flagged && tx.scheduled ==> AllPassed(tx)) && tx.since < U64 && tx.every < U64
  }

  ghost predicate Alive(s: State) {
    forall o :: o in s.objects ==> AliveObject(s.objects[o])
  }

  /** No batch is in flight. */
  ghost predicate Quiescent(s: State) {
    forall k :: 0 <= k < |s.flights| ==> s.flights[k].flagged == |s.flights[k].ids|
  }

  ghost predicate Unpassed(objects: map<nat, Tx>, ref: Ref) {
    Exists(objects, ref) && ref.id >= objects[ref.owner].logs[ref.collection].first
  }

  /** A step that pushes a dependency names an existing job; a created object uses `order`. */
  ghost predicate Disciplined(s: State, step: Step, order: seq<nat>) {
    match step
    case Create(_, o, _) => o == order
    case PushWork(_, c, Depends(owner, id)) =>
      Exists(s.objects, Ref(owner, c, id)) && !SlotOf(s.objects, Ref(owner, c, id)).work.Depends?
    case _ => true
  }

  // ---------------------------------------------------------------- the hypotheses hold in disciplined runs

  /** Steps never remove a slot or change its work. */
  ghost predicate WorkKept(before: map<nat, Tx>, after: map<nat, Tx>) {
    forall ref: Ref :: Exists(before, ref) ==>
      Exists(after, ref) && SlotOf(after, ref).work == SlotOf(before, ref).work
  }

  lemma StepKeepsWork(s: State, step: Step)
    requires Inv(s) && Enabled(s, step)
    ensures WorkKept(s.objects, Next(s, step).objects)
  {
    hide Inv;
    if step.CutBatch? {
      CutKeepsWork(s, step.owner, step.collection, step.known);
    } else if step.PassGate? {
      hide CanDelete;
    }
  }

  lemma CutKeepsWork(s: State, owner: nat, c: nat, known: set<nat>)
    requires Inv(s) && Enabled(s, CutBatch(owner, c, known))
    ensures WorkKept(s.objects, Cut(s, owner, c, known).objects)
  {
    hide Valid;
    hide Scan;
    ObjectIsValid(s, owner);
    CutLog(s.objects[owner].logs[c], PeersOf(s.objects, known, c));
    hide Advance;
    var t := Cut(s, owner, c, known);
    forall ref: Ref | Exists(s.objects, ref)
      ensures Exists(t.objects, ref) && SlotOf(t.objects, ref).work == SlotOf(s.objects, ref).work
    {
      if ref.owner == owner && ref.collection == c {
        assert t.objects[owner].logs[c].slots[ref.id].work == s.objects[owner].logs[c].slots[ref.id].work;
      } else {
        assert t.objects[ref.owner].logs[ref.collection] == s.objects[ref.owner].logs[ref.collection];
      }
    }
  }

  lemma BackwardStays(s: State, step: Step, order: seq<nat>)
    requires Inv(s) && DependsBackward(s) && Enabled(s, step) && Disciplined(s, step, order)
    ensures DependsBackward(Next(s, step))
  {
    hide Inv;
    var t := Next(s, step);
    StepKeepsWork(s, step);
    PushesKnown(s);
    forall p | 0 <= p < |t.pushes| && Exists(t.objects, t.pushes[p]) && SlotOf(t.objects, t.pushes[p]).work.Depends?
      ensures var work := SlotOf(t.objects, t.pushes[p]).work;
              JobBefore(t, p, Ref(work.owner, t.pushes[p].collection, work.id))
    {
      if p < |s.pushes| {
        assert t.pushes[p] == s.pushes[p] && Exists(s.objects, s.pushes[p]);
        assert t.pushes[..p] == s.pushes[..p];
      } else {
        assert step.PushWork? && t.pushes[..p] == s.pushes;
      }
    }
  }

  lemma PushesKnown(s: State)
    requires Inv(s)
    ensures forall p :: 0 <= p < |s.pushes| ==> Exists(s.objects, s.pushes[p])
    ensures forall ref: Ref :: Exists(s.objects, ref) ==> ref in s.pushes
  {
  }

  lemma {:induction false} RunIsDisciplined(states: seq<State>, steps: seq<Step>, order: seq<nat>, i: nat)
    requires IsRun(states, steps) && i <= |steps|
    requires forall j :: 0 <= j < i ==> Disciplined(states[j], steps[j], order)
    ensures DependsBackward(states[i]) && CommonOrder(states[i], order)
  {
    hide Inv;
    hide Next;
    hide Enabled;
    hide Disciplined;
    hide JobBefore;
    if i > 0 {
      RunIsDisciplined(states, steps, order, i - 1);
      RunKeeps(states, steps, i - 1);
      BackwardStays(states[i - 1], steps[i - 1], order);
      OrderStays(states[i - 1], steps[i - 1], order);
    }
  }

  lemma OrderStays(s: State, step: Step, order: seq<nat>)
    requires CommonOrder(s, order) && Enabled(s, step) && Disciplined(s, step, order)
    ensures CommonOrder(Next(s, step), order)
  {
    hide Scan;
    hide CanDelete;
  }

  /** Times are 64 bits wide. */
  ghost predicate InRange(s: State) {
    forall o :: o in s.objects ==> s.objects[o].since < U64 && s.objects[o].every < U64
  }

  lemma StepInRange(s: State, step: Step)
    requires Enabled(s, step) && InRange(s)
    ensures InRange(Next(s, step))
  {
    hide Scan;
    hide CanDelete;
  }

  lemma {:induction false} RunInRange(states: seq<State>, steps: seq<Step>, i: nat)
    requires IsRun(states, steps) && i <= |steps|
    ensures InRange(states[i])
  {
    hide Next;
    hide Enabled;
    if i > 0 {
      RunInRange(states, steps, i - 1);
      StepInRange(states[i - 1], steps[i - 1]);
    }
  }

  // ---------------------------------------------------------------- a slot that can move

  /** The gate of the object is open for an update with this elapsed time. */
  predicate GateOpen(tx: Tx, diff: nat) {
    tx.callables != 0 || (tx.since + diff) % U64 >= tx.every
  }

  /** The position in push order of the first unpassed slot of collection `c`. */
  lemma {:induction false} FirstUnpassed(s: State, c: nat, p: nat) returns (q: nat)
    requires p < |s.pushes| && Unpassed(s.objects, s.pushes[p]) && s.pushes[p].collection == c
    ensures q <= p && Unpassed(s.objects, s.pushes[q]) && s.pushes[q].collection == c
    ensures forall r :: 0 <= r < q && s.pushes[r].collection == c ==> !Unpassed(s.objects, s.pushes[r])
  {
    if r :| 0 <= r < p && s.pushes[r].collection == c && Unpassed(s.objects, s.pushes[r]) {
      q := FirstUnpassed(s, c, r);
    } else {
      q := p;
    }
  }

  /** The first unpassed slot of a collection in push order is at the cursor of its log. */
  lemma FirstIsAtCursor(s: State, q: nat)
    requires PushesValid(s) && q < |s.pushes| && Unpassed(s.objects, s.pushes[q])
    requires forall r :: 0 <= r < q && s.pushes[r].collection == s.pushes[q].collection ==>
             !Unpassed(s.objects, s.pushes[r])
    ensures s.pushes[q].id == s.objects[s.pushes[q].owner].logs[s.pushes[q].collection].first
  {
    var ref := s.pushes[q];
    var first := s.objects[ref.owner].logs[ref.collection].first;
    var at := Ref(ref.owner, ref.collection, first);
    assert Exists(s.objects, at) && at in s.pushes;
    var r :| 0 <= r < |s.pushes| && s.pushes[r] == at;
    if r > q {
      assert OfLog(s.pushes[q], at.owner, at.collection);
    }
  }

  /** With nothing in flight, a scan starting at that slot moves the cursor. */
  lemma ScanMoves(s: State, known: set<nat>, q: nat)
    requires Inv(s) && Quiescent(s) && DependsBackward(s) && q < |s.pushes| && Unpassed(s.objects, s.pushes[q])
    requires forall r :: 0 <= r < q && s.pushes[r].collection == s.pushes[q].collection ==>
             !Unpassed(s.objects, s.pushes[r])
    ensures var ref := s.pushes[q]; var log := s.objects[ref.owner].logs[ref.collection];
            log.first <= |log.slots| && Scan(log, PeersOf(s.objects, known, ref.collection)).stop > log.first
  {
    hide Valid;
    var ref := s.pushes[q];
    var log := s.objects[ref.owner].logs[ref.collection];
    var peers := PeersOf(s.objects, known, ref.collection);
    ObjectIsValid(s, ref.owner);
    FirstIsAtCursor(s, q);
    ScanIsSweep(log.slots, log.first, Neither, peers);
    var work := log.slots[log.first].work;
    if work.Depends? {
      TargetIsDone(s, q, Ref(work.owner, ref.collection, work.id));
    }
  }

  /** With nothing in flight, a job pushed before the first unpassed slot of its collection
      is done. */
  lemma TargetIsDone(s: State, q: nat, target: Ref)
    requires Inv(s) && Quiescent(s) && q < |s.pushes| && JobBefore(s, q, target)
    requires forall r :: 0 <= r < q && s.pushes[r].collection == target.collection ==> !Unpassed(s.objects, s.pushes[r])
    ensures SlotOf(s.objects, target).done
  {
    var r :| 0 <= r < q && s.pushes[..q][r] == target;
    assert s.pushes[r] == target;
    var k, j := JobInBatch(s, target);
  }

  // ---------------------------------------------------------------- an update that moves it

  /** Everything before position `i` of the order is passed. */
  predicate PassedBefore(tx: Tx, k: nat, i: nat) {
    && i <= |tx.order|
    && forall j :: k <= j < i ==>
         tx.order[j] in tx.logs && tx.logs[tx.order[j]].first == |tx.logs[tx.order[j]].slots|
  }

  /** A scan of the collection at position `i` moves its cursor. */
  predicate MovesAt(tx: Tx, i: nat, env: map<nat, Peers>) {
    && i < |tx.order| && tx.order[i] in tx.logs && tx.order[i] in env
    && var log := tx.logs[tx.order[i]];
       log.first < |log.slots| && Scan(log, env[tx.order[i]]).stop > log.first
  }

  predicate Moved(before: Tx, after: Tx, c: nat) {
    c in before.logs && c in after.logs && after.logs[c].first > before.logs[c].first
  }

  /** The pass reaches position `i` of the order if everything before it is passed. */
  lemma {:induction false} PassReaches(tx: Tx, k: nat, i: nat, env: map<nat, Peers>)
    requires WellFormed(tx) && k <= i < |tx.order| && tx.logs.Keys <= env.Keys
    requires PassedBefore(tx, k, i)
    ensures PassFrom(tx, k, env) == PassFrom(tx, i, env)
    decreases i - k
  {
    hide PassFrom;
    hide WellFormed;
    OrderInLogs(tx);
    if k < i {
      PassTurn(tx, k, env);
      PassReaches(tx, k + 1, i, env);
    }
  }

  /** The pass moves the cursor of the first collection with something to pass, if a scan
      of it does. */
  lemma PassMoves(tx: Tx, i: nat, env: map<nat, Peers>)
    requires WellFormed(tx) && i < |tx.order| && tx.logs.Keys <= env.Keys
    requires PassedBefore(tx, 0, i) && MovesAt(tx, i, env)
    ensures Moved(tx, PassFrom(tx, 0, env).0, tx.order[i])
  {
    hide PassFrom;
    hide WellFormed;
    hide Scan;
    hide Take;
    OrderInLogs(tx);
    var c := tx.order[i];
    PassReaches(tx, 0, i, env);
    PassTurn(tx, i, env);
    TakeMoves(tx, c, env[c]);
    if Scan(tx.logs[c], env[c]).ids != [] {
      PassOnlyForward(Take(tx, c, env[c]), i + 1, env);
    }
  }

  /** An open update of an object does the same, even if it is flagged for deletion. */
  lemma UpdateMoves(tx: Tx, i: nat, diff: nat, env: map<nat, Peers>)
    requires WellFormed(tx) && i < |tx.order| && tx.logs.Keys <= env.Keys
    requires PassedBefore(tx, 0, i) && MovesAt(tx, i, env)
    requires !(tx.flagged && tx.scheduled) && GateOpen(tx, diff)
    ensures Moved(tx, Update(tx, diff, env).tx, tx.order[i])
    ensures SameRest(Update(tx, diff, env).tx, tx.(since := 0))
  {
    hide PassFrom;
    hide WellFormed;
    hide Scan;
    OrderInLogs(tx);
    var open := tx.(since := 0);
    SinceIsFree(tx);
    assert !Settled(tx.logs[tx.order[i]]);
    PassMoves(open, i, env);
    PassOnlyForward(open, 0, env);
  }

  /** The first unpassed slot, in push order, of the first collection in the common order
      that has one. */
  lemma {:induction false} FirstCollection(s: State, order: seq<nat>, i: nat) returns (q: nat)
    requires PushesValid(s) && i <= |order|
    requires exists p :: 0 <= p < |s.pushes| && Unpassed(s.objects, s.pushes[p]) && s.pushes[p].collection in order[i..]
    requires forall p, j :: 0 <= p < |s.pushes| && 0 <= j < i ==>
             !(Unpassed(s.objects, s.pushes[p]) && s.pushes[p].collection == order[j])
    ensures q < |s.pushes| && Unpassed(s.objects, s.pushes[q]) && IsFirst(s, order, q)
    decreases |order| - i
  {
    var p :| 0 <= p < |s.pushes| && Unpassed(s.objects, s.pushes[p]) && s.pushes[p].collection in order[i..];
    assert order[i..] == [order[i]] + order[i + 1..];
    if r :| 0 <= r < |s.pushes| && Unpassed(s.objects, s.pushes[r]) && s.pushes[r].collection == order[i] {
      q := FirstUnpassed(s, order[i], r);
    } else {
      q := FirstCollection(s, order, i + 1);
    }
  }

  /** No collection before that of slot `q` has an unpassed slot, nor its own before `q`. */
  ghost predicate IsFirst(s: State, order: seq<nat>, q: nat)
    requires q < |s.pushes|
  {
    && (forall r :: 0 <= r < q && s.pushes[r].collection == s.pushes[q].collection ==>
        !Unpassed(s.objects, s.pushes[r]))
    && exists i :: 0 <= i < |order| && order[i] == s.pushes[q].collection && NothingBefore(s, order, i)
  }

  ghost predicate NothingBefore(s: State, order: seq<nat>, i: nat)
    requires i <= |order|
  {
    forall p, j :: 0 <= p < |s.pushes| && 0 <= j < i ==>
        !(Unpassed(s.objects, s.pushes[p]) && s.pushes[p].collection == order[j])
  }

  ghost predicate SomethingUnpassed(s: State) {
    exists ref :: Unpassed(s.objects, ref)
  }

  /** Progress: with a common order, backward dependencies, nothing left in an object
      scheduled for deletion and nothing in flight, if any slot is unpassed then there are an object and
      a collection whose cursor every open `update` of that object moves, whatever other
      objects its getter knows. */
  lemma SomeUpdateMoves(s: State, order: seq<nat>, known: set<nat>) returns (owner: nat, c: nat)
    requires Inv(s) && Quiescent(s) && DependsBackward(s) && CommonOrder(s, order) && Alive(s)
    requires SomethingUnpassed(s)
    ensures owner in s.objects && WellFormed(s.objects[owner])
    ensures forall diff :: GateOpen(s.objects[owner], diff) ==>
              && Moved(s.objects[owner], Update(s.objects[owner], diff, EnvFor(s.objects, known, owner)).tx, c)
              && SameRest(Update(s.objects[owner], diff, EnvFor(s.objects, known, owner)).tx,
                  s.objects[owner].(since := 0))
  {
    hide Valid;
    hide Update;
    hide Scan;
    var q := FirstInOrder(s, order);
    owner, c := s.pushes[q].owner, s.pushes[q].collection;
    var i :| 0 <= i < |order| && order[i] == c && NothingBefore(s, order, i);
    ScanMoves(s, known, q);
    OwnerFacts(s, owner, known);
    NothingBeforeIsPassed(s, order, i, owner);
    forall diff | GateOpen(s.objects[owner], diff)
      ensures Moved(s.objects[owner], Update(s.objects[owner], diff, EnvFor(s.objects, known, owner)).tx, c)
      ensures SameRest(Update(s.objects[owner], diff, EnvFor(s.objects, known, owner)).tx,
              s.objects[owner].(since := 0))
    {
      UpdateMoves(s.objects[owner], i, diff, EnvFor(s.objects, known, owner));
    }
  }

  lemma FirstInOrder(s: State, order: seq<nat>) returns (q: nat)
    requires Inv(s) && CommonOrder(s, order) && SomethingUnpassed(s)
    ensures q < |s.pushes| && Unpassed(s.objects, s.pushes[q]) && IsFirst(s, order, q)
  {
    var ref :| Unpassed(s.objects, ref);
    assert ref in s.pushes;
    var p :| 0 <= p < |s.pushes| && s.pushes[p] == ref;
    InOrder(s, order, ref);
    assert order[0..] == order;
    q := FirstCollection(s, order, 0);
  }

  lemma InOrder(s: State, order: seq<nat>, ref: Ref)
    requires Inv(s) && CommonOrder(s, order) && Exists(s.objects, ref)
    ensures ref.collection in order
  {
    assert Valid(s.objects[ref.owner]);
  }

  lemma NothingBeforeIsPassed(s: State, order: seq<nat>, i: nat, owner: nat)
    requires Inv(s) && CommonOrder(s, order) && i <= |order| && NothingBefore(s, order, i) && owner in s.objects
    ensures PassedBefore(s.objects[owner], 0, i)
  {
    hide Inv;
    hide WellFormed;
    OwnerFacts(s, owner, {});
    forall j | 0 <= j < i
      ensures s.objects[owner].logs[order[j]].first == |s.objects[owner].logs[order[j]].slots|
    {
      if s.objects[owner].logs[order[j]].first < |s.objects[owner].logs[order[j]].slots| {
        CursorSlot(s, owner, order[j]);
      }
    }
  }

  /** A log that is not passed has an unpassed slot among the pushes. */
  lemma CursorSlot(s: State, owner: nat, c: nat)
    requires Inv(s) && HasLog(s.objects, owner, c) && s.objects[owner].logs[c].first < |s.objects[owner].logs[c].slots|
    ensures exists p :: 0 <= p < |s.pushes| && Unpassed(s.objects, s.pushes[p]) && s.pushes[p].collection == c
  {
    PushesKnown(s);
    hide Inv;
    var ref := Ref(owner, c, s.objects[owner].logs[c].first);
    assert Exists(s.objects, ref) && ref in s.pushes;
    var p :| 0 <= p < |s.pushes| && s.pushes[p] == ref;
    assert Unpassed(s.objects, s.pushes[p]) && s.pushes[p].collection == c;
  }
}
