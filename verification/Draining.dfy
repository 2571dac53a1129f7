/** Fair schedules empty the system: updates of objects and work of the pool, in any
    interleaving, with nothing more pushed. */
module Draining {
  import opened TransactionLog
  import opened TransactionState
  import opened Scheduler
  import opened SchedulerInvariant
  import opened SchedulerTheorems
  import opened Progress
  import opened Blocking

  // ---------------------------------------------------------------- schedules

  /** The pool executes or finishes something, or `update` is called once. */
  datatype Move = PoolMove(step: Step) | UpdateMove(owner: nat, diff: nat, known: set<nat>)

  predicate IsPoolStep(step: Step) {
    step.Execute? || step.Finish?
  }

  /** `t` is `s` after one update of `owner`, whose getter knows the objects in `known`. */
  ghost predicate Updated(s: State, owner: nat, diff: nat, known: set<nat>, t: State) {
    && owner in s.objects && WellFormed(s.objects[owner])
    && (exists steps :: Leads(s, steps, t) && StepsOf(steps, owner, known))
    && t.trace == s.trace && t.pushes == s.pushes
    && var outcome := Update(s.objects[owner], diff, EnvFor(s.objects, known, owner));
       t.objects == s.objects[owner := outcome.tx] && t.flights == s.flights + FlightsOf(owner, outcome.dispatches)
  }

  ghost predicate MoveTo(s: State, m: Move, t: State) {
    match m
    case PoolMove(step) => IsPoolStep(step) && Enabled(s, step) && t == Next(s, step)
    case UpdateMove(owner, diff, known) => Updated(s, owner, diff, known, t)
  }

  ghost predicate IsSchedule(states: seq<State>, moves: seq<Move>) {
    |states| == |moves| + 1 && forall k :: 0 <= k < |moves| ==> MoveTo(states[k], moves[k], states[k + 1])
  }

  // ---------------------------------------------------------------- what every move keeps

  /** Nothing is pushed; slots keep their work, done slots stay done, cursors only go up. */
  ghost predicate Onward(s: State, t: State) {
    && t.pushes == s.pushes
    && SameShape(s.objects, t.objects)
    && SameSlots(s.objects, t.objects)
    && WorkKept(s.objects, t.objects)
    && DoneKept(s.objects, t.objects)
    && CursorsUp(s, t)
  }

  ghost predicate SameShape(before: map<nat, Tx>, after: map<nat, Tx>) {
    && after.Keys == before.Keys
    && forall o :: o in before ==> after[o].order == before[o].order && after[o].logs.Keys == before[o].logs.Keys
  }

  ghost predicate SameSlots(before: map<nat, Tx>, after: map<nat, Tx>) {
    forall ref: Ref :: Exists(before, ref) <==> Exists(after, ref)
  }

  ghost predicate DoneKept(before: map<nat, Tx>, after: map<nat, Tx>) {
    forall ref: Ref :: Exists(before, ref) && Exists(after, ref) && SlotOf(before, ref).done ==> SlotOf(after, ref).done
  }

  ghost predicate CursorsUp(s: State, t: State) {
    forall o, c :: HasLog(s.objects, o, c) ==> CursorOf(s, o, c) <= CursorOf(t, o, c)
  }

  function CursorOf(s: State, o: nat, c: nat): nat {
    if HasLog(s.objects, o, c) then s.objects[o].logs[c].first else 0
  }

  lemma OnwardNowhere(s: State)
    ensures Onward(s, s)
  {
  }

  lemma OnwardTwice(a: State, b: State, c: State)
    requires Onward(a, b) && Onward(b, c)
    ensures Onward(a, c)
  {
  }

  /** A step that pushes and creates nothing. */
  predicate Adds(step: Step) {
    step.Create? || step.PushWork?
  }

  lemma StepOnward(s: State, step: Step)
    requires Inv(s) && Enabled(s, step) && !Adds(step)
    ensures Onward(s, Next(s, step))
  {
    hide Inv;
    hide Next;
    hide Enabled;
    hide SameShape;
    hide SameSlots;
    hide DoneKept;
    hide CursorsUp;
    hide WorkKept;
    StepKeeps(s, step);
    StepKeepsWork(s, step);
    StepKeepsShape(s, step);
    PushedSlots(s, Next(s, step));
    StepKeepsDone(s, step);
    StepMovesCursors(s, step);
  }

  lemma PushedSlots(s: State, t: State)
    requires Inv(s) && Inv(t) && t.pushes == s.pushes
    ensures SameSlots(s.objects, t.objects)
  {
    PushesKnown(s);
    PushesKnown(t);
    hide Inv;
    hide Exists;
  }

  lemma StepKeepsDone(s: State, step: Step)
    requires Inv(s) && Enabled(s, step)
    ensures DoneKept(s.objects, Next(s, step).objects)
  {
    hide Inv;
    hide Next;
    hide Enabled;
    hide Exists;
    forall ref: Ref | Exists(s.objects, ref) && Exists(Next(s, step).objects, ref) && SlotOf(s.objects, ref).done
      ensures SlotOf(Next(s, step).objects, ref).done
    {
      DoneStays(s, step, ref);
    }
  }

  lemma StepMovesCursors(s: State, step: Step)
    requires Inv(s) && Enabled(s, step)
    ensures CursorsUp(s, Next(s, step))
  {
    hide Inv;
    hide Next;
    hide Enabled;
    forall o, c | HasLog(s.objects, o, c)
      ensures CursorOf(s, o, c) <= CursorOf(Next(s, step), o, c)
    {
      StepMovesCursor(s, step, o, c);
    }
  }

  lemma StepKeepsShape(s: State, step: Step)
    requires Enabled(s, step) && !Adds(step)
    ensures Next(s, step).pushes == s.pushes && SameShape(s.objects, Next(s, step).objects)
  {
    hide Scan;
    hide CanDelete;
  }

  lemma {:induction false} LeadsOnward(s: State, steps: seq<Step>, t: State)
    requires Inv(s) && Leads(s, steps, t) && forall k :: 0 <= k < |steps| ==> !Adds(steps[k])
    ensures Inv(t) && Onward(s, t)
    decreases |steps|
  {
    hide Inv;
    hide Onward;
    hide Next;
    hide Enabled;
    if steps == [] {
      OnwardNowhere(s);
    } else {
      StepKeeps(s, steps[0]);
      StepOnward(s, steps[0]);
      LeadsOnward(Next(s, steps[0]), steps[1..], t);
      OnwardTwice(s, Next(s, steps[0]), t);
    }
  }

  /** A move is a path of the system that adds nothing. */
  lemma MoveLeads(s: State, m: Move, t: State) returns (steps: seq<Step>)
    requires Inv(s) && MoveTo(s, m, t)
    ensures Leads(s, steps, t) && forall k :: 0 <= k < |steps| ==> !Adds(steps[k])
  {
    hide Inv;
    match m
    case PoolMove(step) =>
      steps := [step];
      assert steps[1..] == [];
      assert Leads(t, [], t);
    case UpdateMove(owner, diff, known) =>
      steps :| Leads(s, steps, t) && StepsOf(steps, owner, known);
  }

  lemma MoveOnward(s: State, m: Move, t: State)
    requires Inv(s) && MoveTo(s, m, t)
    ensures Inv(t) && Onward(s, t)
  {
    hide Inv;
    var steps := MoveLeads(s, m, t);
    LeadsOnward(s, steps, t);
  }

  // ---------------------------------------------------------------- the hypotheses

  /** Backward dependencies on jobs, one iteration order, and no object beyond help. */
  ghost predicate Healthy(s: State, order: seq<nat>) {
    Inv(s) && DependsBackward(s) && CommonOrder(s, order) && Alive(s)
  }

  lemma PassedStays(s: State, t: State, o: nat)
    requires Inv(s) && Inv(t) && Onward(s, t) && o in s.objects && AllPassed(s.objects[o])
    ensures AllPassed(t.objects[o])
  {
    InvHasValid(t);
    ObjectIsValid(t, o);
    hide Inv;
    hide Valid;
    forall c | c in t.objects[o].logs
      ensures t.objects[o].logs[c].first == |t.objects[o].logs[c].slots|
    {
      SameLength(s, t, o, c);
    }
  }

  lemma SameLength(s: State, t: State, o: nat, c: nat)
    requires Onward(s, t) && HasLog(s.objects, o, c)
    ensures HasLog(t.objects, o, c)
    ensures |t.objects[o].logs[c].slots| == |s.objects[o].logs[c].slots|
    ensures s.objects[o].logs[c].first <= t.objects[o].logs[c].first
  {
    assert CursorOf(s, o, c) <= CursorOf(t, o, c);
    var n, m := |s.objects[o].logs[c].slots|, |t.objects[o].logs[c].slots|;
    assert Exists(s.objects, Ref(o, c, n)) <==> Exists(t.objects, Ref(o, c, n));
    assert Exists(s.objects, Ref(o, c, m)) <==> Exists(t.objects, Ref(o, c, m));
  }

  lemma UpdateKeepsAlive(tx: Tx, diff: nat, env: map<nat, Peers>)
    requires WellFormed(tx) && tx.logs.Keys <= env.Keys && AliveObject(tx)
    ensures var after := Update(tx, diff, env).tx;
            && after.since < U64 && after.every == tx.every
            && (after.flagged && after.scheduled ==> after.logs == tx.logs && AllPassed(tx))
  {
    hide PassFrom;
    SinceIsFree(tx);
    PassOnlyForward(tx.(since := 0), 0, env);
    hide WellFormed;
  }

  lemma PoolKeepsFlags(s: State, step: Step)
    requires Enabled(s, step) && IsPoolStep(step)
    ensures var t := Next(s, step);
            && t.objects.Keys == s.objects.Keys
            && forall o :: o in s.objects ==> SameRest(t.objects[o], s.objects[o])
  {
  }

  lemma PoolKeepsAlive(s: State, step: Step)
    requires Inv(s) && Enabled(s, step) && IsPoolStep(step) && Alive(s)
    ensures Alive(Next(s, step))
  {
    var t := Next(s, step);
    StepKeeps(s, step);
    StepOnward(s, step);
    PoolKeepsFlags(s, step);
    hide Inv;
    hide Next;
    hide Enabled;
    hide Onward;
    hide SameRest;
    hide AliveObject;
    forall o | o in t.objects
      ensures AliveObject(t.objects[o])
    {
      ObjectStaysAlive(s, t, o);
    }
  }

  lemma ObjectStaysAlive(s: State, t: State, o: nat)
    requires Inv(s) && Inv(t) && Onward(s, t) && o in s.objects && o in t.objects
    requires SameRest(t.objects[o], s.objects[o]) && AliveObject(s.objects[o])
    ensures AliveObject(t.objects[o])
  {
    hide Inv;
    hide Onward;
    hide AllPassed;
    if AllPassed(s.objects[o]) {
      PassedStays(s, t, o);
    }
  }

  lemma MoveKeepsAlive(s: State, m: Move, t: State)
    requires Inv(s) && MoveTo(s, m, t) && Alive(s)
    ensures Alive(t)
  {
    match m
    case PoolMove(step) => PoolKeepsAlive(s, step);
    case UpdateMove(owner, diff, known) =>
      hide Inv;
      hide Update;
      OwnerFacts(s, owner, known);
      assert AliveObject(s.objects[owner]);
      UpdateKeepsAlive(s.objects[owner], diff, EnvFor(s.objects, known, owner));
  }

  lemma BackwardKept(s: State, t: State)
    requires Inv(s) && DependsBackward(s) && WorkKept(s.objects, t.objects) && t.pushes == s.pushes
    ensures DependsBackward(t)
  {
    PushesKnown(s);
    hide Inv;
  }

  lemma MoveKeepsHealthy(s: State, m: Move, t: State, order: seq<nat>)
    requires Healthy(s, order) && MoveTo(s, m, t)
    ensures Healthy(t, order) && Onward(s, t)
  {
    MoveOnward(s, m, t);
    MoveKeepsAlive(s, m, t);
    BackwardKept(s, t);
    hide Inv;
    hide MoveTo;
    hide DependsBackward;
    hide Alive;
  }

  lemma {:induction false} ScheduleKeepsHealthy(states: seq<State>, moves: seq<Move>, lo: nat, hi: nat, order: seq<nat>)
    requires IsSchedule(states, moves) && lo <= hi <= |moves| && Healthy(states[lo], order)
    ensures Healthy(states[hi], order) && Onward(states[lo], states[hi])
    decreases hi
  {
    hide Healthy;
    hide Onward;
    hide MoveTo;
    if lo < hi {
      ScheduleKeepsHealthy(states, moves, lo, hi - 1, order);
      MoveKeepsHealthy(states[hi - 1], moves[hi - 1], states[hi], order);
      OnwardTwice(states[lo], states[hi - 1], states[hi]);
    } else {
      OnwardNowhere(states[lo]);
    }
  }

  // ---------------------------------------------------------------- a cursor that must move

  /** The slot at the cursor is a job, or waits for one that is done. */
  ghost predicate Ready(objects: map<nat, Tx>, owner: nat, c: nat) {
    && HasLog(objects, owner, c)
    && var log := objects[owner].logs[c];
       log.first < |log.slots|
       && var work := log.slots[log.first].work;
          work.Depends? ==>
            var target := Ref(work.owner, c, work.id);
            Exists(objects, target) && SlotOf(objects, target).done
  }

  lemma ReadyMoves(s: State, owner: nat, c: nat, known: set<nat>)
    requires Inv(s) && Ready(s.objects, owner, c)
    ensures Scan(s.objects[owner].logs[c], PeersOf(s.objects, known, c)).stop > s.objects[owner].logs[c].first
  {
    hide Inv;
    hide Scan;
    InvHasValid(s);
    ObjectIsValid(s, owner);
    hide Valid;
    ReadyIsMet(s.objects, owner, c, known);
    ScanPasses(s.objects[owner].logs[c], PeersOf(s.objects, known, c));
  }

  lemma ReadyIsMet(objects: map<nat, Tx>, owner: nat, c: nat, known: set<nat>)
    requires Ready(objects, owner, c)
    ensures var log := objects[owner].logs[c]; var work := log.slots[log.first].work;
            work.Depends? ==> Met(PeersOf(objects, known, c), work.owner, work.id)
  {
  }

  lemma ScanPasses(log: Log, peers: Peers)
    requires Untouched(log) && log.first < |log.slots|
    requires var work := log.slots[log.first].work; work.Depends? ==> Met(peers, work.owner, work.id)
    ensures Scan(log, peers).stop > log.first
  {
    ScanIsSweep(log.slots, log.first, Neither, peers);
  }

  /** Since `s`, the cursor of `owner` in its collection at position `i` has moved, or it
      will with the next update: it is ready, and nothing comes before it. */
  ghost predicate OnTrack(s: State, t: State, owner: nat, i: nat) {
    && owner in s.objects && owner in t.objects && i < |s.objects[owner].order|
    && t.objects[owner].order == s.objects[owner].order
    && var c := s.objects[owner].order[i];
       || Moved(s.objects[owner], t.objects[owner], c)
       || (CursorOf(t, owner, c) == CursorOf(s, owner, c) && PassedBefore(t.objects[owner], 0, i) &&
           Ready(t.objects, owner, c))
  }

  lemma OnTrackStays(s: State, t: State, u: State, owner: nat, i: nat)
    requires Inv(u) && OnTrack(s, t, owner, i) && Onward(t, u) && HasLog(s.objects, owner, s.objects[owner].order[i])
    ensures OnTrack(s, u, owner, i)
  {
    hide Inv;
    hide PassedBefore;
    hide Ready;
    var c := s.objects[owner].order[i];
    OwnOrder(t, u, owner);
    if Moved(s.objects[owner], t.objects[owner], c) {
      SameLength(t, u, owner, c);
    } else {
      ReadyHasLog(t.objects, owner, c);
      SameLength(t, u, owner, c);
      PassedBeforeStays(t, u, owner, i);
      hide Onward;
      if CursorOf(u, owner, c) == CursorOf(t, owner, c) {
        ReadyStays(t, u, owner, c);
      }
    }
  }

  lemma OwnOrder(t: State, u: State, owner: nat)
    requires Onward(t, u) && owner in t.objects
    ensures owner in u.objects && u.objects[owner].order == t.objects[owner].order
  {
  }

  lemma ReadyHasLog(objects: map<nat, Tx>, owner: nat, c: nat)
    requires Ready(objects, owner, c)
    ensures HasLog(objects, owner, c)
  {
  }

  lemma PassedBeforeStays(t: State, u: State, owner: nat, i: nat)
    requires Inv(u) && Onward(t, u) && owner in t.objects && owner in u.objects && PassedBefore(t.objects[owner], 0, i)
    ensures PassedBefore(u.objects[owner], 0, i)
  {
    hide Inv;
    hide Onward;
    hide WellFormed;
    hide Exists;
    OwnerFacts(u, owner, {});
    OwnOrder(t, u, owner);
    var order := t.objects[owner].order;
    forall j | 0 <= j < i
      ensures order[j] in u.objects[owner].logs
      ensures u.objects[owner].logs[order[j]].first == |u.objects[owner].logs[order[j]].slots|
    {
      SameLength(t, u, owner, order[j]);
    }
  }

  lemma ReadyStays(t: State, u: State, owner: nat, c: nat)
    requires Onward(t, u) && Ready(t.objects, owner, c) && CursorOf(u, owner, c) == CursorOf(t, owner, c)
    ensures Ready(u.objects, owner, c)
  {
    SameLength(t, u, owner, c);
    var at := Ref(owner, c, t.objects[owner].logs[c].first);
    assert Exists(t.objects, at) && SlotOf(u.objects, at).work == SlotOf(t.objects, at).work;
  }

  /** An update of `owner` whose gate is open, at its turn. */
  ghost predicate IsOpenUpdate(s: State, m: Move, owner: nat) {
    m.UpdateMove? && m.owner == owner && owner in s.objects && GateOpen(s.objects[owner], m.diff)
  }

  lemma OnTrackMoves(s: State, t: State, m: Move, u: State, owner: nat, i: nat)
    requires Inv(t) && Alive(t) && OnTrack(s, t, owner, i) && MoveTo(t, m, u) && IsOpenUpdate(t, m, owner)
    requires HasLog(s.objects, owner, s.objects[owner].order[i])
    ensures owner in u.objects && Moved(s.objects[owner], u.objects[owner], s.objects[owner].order[i])
  {
    var c := s.objects[owner].order[i];
    if Moved(s.objects[owner], t.objects[owner], c) {
      MoveOnward(t, m, u);
      hide Inv;
      hide MoveTo;
      SameLength(t, u, owner, c);
    } else {
      var diff, known := m.diff, m.known;
      assert u.objects[owner] == Update(t.objects[owner], diff, EnvFor(t.objects, known, owner)).tx;
      assert AliveObject(t.objects[owner]);
      hide MoveTo;
      hide Alive;
      ReadyUpdate(t, owner, i, diff, known);
    }
  }

  lemma ReadyUpdate(t: State, owner: nat, i: nat, diff: nat, known: set<nat>)
    requires Inv(t) && owner in t.objects && WellFormed(t.objects[owner]) && AliveObject(t.objects[owner])
    requires i < |t.objects[owner].order| && PassedBefore(t.objects[owner], 0, i) &&
             Ready(t.objects, owner, t.objects[owner].order[i])
    requires GateOpen(t.objects[owner], diff)
    ensures Moved(t.objects[owner], Update(t.objects[owner], diff, EnvFor(t.objects, known, owner)).tx,
            t.objects[owner].order[i])
  {
    var tx := t.objects[owner];
    var c, env := tx.order[i], EnvFor(t.objects, known, owner);
    hide Inv;
    hide Update;
    hide Scan;
    hide WellFormed;
    hide PassedBefore;
    ReadyMoves(t, owner, c, known);
    assert tx.logs[c].first < |tx.logs[c].slots|;
    hide Ready;
    assert env[c] == PeersOf(t.objects, known, c) && MovesAt(tx, i, env);
    assert !AllPassed(tx);
    UpdateMoves(tx, i, diff, env);
  }

  /** With nothing in flight and something unpassed there is such a cursor. */
  lemma FindTrack(s: State, order: seq<nat>) returns (owner: nat, i: nat)
    requires Healthy(s, order) && Quiescent(s) && SomethingUnpassed(s)
    ensures OnTrack(s, s, owner, i) && s.objects[owner].order[i] in s.objects[owner].logs
    ensures !AllPassed(s.objects[owner])
  {
    var q := FirstInOrder(s, order);
    var c;
    owner, c := s.pushes[q].owner, s.pushes[q].collection;
    i :| 0 <= i < |order| && order[i] == c && NothingBefore(s, order, i);
    ReadyAtFirst(s, q);
    NothingBeforeIsPassed(s, order, i, owner);
    hide Inv;
    hide DependsBackward;
  }

  lemma ReadyAtFirst(s: State, q: nat)
    requires Inv(s) && Quiescent(s) && DependsBackward(s) && q < |s.pushes| && Unpassed(s.objects, s.pushes[q])
    requires forall r :: 0 <= r < q && s.pushes[r].collection == s.pushes[q].collection ==>
             !Unpassed(s.objects, s.pushes[r])
    ensures Ready(s.objects, s.pushes[q].owner, s.pushes[q].collection)
  {
    FirstIsAtCursor(s, q);
    var ref := s.pushes[q];
    var work := SlotOf(s.objects, ref).work;
    if work.Depends? {
      TargetIsDone(s, q, Ref(work.owner, ref.collection, work.id));
    }
  }

  // ---------------------------------------------------------------- rounds

  /** From a state with nothing in flight to another, with an open update in between for
      every object that had something left; updates and the pool interleave in any way. */
  ghost predicate FairRound(states: seq<State>, moves: seq<Move>, lo: nat, hi: nat)
    requires |states| == |moves| + 1 && lo <= hi <= |moves|
  {
    && Quiescent(states[lo]) && Quiescent(states[hi])
    && forall o :: o in states[lo].objects && !AllPassed(states[lo].objects[o]) ==>
         exists k :: lo <= k < hi && IsOpenUpdate(states[k], moves[k], o)
  }

  lemma {:induction false} TrackAlong(states: seq<State>, moves: seq<Move>, lo: nat, k: nat, order: seq<nat>,
      owner: nat, i: nat)
    requires IsSchedule(states, moves) && lo <= k <= |moves| && Healthy(states[lo], order)
    requires OnTrack(states[lo], states[lo], owner, i) &&
             HasLog(states[lo].objects, owner, states[lo].objects[owner].order[i])
    ensures Healthy(states[k], order) && OnTrack(states[lo], states[k], owner, i)
    decreases k
  {
    hide MoveTo;
    hide Onward;
    hide OnTrack;
    hide Inv;
    hide DependsBackward;
    hide Alive;
    hide CommonOrder;
    if lo < k {
      TrackAlong(states, moves, lo, k - 1, order, owner, i);
      MoveKeepsHealthy(states[k - 1], moves[k - 1], states[k], order);
      TrackIndex(states[lo], states[lo], owner, i);
      OnTrackStays(states[lo], states[k - 1], states[k], owner, i);
    }
  }

  lemma TrackIndex(s: State, t: State, owner: nat, i: nat)
    requires OnTrack(s, t, owner, i)
    ensures owner in s.objects && i < |s.objects[owner].order|
  {
  }

  /** A fair round passes at least one slot, if there is any. */
  lemma RoundShrinks(states: seq<State>, moves: seq<Move>, lo: nat, hi: nat, order: seq<nat>)
    requires IsSchedule(states, moves) && lo <= hi <= |moves| && Healthy(states[lo], order) &&
             FairRound(states, moves, lo, hi)
    ensures Healthy(states[hi], order)
    ensures SomethingUnpassed(states[lo]) ==> UnpassedSet(states[hi]) < UnpassedSet(states[lo])
    ensures UnpassedSet(states[hi]) <= UnpassedSet(states[lo])
  {
    ScheduleKeepsHealthy(states, moves, lo, hi, order);
    OnwardShrinks(states[lo], states[hi]);
    if SomethingUnpassed(states[lo]) {
      var owner, i := FindTrack(states[lo], order);
      hide Healthy;
      hide OnTrack;
      hide AllPassed;
      hide Onward;
      hide MoveTo;
      var k :| lo <= k < hi && IsOpenUpdate(states[k], moves[k], owner);
      TrackIndex(states[lo], states[lo], owner, i);
      MovedInRound(states, moves, lo, k, hi, order, owner, i);
      MovedShrinks(states[lo], states[hi], owner, states[lo].objects[owner].order[i]);
    }
  }

  lemma MovedInRound(states: seq<State>, moves: seq<Move>, lo: nat, k: nat, hi: nat, order: seq<nat>,
      owner: nat, i: nat)
    requires IsSchedule(states, moves) && lo <= k < hi <= |moves| && Healthy(states[lo], order)
    requires OnTrack(states[lo], states[lo], owner, i) &&
             HasLog(states[lo].objects, owner, states[lo].objects[owner].order[i])
    requires IsOpenUpdate(states[k], moves[k], owner)
    ensures Inv(states[lo]) && Inv(states[hi]) && Onward(states[lo], states[hi])
    ensures owner in states[hi].objects &&
            Moved(states[lo].objects[owner], states[hi].objects[owner], states[lo].objects[owner].order[i])
  {
    var c := states[lo].objects[owner].order[i];
    TrackAlong(states, moves, lo, k, order, owner, i);
    assert Healthy(states[k], order) && MoveTo(states[k], moves[k], states[k + 1]);
    hide MoveTo;
    hide OnTrack;
    hide Alive;
    hide DependsBackward;
    hide CommonOrder;
    hide Onward;
    hide IsOpenUpdate;
    OnTrackMoves(states[lo], states[k], moves[k], states[k + 1], owner, i);
    ScheduleKeepsHealthy(states, moves, lo, hi, order);
    ScheduleKeepsHealthy(states, moves, lo, k + 1, order);
    ScheduleKeepsHealthy(states, moves, k + 1, hi, order);
    hide Inv;
    SameLength(states[k + 1], states[hi], owner, c);
  }

  /** The unpassed slots, as a finite set. */
  ghost function UnpassedSet(s: State): set<Ref> {
    set ref | ref in s.pushes && Unpassed(s.objects, ref)
  }

  lemma OnwardShrinks(s: State, t: State)
    requires Onward(s, t)
    ensures UnpassedSet(t) <= UnpassedSet(s)
  {
    forall ref | ref in UnpassedSet(t)
      ensures ref in UnpassedSet(s)
    {
      assert HasLog(s.objects, ref.owner, ref.collection);
      assert CursorOf(s, ref.owner, ref.collection) <= CursorOf(t, ref.owner, ref.collection);
    }
  }

  lemma MovedShrinks(s: State, t: State, owner: nat, c: nat)
    requires Inv(s) && Inv(t) && Onward(s, t) && owner in s.objects && owner in t.objects &&
             Moved(s.objects[owner], t.objects[owner], c)
    ensures UnpassedSet(t) < UnpassedSet(s)
  {
    OnwardShrinks(s, t);
    var ref := Ref(owner, c, s.objects[owner].logs[c].first);
    OwnerFacts(t, owner, {});
    OrderInLogs(t.objects[owner]);
    SameLength(s, t, owner, c);
    PushesKnown(s);
    hide Inv;
    hide Onward;
    hide WellFormed;
    assert Exists(s.objects, ref) && ref in s.pushes;
    assert ref in UnpassedSet(s) && ref !in UnpassedSet(t);
  }

  lemma SmallerSet<T>(a: set<T>, b: set<T>)
    requires a < b
    ensures |a| < |b|
  {
    assert b == a + (b - a) && b - a != {};
  }

  lemma SubsetSize<T>(a: set<T>, b: set<T>)
    requires a <= b
    ensures |a| <= |b|
  {
    if a != b {
      SmallerSet(a, b);
    }
  }

  lemma NoElements<T>(a: set<T>)
    ensures a == {} <==> |a| == 0
  {
  }

  lemma EmptyIsDrained(s: State)
    requires Inv(s)
    ensures SomethingUnpassed(s) <==> UnpassedSet(s) != {}
  {
    PushesKnown(s);
    hide Inv;
    if ref :| Unpassed(s.objects, ref) {
      assert ref in UnpassedSet(s);
    }
  }

  /** Rounds one after another, the first from whenever nothing is in flight. */
  ghost predicate FairRounds(states: seq<State>, moves: seq<Move>, marks: seq<nat>)
    requires |states| == |moves| + 1
  {
    && (forall r :: 0 <= r < |marks| ==> marks[r] <= |moves|)
    && forall r :: 0 <= r < |marks| - 1 ==> marks[r] <= marks[r + 1] && FairRound(states, moves, marks[r], marks[r + 1])
  }

  lemma {:induction false} RoundsShrink(states: seq<State>, moves: seq<Move>, marks: seq<nat>, order: seq<nat>, r: nat)
    requires IsSchedule(states, moves) && FairRounds(states, moves, marks) && r < |marks| && Healthy(states[0], order)
    ensures Healthy(states[marks[r]], order)
    ensures UnpassedSet(states[marks[r]]) == {} || |UnpassedSet(states[marks[r]])| + r <= |UnpassedSet(states[0])|
  {
    hide Healthy;
    hide FairRound;
    hide IsSchedule;
    hide UnpassedSet;
    ScheduleLength(states, moves);
    if r == 0 {
      ScheduleKeepsHealthy(states, moves, 0, marks[0], order);
      OnwardShrinks(states[0], states[marks[0]]);
      SubsetSize(UnpassedSet(states[marks[0]]), UnpassedSet(states[0]));
    } else {
      var lo, hi := marks[r - 1], marks[r];
      RoundsShrink(states, moves, marks, order, r - 1);
      RoundShrinks(states, moves, lo, hi, order);
      HealthyDrained(states[lo], order);
      if SomethingUnpassed(states[lo]) {
        SmallerSet(UnpassedSet(states[hi]), UnpassedSet(states[lo]));
      }
    }
  }

  lemma ScheduleLength(states: seq<State>, moves: seq<Move>)
    requires IsSchedule(states, moves)
    ensures |states| == |moves| + 1
  {
  }

  lemma HealthyDrained(s: State, order: seq<nat>)
    requires Healthy(s, order)
    ensures Inv(s) && (SomethingUnpassed(s) <==> UnpassedSet(s) != {})
  {
    EmptyIsDrained(s);
  }

  /** Liveness: from any healthy state, every schedule of fair rounds has passed every slot
      after at most as many rounds as there were unpassed slots, whatever the order of the
      updates, whatever their getters know, and however the pool works in between. */
  lemma EveryFairScheduleDrains(states: seq<State>, moves: seq<Move>, marks: seq<nat>, order: seq<nat>, r: nat)
    requires IsSchedule(states, moves) && FairRounds(states, moves, marks) && Healthy(states[0], order)
    requires |UnpassedSet(states[0])| <= r < |marks|
    ensures !SomethingUnpassed(states[marks[r]])
  {
    hide Healthy;
    hide FairRounds;
    RoundsAreMarked(states, moves, marks, r);
    RoundsShrink(states, moves, marks, order, r);
    HealthyDrained(states[marks[r]], order);
    NoElements(UnpassedSet(states[marks[r]]));
  }

  lemma RoundsAreMarked(states: seq<State>, moves: seq<Move>, marks: seq<nat>, r: nat)
    requires |states| == |moves| + 1 && FairRounds(states, moves, marks) && r < |marks|
    ensures marks[r] <= |moves|
  {
  }

  /** So it is in every disciplined run, once pushing stops. */
  lemma RunDrainsFairly(before: seq<State>, steps: seq<Step>, states: seq<State>, moves: seq<Move>, marks: seq<nat>,
      order: seq<nat>, r: nat)
    requires IsRun(before, steps) && forall i :: 0 <= i < |steps| ==> Disciplined(before[i], steps[i], order)
    requires IsSchedule(states, moves) && FairRounds(states, moves, marks) && states[0] == before[|steps|] &&
             Alive(states[0])
    requires |UnpassedSet(states[0])| <= r < |marks|
    ensures marks[r] <= |moves| && !SomethingUnpassed(states[marks[r]])
  {
    hide Inv;
    RunKeeps(before, steps, |steps|);
    RunIsDisciplined(before, steps, order, |steps|);
    RoundsAreMarked(states, moves, marks, r);
    EveryFairScheduleDrains(states, moves, marks, order, r);
  }

  // ---------------------------------------------------------------- a schedule that drains

  /** Every getter knows the objects in `known`. */
  predicate AllKnow(moves: seq<Move>, known: set<nat>) {
    forall k :: 0 <= k < |moves| && moves[k].UpdateMove? ==> moves[k].known == known
  }

  /** A schedule from `s` to `t` whose getters know every object. */
  ghost predicate Reaches(s: State, states: seq<State>, moves: seq<Move>, t: State) {
    && IsSchedule(states, moves) && states[0] == s && states[|moves|] == t
    && AllKnow(moves, s.objects.Keys)
  }

  /** Some such schedule passes everything and leaves nothing in flight. */
  ghost predicate CanDrain(s: State) {
    exists states, moves, t :: Reaches(s, states, moves, t) && Quiescent(t) && !SomethingUnpassed(t)
  }

  lemma ReachesOn(s: State, states: seq<State>, moves: seq<Move>, t: State, states': seq<State>,
      moves': seq<Move>, u: State)
    returns (all: seq<State>, both: seq<Move>)
    requires Reaches(s, states, moves, t) && Reaches(t, states', moves', u) && t.objects.Keys == s.objects.Keys
    ensures Reaches(s, all, both, u)
  {
    hide MoveTo;
    all, both := states + states'[1..], moves + moves';
    forall k | 0 <= k < |both|
      ensures MoveTo(all[k], both[k], all[k + 1])
    {
      if k < |moves| {
        assert MoveTo(states[k], moves[k], states[k + 1]);
      } else {
        assert MoveTo(states'[k - |moves|], moves'[k - |moves|], states'[k - |moves| + 1]);
      }
    }
  }

  lemma OneMove(s: State, m: Move, t: State)
    requires MoveTo(s, m, t) && (m.UpdateMove? ==> m.known == s.objects.Keys)
    ensures Reaches(s, [s, t], [m], t)
  {
  }

  lemma NoMove(s: State)
    ensures Reaches(s, [s], [], s)
  {
  }

  /** Whatever is in flight can finish, in dispatch order. */
  lemma {:induction false} Quiesce(s: State, k: nat) returns (states: seq<State>, moves: seq<Move>, t: State)
    requires Inv(s) && k <= |s.flights|
    requires forall j :: 0 <= j < k ==> s.flights[j].flagged == |s.flights[j].ids|
    ensures Reaches(s, states, moves, t) && Quiescent(t)
    decreases |s.flights| - k,
              if k == |s.flights| then 0
              else 2 * |s.flights[k].ids| - s.flights[k].effected - s.flights[k].flagged
  {
    hide Inv;
    hide Reaches;
    if k == |s.flights| {
      states, moves, t := [s], [], s;
      NoMove(s);
    } else {
      var f := s.flights[k];
      FlightFacts(s, k);
      if f.flagged == |f.ids| {
        states, moves, t := Quiesce(s, k + 1);
      } else {
        var step := if f.flagged < f.effected then Finish(k) else Execute(k);
        var next := Next(s, step);
        StepKeeps(s, step);
        PoolKeepsFlags(s, step);
        var rest, more;
        rest, more, t := Quiesce(next, k);
        OneMove(s, PoolMove(step), next);
        states, moves := ReachesOn(s, [s, next], [PoolMove(step)], next, rest, more, t);
      }
    }
  }

  lemma FlightFacts(s: State, k: nat)
    requires Inv(s) && k < |s.flights|
    ensures var f := s.flights[k];
            && f.flagged <= f.effected <= |f.ids|
            && (f.flagged < f.effected ==> Enabled(s, Finish(k)))
            && (f.flagged == f.effected < |f.ids| ==> Enabled(s, Execute(k)) && Executed(f).effected > f.effected)
  {
    assert FlightValid(s.objects, s.flights[k]);
  }

  lemma UpdateExists(s: State, owner: nat, diff: nat, known: set<nat>) returns (t: State)
    requires Inv(s) && owner in s.objects
    ensures Updated(s, owner, diff, known, t)
  {
    hide Inv;
    hide Update;
    var steps;
    steps, t := UpdateIsPath(s, owner, diff, known);
  }

  /** Waiting long enough opens the gate. */
  lemma OpenDiff(tx: Tx) returns (diff: nat)
    requires AliveObject(tx)
    ensures GateOpen(tx, diff)
  {
    diff := if tx.since >= tx.every then 0 else tx.every - tx.since;
    assert (tx.since + diff) % U64 == tx.since + diff;
  }

  lemma AliveEach(s: State, order: seq<nat>, owner: nat)
    requires Healthy(s, order) && owner in s.objects
    ensures Inv(s) && Alive(s) && AliveObject(s.objects[owner])
  {
  }

  /** One update that passes something. */
  lemma AdvanceOnce(s: State, order: seq<nat>) returns (m: Move, t: State)
    requires Healthy(s, order) && Quiescent(s) && SomethingUnpassed(s)
    ensures MoveTo(s, m, t) && m.UpdateMove? && m.known == s.objects.Keys
    ensures Healthy(t, order) && Onward(s, t) && UnpassedSet(t) < UnpassedSet(s)
  {
    var owner, i := FindTrack(s, order);
    TrackIndex(s, s, owner, i);
    hide Healthy;
    hide OnTrack;
    hide AllPassed;
    hide Onward;
    hide Inv;
    hide Alive;
    hide GateOpen;
    hide UnpassedSet;
    hide SomethingUnpassed;
    hide Quiescent;
    AliveEach(s, order, owner);
    var diff := OpenDiff(s.objects[owner]);
    m := UpdateMove(owner, diff, s.objects.Keys);
    t := UpdateExists(s, owner, diff, s.objects.Keys);
    assert MoveTo(s, m, t);
    hide Updated;
    MoveKeepsHealthy(s, m, t, order);
    OnTrackMoves(s, s, m, t, owner, i);
    AliveEach(t, order, owner);
    MovedShrinks(s, t, owner, s.objects[owner].order[i]);
  }

  lemma {:induction false} Drain(s: State, order: seq<nat>) returns (states: seq<State>, moves: seq<Move>, t: State)
    requires Healthy(s, order)
    ensures Reaches(s, states, moves, t) && Quiescent(t) && !SomethingUnpassed(t)
    decreases UnpassedSet(s)
  {
    hide Healthy;
    hide Onward;
    hide Reaches;
    hide MoveTo;
    hide Quiescent;
    hide SomethingUnpassed;
    hide UnpassedSet;
    hide Inv;
    HealthyDrained(s, order);
    var a;
    states, moves, a := Quiesce(s, 0);
    ReachesHealthy(s, states, moves, a, order);
    if SomethingUnpassed(a) {
      var m, b := AdvanceOnce(a, order);
      SameObjects(a, b);
      OnwardShrinks(s, a);
      var rest, more;
      rest, more, t := Drain(b, order);
      OneMove(a, m, b);
      states, moves := ReachesOn(s, states, moves, a, [a, b], [m], b);
      states, moves := ReachesOn(s, states, moves, b, rest, more, t);
    } else {
      t := a;
    }
  }

  lemma ReachesHealthy(s: State, states: seq<State>, moves: seq<Move>, t: State, order: seq<nat>)
    requires Reaches(s, states, moves, t) && Healthy(s, order)
    ensures Healthy(t, order) && Onward(s, t) && t.objects.Keys == s.objects.Keys
  {
    hide Healthy;
    ScheduleKeepsHealthy(states, moves, 0, |moves|, order);
    SameObjects(s, t);
  }

  lemma SameObjects(s: State, t: State)
    requires Onward(s, t)
    ensures t.objects.Keys == s.objects.Keys
  {
  }

  /** A schedule is a path of the system that adds nothing. */
  lemma {:induction false} ScheduleLeads(states: seq<State>, moves: seq<Move>, n: nat) returns (steps: seq<Step>)
    requires IsSchedule(states, moves) && n <= |moves| && Inv(states[0])
    ensures Leads(states[0], steps, states[n]) && Inv(states[n]) && forall k :: 0 <= k < |steps| ==> !Adds(steps[k])
  {
    hide Inv;
    if n == 0 {
      steps := [];
    } else {
      var front := ScheduleLeads(states, moves, n - 1);
      var last := MoveLeads(states[n - 1], moves[n - 1], states[n]);
      MoveOnward(states[n - 1], moves[n - 1], states[n]);
      LeadsOn(states[0], front, states[n - 1], last, states[n]);
      steps := front + last;
    }
  }

  /** Every disciplined run whose objects are alive extends, without pushing anything more
      and by updates whose getters know every object, to one that ends with every slot
      passed and nothing in flight. */
  lemma RunCanAlwaysDrain(states: seq<State>, steps: seq<Step>, order: seq<nat>)
      returns (all: seq<State>, more: seq<Step>)
    requires IsRun(states, steps) && Alive(states[|steps|])
    requires forall i :: 0 <= i < |steps| ==> Disciplined(states[i], steps[i], order)
    ensures IsRun(all, steps + more) && states <= all
    ensures var t := all[|steps + more|];
            t.pushes == states[|steps|].pushes && Quiescent(t) && !SomethingUnpassed(t)
    ensures CanDrain(states[|steps|])
  {
    hide Inv;
    hide Onward;
    var s := states[|steps|];
    RunKeeps(states, steps, |steps|);
    RunIsDisciplined(states, steps, order, |steps|);
    assert Healthy(s, order);
    var path, moves, t := Drain(s, order);
    more := ScheduleLeads(path, moves, |moves|);
    LeadsOnward(s, more, t);
    OnwardPushes(s, t);
    all := RunExtends(states, steps, more, t);
  }

  lemma OnwardPushes(s: State, t: State)
    requires Onward(s, t)
    ensures t.pushes == s.pushes
  {
  }
}
