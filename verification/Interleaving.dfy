/** Fairness step by step: updates are not atomic, and nothing ever has to come to rest. The
    gate of an update, its cuts, the pool and the updates of other objects interleave in any
    way. */
module Interleaving {
  import opened TransactionLog
  import opened TransactionState
  import opened Scheduler
  import opened SchedulerInvariant
  import opened SchedulerTheorems
  import opened Progress
  import opened Blocking
  import opened Draining

  /** Steps of the system that push and create nothing. */
  ghost predicate IsPath(states: seq<State>, steps: seq<Step>) {
    && |states| == |steps| + 1
    && forall k :: 0 <= k < |steps| ==>
         Enabled(states[k], steps[k]) && states[k + 1] == Next(states[k], steps[k]) && !Adds(steps[k])
  }

  /** The position of the first collection of `tx` that has something left. */
  predicate IsFirstLeft(tx: Tx, i: nat) {
    && i < |tx.order| && PassedBefore(tx, 0, i) && tx.order[i] in tx.logs
    && tx.logs[tx.order[i]].first < |tx.logs[tx.order[i]].slots|
  }

  /** The step cuts a batch from the first collection of `owner` that has something left. */
  ghost predicate CutsFirst(s: State, step: Step, owner: nat) {
    && step.CutBatch? && step.owner == owner && owner in s.objects
    && exists i :: 0 <= i < |s.objects[owner].order| && s.objects[owner].order[i] == step.collection &&
        IsFirstLeft(s.objects[owner], i)
  }

  /** An open update of `owner` among the steps `[lo, hi)`: its gate opens, and later, with
      anything in between, its pass comes to the first collection that has something left. */
  ghost predicate UpdatesIn(states: seq<State>, steps: seq<Step>, lo: nat, hi: nat, owner: nat)
    requires |states| == |steps| + 1 && lo <= hi <= |steps|
  {
    exists g, h :: lo <= g < h < hi && Opens(states[g], steps[g], owner) && CutsFirst(states[h], steps[h], owner)
  }

  /** The batches in flight in `s` have finished in `t`. */
  ghost predicate FinishedBy(s: State, t: State) {
    |s.flights| <= |t.flights| && forall k :: 0 <= k < |s.flights| ==> t.flights[k].flagged == |t.flights[k].ids|
  }

  /** Every object that has something left at the start gets an open update, and every batch
      in flight at the start has finished by the end. */
  ghost predicate IsRound(states: seq<State>, steps: seq<Step>, lo: nat, hi: nat)
    requires |states| == |steps| + 1 && lo <= hi <= |steps|
  {
    && FinishedBy(states[lo], states[hi])
    && forall o :: o in states[lo].objects && !AllPassed(states[lo].objects[o]) ==> UpdatesIn(states, steps, lo, hi, o)
  }

  // ---------------------------------------------------------------- along a path

  /** Every dependency on an earlier job, one iteration order. */
  ghost predicate Sound(s: State, order: seq<nat>) {
    Inv(s) && DependsBackward(s) && CommonOrder(s, order)
  }

  /** Batches stay in their places. */
  ghost predicate FlightsStay(s: State, t: State) {
    && |s.flights| <= |t.flights|
    && forall k :: 0 <= k < |s.flights| ==>
         ForLog(t.flights[k], s.flights[k].owner, s.flights[k].collection) && t.flights[k].ids == s.flights[k].ids
  }

  lemma StepKeepsFlights(s: State, step: Step)
    requires Enabled(s, step)
    ensures FlightsStay(s, Next(s, step))
  {
    hide Scan;
    hide CanDelete;
  }

  lemma FlightsStayTwice(a: State, b: State, c: State)
    requires FlightsStay(a, b) && FlightsStay(b, c)
    ensures FlightsStay(a, c)
  {
  }

  lemma StepSound(s: State, step: Step, order: seq<nat>)
    requires Sound(s, order) && Enabled(s, step) && !Adds(step)
    ensures Sound(Next(s, step), order) && Onward(s, Next(s, step))
  {
    StepKeeps(s, step);
    StepOnward(s, step);
    hide Next;
    hide Enabled;
    BackwardKept(s, Next(s, step));
    hide Inv;
    hide DependsBackward;
  }

  lemma {:induction false} PathSound(states: seq<State>, steps: seq<Step>, lo: nat, hi: nat, order: seq<nat>)
    requires IsPath(states, steps) && lo <= hi <= |steps| && Sound(states[lo], order)
    ensures Sound(states[hi], order) && Onward(states[lo], states[hi]) && FlightsStay(states[lo], states[hi])
    decreases hi
  {
    hide Sound;
    hide Onward;
    hide FlightsStay;
    hide Next;
    hide Enabled;
    if lo == hi {
      OnwardNowhere(states[lo]);
      assert FlightsStay(states[lo], states[lo]) by { FlightsStayHere(states[lo]); }
    } else {
      PathSound(states, steps, lo, hi - 1, order);
      StepSound(states[hi - 1], steps[hi - 1], order);
      StepKeepsFlights(states[hi - 1], steps[hi - 1]);
      OnwardTwice(states[lo], states[hi - 1], states[hi]);
      FlightsStayTwice(states[lo], states[hi - 1], states[hi]);
    }
  }

  lemma FlightsStayHere(s: State)
    ensures FlightsStay(s, s)
  {
  }

  // ---------------------------------------------------------------- one round makes a slot ready

  /** A job passed in `s` is done once the batches then in flight have finished. */
  lemma PassedJobDone(s: State, t: State, target: Ref)
    requires Inv(s) && Inv(t) && FlightsStay(s, t) && FinishedBy(s, t)
    requires Exists(s.objects, target) && !SlotOf(s.objects, target).work.Depends? && !Unpassed(s.objects, target)
    ensures Exists(t.objects, target) && SlotOf(t.objects, target).done
  {
    var k, j := JobInBatch(s, target);
    assert FlightValid(t.objects, t.flights[k]);
    hide Inv;
    hide FlightsValid;
    assert RefAt(t.flights[k], j) == target;
  }

  /** The cursor of the first slot, in push order, of the first collection with something
      left: after one round it has moved, or it is ready. */
  lemma ReadyAfterRound(s: State, t: State, order: seq<nat>) returns (owner: nat, i: nat)
    requires Sound(s, order) && Sound(t, order) && SomethingUnpassed(s) && Onward(s, t) && FlightsStay(s, t) &&
             FinishedBy(s, t)
    ensures owner in s.objects && owner in t.objects && i < |order| &&
            s.objects[owner].order == order == t.objects[owner].order
    ensures HasLog(s.objects, owner, order[i]) && HasLog(t.objects, owner, order[i])
    ensures Moved(s.objects[owner], t.objects[owner], order[i]) || OnTrack(t, t, owner, i)
  {
    var q := FirstInOrder(s, order);
    var ref := s.pushes[q];
    owner := ref.owner;
    i :| 0 <= i < |order| && order[i] == ref.collection && NothingBefore(s, order, i);
    FirstIsAtCursor(s, q);
    NothingBeforeIsPassed(s, order, i, owner);
    OwnOrder(s, t, owner);
    hide Inv;
    hide SomethingUnpassed;
    hide NothingBefore;
    SameLength(s, t, owner, ref.collection);
    PassedBeforeStays(s, t, owner, i);
    if CursorOf(t, owner, ref.collection) == CursorOf(s, owner, ref.collection) {
      ReadyIfFinished(s, t, q);
    }
  }

  lemma ReadyIfFinished(s: State, t: State, q: nat)
    requires Inv(s) && Inv(t) && DependsBackward(s) && Onward(s, t) && FlightsStay(s, t) && FinishedBy(s, t)
    requires q < |s.pushes| && Unpassed(s.objects, s.pushes[q])
    requires forall r :: 0 <= r < q && s.pushes[r].collection == s.pushes[q].collection ==>
             !Unpassed(s.objects, s.pushes[r])
    requires s.pushes[q].id == CursorOf(s, s.pushes[q].owner, s.pushes[q].collection) ==
             CursorOf(t, s.pushes[q].owner, s.pushes[q].collection)
    ensures Ready(t.objects, s.pushes[q].owner, s.pushes[q].collection)
  {
    var ref := s.pushes[q];
    var work := SlotOf(s.objects, ref).work;
    SameLength(s, t, ref.owner, ref.collection);
    assert Exists(t.objects, ref) && SlotOf(t.objects, ref).work == work;
    if work.Depends? {
      var target := Ref(work.owner, ref.collection, work.id);
      assert JobBefore(s, q, target);
      PassedBeforePush(s, q, target);
      hide Inv;
      hide DependsBackward;
      hide Onward;
      PassedJobDone(s, t, target);
    }
  }

  lemma PassedBeforePush(s: State, q: nat, target: Ref)
    requires q < |s.pushes| && JobBefore(s, q, target) && target.collection == s.pushes[q].collection
    requires forall r :: 0 <= r < q && s.pushes[r].collection == s.pushes[q].collection ==>
             !Unpassed(s.objects, s.pushes[r])
    ensures !Unpassed(s.objects, target)
  {
    var r :| 0 <= r < q && s.pushes[..q][r] == target;
    assert s.pushes[r] == target;
  }

  // ---------------------------------------------------------------- the next round passes it

  lemma FirstLeftIsUnique(tx: Tx, i: nat, j: nat)
    requires IsFirstLeft(tx, i) && IsFirstLeft(tx, j)
    ensures i == j
  {
  }

  lemma ReadyIsLeft(t: State, owner: nat, i: nat)
    requires owner in t.objects && i < |t.objects[owner].order| && PassedBefore(t.objects[owner], 0, i)
    requires Ready(t.objects, owner, t.objects[owner].order[i])
    ensures IsFirstLeft(t.objects[owner], i) && !AllPassed(t.objects[owner])
  {
  }

  /** The update that comes to a ready slot passes it. */
  lemma CutMovesReady(s: State, t: State, step: Step, owner: nat, i: nat)
    requires Inv(t) && OnTrack(s, t, owner, i) && Enabled(t, step) && CutsFirst(t, step, owner)
    requires HasLog(s.objects, owner, s.objects[owner].order[i])
    ensures owner in Next(t, step).objects &&
            Moved(s.objects[owner], Next(t, step).objects[owner], s.objects[owner].order[i])
  {
    var c := s.objects[owner].order[i];
    hide Inv;
    if Moved(s.objects[owner], t.objects[owner], c) {
      StepMovesCursor(t, step, owner, c);
    } else {
      ReadyIsLeft(t, owner, i);
      var j :| 0 <= j < |t.objects[owner].order| && t.objects[owner].order[j] == step.collection &&
          IsFirstLeft(t.objects[owner], j);
      FirstLeftIsUnique(t.objects[owner], i, j);
      ReadyMoves(t, owner, c, step.known);
      StepMovesCursor(t, step, owner, c);
    }
    hide Next;
    hide Scan;
  }

  lemma {:induction false} TrackOnPath(states: seq<State>, steps: seq<Step>, lo: nat, k: nat, order: seq<nat>,
      owner: nat, i: nat)
    requires IsPath(states, steps) && lo <= k <= |steps| && Sound(states[lo], order) &&
             OnTrack(states[lo], states[lo], owner, i)
    requires HasLog(states[lo].objects, owner, states[lo].objects[owner].order[i])
    ensures Sound(states[k], order) && OnTrack(states[lo], states[k], owner, i)
    decreases k
  {
    TrackIndex(states[lo], states[lo], owner, i);
    PathSound(states, steps, lo, k, order);
    hide Inv;
    hide DependsBackward;
    hide Onward;
    hide OnTrack;
    hide IsPath;
    OnTrackStays(states[lo], states[lo], states[k], owner, i);
  }

  lemma RoundPassesReady(states: seq<State>, steps: seq<Step>, lo: nat, hi: nat, order: seq<nat>, owner: nat, i: nat)
    requires IsPath(states, steps) && lo <= hi <= |steps| && Sound(states[lo], order) && IsRound(states, steps, lo, hi)
    requires OnTrack(states[lo], states[lo], owner, i) &&
             HasLog(states[lo].objects, owner, states[lo].objects[owner].order[i])
    ensures owner in states[hi].objects &&
            Moved(states[lo].objects[owner], states[hi].objects[owner], states[lo].objects[owner].order[i])
  {
    var c := states[lo].objects[owner].order[i];
    ReadyIsLeft(states[lo], owner, i);
    assert UpdatesIn(states, steps, lo, hi, owner);
    var g, h :| lo <= g < h < hi && Opens(states[g], steps[g], owner) && CutsFirst(states[h], steps[h], owner);
    TrackOnPath(states, steps, lo, h, order, owner, i);
    assert Enabled(states[h], steps[h]) && states[h + 1] == Next(states[h], steps[h]);
    hide Next;
    hide Enabled;
    hide OnTrack;
    hide CutsFirst;
    hide Inv;
    hide DependsBackward;
    hide CommonOrder;
    CutMovesReady(states[lo], states[h], steps[h], owner, i);
    PathSound(states, steps, lo, h + 1, order);
    PathSound(states, steps, h + 1, hi, order);
    hide IsPath;
    SameLength(states[h + 1], states[hi], owner, c);
  }

  // ---------------------------------------------------------------- two rounds pass a slot

  /** Two rounds one after the other pass at least one slot, if there is any. */
  lemma TwoRoundsShrink(states: seq<State>, steps: seq<Step>, lo: nat, mid: nat, hi: nat, order: seq<nat>)
    requires IsPath(states, steps) && lo <= mid <= hi <= |steps| && Sound(states[lo], order)
    requires IsRound(states, steps, lo, mid) && IsRound(states, steps, mid, hi)
    ensures Sound(states[hi], order) && UnpassedSet(states[hi]) <= UnpassedSet(states[lo])
    ensures SomethingUnpassed(states[lo]) ==> UnpassedSet(states[hi]) < UnpassedSet(states[lo])
  {
    PathSound(states, steps, lo, mid, order);
    PathSound(states, steps, mid, hi, order);
    OnwardTwice(states[lo], states[mid], states[hi]);
    OnwardShrinks(states[lo], states[hi]);
    if SomethingUnpassed(states[lo]) {
      assert FinishedBy(states[lo], states[mid]);
      hide IsRound;
      hide FlightsStay;
      hide FinishedBy;
      hide Onward;
      hide OnTrack;
      hide IsPath;
      var owner, i := ReadyAfterRound(states[lo], states[mid], order);
      var c := order[i];
      if Moved(states[lo].objects[owner], states[mid].objects[owner], c) {
        SameLength(states[mid], states[hi], owner, c);
        OwnOrder(states[mid], states[hi], owner);
      } else {
        RoundPassesReady(states, steps, mid, hi, order, owner, i);
        SameLength(states[lo], states[mid], owner, c);
      }
      SoundInv(states[lo], order);
      SoundInv(states[hi], order);
      MovedShrinks(states[lo], states[hi], owner, c);
    }
  }

  lemma SoundInv(s: State, order: seq<nat>)
    requires Sound(s, order)
    ensures Inv(s)
  {
  }

  /** Rounds one after another, the first starting at any moment. */
  ghost predicate Rounds(states: seq<State>, steps: seq<Step>, marks: seq<nat>)
    requires |states| == |steps| + 1
  {
    && (forall r :: 0 <= r < |marks| ==> marks[r] <= |steps|)
    && forall r :: 0 <= r < |marks| - 1 ==> marks[r] <= marks[r + 1] && IsRound(states, steps, marks[r], marks[r + 1])
  }

  lemma {:induction false} PairsShrink(states: seq<State>, steps: seq<Step>, marks: seq<nat>, order: seq<nat>, m: nat)
    requires IsPath(states, steps) && Rounds(states, steps, marks) && 2 * m < |marks| && Sound(states[0], order)
    ensures Sound(states[marks[2 * m]], order)
    ensures UnpassedSet(states[marks[2 * m]]) == {} ||
            |UnpassedSet(states[marks[2 * m]])| + m <= |UnpassedSet(states[0])|
  {
    hide Sound;
    hide IsRound;
    hide UnpassedSet;
    PathLength(states, steps);
    hide IsPath;
    if m == 0 {
      PathSound(states, steps, 0, marks[0], order);
      OnwardShrinks(states[0], states[marks[0]]);
      SubsetSize(UnpassedSet(states[marks[0]]), UnpassedSet(states[0]));
    } else {
      var lo, mid, hi := marks[2 * m - 2], marks[2 * m - 1], marks[2 * m];
      assert IsRound(states, steps, marks[2 * m - 2], marks[2 * m - 2 + 1]);
      assert IsRound(states, steps, marks[2 * m - 1], marks[2 * m - 1 + 1]);
      PairsShrink(states, steps, marks, order, m - 1);
      TwoRoundsShrink(states, steps, lo, mid, hi, order);
      SoundInv(states[lo], order);
      hide Inv;
      EmptyIsDrained(states[lo]);
      if SomethingUnpassed(states[lo]) {
        SmallerSet(UnpassedSet(states[hi]), UnpassedSet(states[lo]));
      }
    }
  }

  lemma PathLength(states: seq<State>, steps: seq<Step>)
    requires IsPath(states, steps)
    ensures |states| == |steps| + 1
  {
  }

  /** Liveness, step by step: once pushing has stopped after a disciplined run, every way to
      go on in such rounds has passed every slot after at most twice as many rounds as there
      were unpassed slots. */
  lemma EveryInterleavedScheduleDrains(before: seq<State>, past: seq<Step>, states: seq<State>, steps: seq<Step>,
                                       marks: seq<nat>, order: seq<nat>, r: nat)
    requires Scheduler.IsRun(before, past) && forall i :: 0 <= i < |past| ==> Disciplined(before[i], past[i], order)
    requires IsPath(states, steps) && states[0] == before[|past|] && Rounds(states, steps, marks)
    requires 2 * |UnpassedSet(states[0])| <= r < |marks|
    ensures marks[r] <= |steps| && !SomethingUnpassed(states[marks[r]])
  {
    hide Inv;
    hide Next;
    hide Enabled;
    hide Disciplined;
    RunKeeps(before, past, |past|);
    RunIsDisciplined(before, past, order, |past|);
    assert Sound(states[0], order);
    hide Sound;
    hide IsRound;
    hide UnpassedSet;
    hide DependsBackward;
    var m := |UnpassedSet(states[0])|;
    PathLength(states, steps);
    hide IsPath;
    PairsShrink(states, steps, marks, order, m);
    NoElements(UnpassedSet(states[marks[2 * m]]));
    MarksRise(states, steps, marks, 2 * m, r);
    PathSound(states, steps, marks[2 * m], marks[r], order);
    OnwardShrinks(states[marks[2 * m]], states[marks[r]]);
    SoundInv(states[marks[r]], order);
    EmptyIsDrained(states[marks[r]]);
  }

  lemma {:induction false} MarksRise(states: seq<State>, steps: seq<Step>, marks: seq<nat>, q: nat, r: nat)
    requires |states| == |steps| + 1 && Rounds(states, steps, marks) && q <= r < |marks|
    ensures marks[q] <= marks[r]
    decreases r
  {
    hide IsRound;
    if q < r {
      MarksRise(states, steps, marks, q, r - 1);
      assert marks[r - 1] <= marks[r - 1 + 1];
    }
  }
}
