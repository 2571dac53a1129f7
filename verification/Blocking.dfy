/** A dependency on a slot that is itself a dependency is never met: dependency slots are
    passed, but never done. Nor is one on its own slot or a later one of its own log, which
    waits behind it. What is behind such a dependency never takes effect. */
module Blocking {
  import opened TransactionLog
  import opened TransactionState
  import opened Scheduler
  import opened SchedulerInvariant
  import opened SchedulerTheorems
  import opened Progress

  /** Slot `d` of the log, which the cursor has not passed, waits for slot `id` of `other`,
      and that is a dependency too, or not before it in the same log. */
  ghost predicate WaitsInVain(s: State, owner: nat, c: nat, d: nat, other: nat, id: nat) {
    && Exists(s.objects, Ref(owner, c, d)) && SlotOf(s.objects, Ref(owner, c, d)).work == Depends(other, id)
    && Exists(s.objects, Ref(other, c, id))
    && (SlotOf(s.objects, Ref(other, c, id)).work.Depends? || (other == owner && id >= d))
    && s.objects[owner].logs[c].first <= d
  }

  /** A scan of the log whose getter can find `other`. */
  predicate Finds(step: Step, owner: nat, c: nat, other: nat) {
    step.CutBatch? && step.owner == owner && step.collection == c ==> other in step.known
  }

  /** Such a scan stops in front of the dependency. */
  lemma ScanStopsThere(s: State, owner: nat, c: nat, d: nat, other: nat, id: nat, known: set<nat>)
    requires Inv(s) && WaitsInVain(s, owner, c, d, other, id) && other in known
    ensures s.objects[owner].logs[c].first <= |s.objects[owner].logs[c].slots|
    ensures Scan(s.objects[owner].logs[c], PeersOf(s.objects, known, c)).stop <= d
  {
    var log := s.objects[owner].logs[c];
    var peers := PeersOf(s.objects, known, c);
    InvHasValid(s);
    ObjectIsValid(s, owner);
    ObjectIsValid(s, other);
    ScanIsSweep(log.slots, log.first, Neither, peers);
    if SlotOf(s.objects, Ref(other, c, id)).work.Depends? {
      NeverDone(s.objects[other], c, id);
    }
    hide Valid;
    assert !Met(peers, other, id);
  }

  lemma NeverDone(tx: Tx, c: nat, id: nat)
    requires Valid(tx) && c in tx.logs && id < |tx.logs[c].slots| && tx.logs[c].slots[id].work.Depends?
    ensures !tx.logs[c].slots[id].done
  {
    hide Accounted;
  }

  /** No step moves a cursor back, and only a scan of the log moves it at all. */
  lemma StepMovesCursor(s: State, step: Step, owner: nat, c: nat)
    requires Inv(s) && Enabled(s, step) && HasLog(s.objects, owner, c)
    ensures HasLog(Next(s, step).objects, owner, c)
    ensures var log := s.objects[owner].logs[c]; var after := Next(s, step).objects[owner].logs[c];
            && log.first <= |log.slots|
            && log.first <= after.first
            && after.first == if step.CutBatch? && step.owner == owner && step.collection == c then
                                Scan(log, PeersOf(s.objects, step.known, c)).stop
                              else log.first
  {
    InvHasValid(s);
    ObjectIsValid(s, owner);
    hide Inv;
    hide Valid;
    hide Scan;
    hide Next;
    if step.CutBatch? {
      CutMovesCursor(s, step.owner, step.collection, step.known, owner, c);
      CutIsNext(s, step);
    } else {
      OthersMoveNothing(s, step, owner, c);
    }
  }

  lemma CutIsNext(s: State, step: Step)
    requires Enabled(s, step) && step.CutBatch?
    ensures Next(s, step) == Cut(s, step.owner, step.collection, step.known)
  {
    hide Scan;
  }

  lemma OthersMoveNothing(s: State, step: Step, owner: nat, c: nat)
    requires Enabled(s, step) && HasLog(s.objects, owner, c) && !step.CutBatch?
    ensures HasLog(Next(s, step).objects, owner, c)
    ensures Next(s, step).objects[owner].logs[c].first == s.objects[owner].logs[c].first
  {
    hide CanDelete;
    hide Cut;
    hide Executed;
    hide RefsOf;
  }

  lemma CutMovesCursor(s: State, owner: nat, c: nat, known: set<nat>, o: nat, d: nat)
    requires ObjectsValid(s) && Enabled(s, CutBatch(owner, c, known)) && HasLog(s.objects, o, d)
    ensures HasLog(Cut(s, owner, c, known).objects, o, d)
    ensures var log := s.objects[o].logs[d]; var after := Cut(s, owner, c, known).objects[o].logs[d];
            && log.first <= |log.slots| && log.first <= after.first
            && after.first == if owner == o && c == d then Scan(log, PeersOf(s.objects, known, d)).stop else log.first
  {
    ObjectIsValid(s, owner);
    ObjectIsValid(s, o);
    hide Valid;
    hide Scan;
    CutLogIs(s, owner, c, known, o, d);
    hide Cut;
    if o == owner && d == c {
      AdvanceStaysUntouched(s.objects[o].logs[d], PeersOf(s.objects, known, d));
    }
  }

  lemma CutLogIs(s: State, owner: nat, c: nat, known: set<nat>, o: nat, d: nat)
    requires Enabled(s, CutBatch(owner, c, known)) && HasLog(s.objects, o, d)
    ensures HasLog(Cut(s, owner, c, known).objects, o, d)
    ensures var log := s.objects[o].logs[d];
            Cut(s, owner, c, known).objects[o].logs[d] ==
              if o == owner && d == c then Advance(log, Scan(log, PeersOf(s.objects, known, d))) else log
  {
    hide Scan;
    hide Advance;
    hide NewHonours;
    hide PeersOf;
  }

  lemma StepStaysBlocked(s: State, step: Step, owner: nat, c: nat, d: nat, other: nat, id: nat)
    requires Inv(s) && Enabled(s, step) && Finds(step, owner, c, other)
    requires WaitsInVain(s, owner, c, d, other, id)
    ensures WaitsInVain(Next(s, step), owner, c, d, other, id)
    ensures Next(s, step).objects[owner].logs[c].first >= s.objects[owner].logs[c].first
  {
    hide Inv;
    StepMovesCursor(s, step, owner, c);
    if step.CutBatch? && step.owner == owner && step.collection == c {
      ScanStopsThere(s, owner, c, d, other, id, step.known);
    }
    StepKeepsWork(s, step);
    hide Next;
    hide Scan;
    assert Exists(s.objects, Ref(owner, c, d)) && Exists(s.objects, Ref(other, c, id));
  }

  /** Such a dependency blocks for ever: from any state of any run on, as long as the getters
      find the owner of its target, the cursor never passes it and nothing behind it ever takes effect,
      whatever else happens. Once the cursor is there, it does not move. */
  lemma {:induction false} VainDependencyBlocks(states: seq<State>, steps: seq<Step>, i: nat, j: nat,
                                                   owner: nat, c: nat, d: nat, other: nat, id: nat)
    requires IsRun(states, steps) && i <= j <= |steps| && WaitsInVain(states[i], owner, c, d, other, id)
    requires forall k :: i <= k < j ==> Finds(steps[k], owner, c, other)
    ensures WaitsInVain(states[j], owner, c, d, other, id)
    ensures states[i].objects[owner].logs[c].first <= states[j].objects[owner].logs[c].first <= d
    ensures forall later :: later >= d ==> Ref(owner, c, later) !in states[j].trace
  {
    hide Inv;
    hide Next;
    hide Enabled;
    if i < j {
      VainDependencyBlocks(states, steps, i, j - 1, owner, c, d, other, id);
      RunKeeps(states, steps, j - 1);
      StepStaysBlocked(states[j - 1], steps[j - 1], owner, c, d, other, id);
    }
    RunKeeps(states, steps, j);
    forall later | later >= d && Ref(owner, c, later) in states[j].trace
      ensures false
    {
      EffectIsPassed(states[j], Ref(owner, c, later));
    }
  }

  lemma EffectIsPassed(s: State, ref: Ref)
    requires Inv(s) && ref in s.trace
    ensures HasLog(s.objects, ref.owner, ref.collection) && ref.id < s.objects[ref.owner].logs[ref.collection].first
  {
    TraceIsPassed(s, ref);
  }
}
