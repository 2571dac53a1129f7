/** The deletion check: when it is right that an object which is told to go has nothing in
    flight, exactly when it can go wrong, and when it never succeeds. */
module Deletion {
  import opened TransactionLog
  import opened TransactionState
  import opened Scheduler
  import opened SchedulerInvariant
  import opened DispatchOrder
  import opened SchedulerTheorems
  import opened Blocking

  // ---------------------------------------------------------------- logs and their last slot

  predicate LastDone(log: Log) {
    log.slots != [] && log.slots[|log.slots| - 1].done
  }

  predicate EndsInDependency(log: Log) {
    log.slots != [] && log.slots[|log.slots| - 1].work.Depends?
  }

  /** Every batch of the log has finished. */
  ghost predicate BatchesFinished(s: State, owner: nat, c: nat) {
    forall k :: 0 <= k < |s.flights| && ForLog(s.flights[k], owner, c) ==> s.flights[k].flagged == |s.flights[k].ids|
  }

  /** Every job of the log is done and every batch of it has finished. */
  ghost predicate AllDone(s: State, owner: nat, c: nat)
    requires HasLog(s.objects, owner, c)
  {
    var log := s.objects[owner].logs[c];
    && log.first == |log.slots|
    && (forall i :: 0 <= i < |log.slots| && !log.slots[i].work.Depends? ==> log.slots[i].done)
    && BatchesFinished(s, owner, c)
  }

  /** The last slot of the log has not been marked done while a batch of it is in flight. */
  ghost predicate NotOvertaken(s: State, owner: nat, c: nat) {
    HasLog(s.objects, owner, c) && LastDone(s.objects[owner].logs[c]) ==> BatchesFinished(s, owner, c)
  }

  ghost predicate NoneOvertaken(s: State, owner: nat) {
    forall c :: NotOvertaken(s, owner, c)
  }

  /** A step that marks the last slot of a log of `owner` done comes after all earlier batches
      of that log have finished. */
  ghost predicate LastComesLast(s: State, step: Step, owner: nat) {
    step.Finish? && step.flight < |s.flights| && s.flights[step.flight].owner == owner
    && s.flights[step.flight].flagged < |s.flights[step.flight].ids|
    && HasLog(s.objects, owner, s.flights[step.flight].collection)
    && s.flights[step.flight].ids[s.flights[step.flight].flagged] + 1 ==
        |s.objects[owner].logs[s.flights[step.flight].collection].slots|
    ==> EarlierFinished(s.flights, step.flight)
  }

  // ---------------------------------------------------------------- what keeps logs from being overtaken

  /** The batch that holds the last slot of a log is the last batch, and holds it last. */
  lemma LastJobIsLast(s: State, l: nat, j: nat, k: nat, last: nat)
    requires FlightsValid(s) && HistoryIsPassedJobs(s) && l < |s.flights| && j < |s.flights[l].ids| && k < |s.flights|
    requires ForLog(s.flights[k], s.flights[l].owner, s.flights[l].collection) && s.flights[l].ids[j] == last
    requires HasLog(s.objects, s.flights[l].owner, s.flights[l].collection)
    requires |s.objects[s.flights[l].owner].logs[s.flights[l].collection].slots| == last + 1
    ensures k <= l && j == |s.flights[l].ids| - 1
  {
    var f, g := s.flights[k], s.flights[l];
    assert FlightValid(s.objects, f) && FlightValid(s.objects, g);
    IdsIncrease(s.objects, g);
    HistoryIncreases(s, g.owner, g.collection);
    var end := g.ids[|g.ids| - 1];
    assert end <= last && f.ids[0] <= last;
    if l < k {
      HistoryOrders(s.flights, g.owner, g.collection, l, j, k, 0);
    }
  }

  /** The logs and batches of `owner` in collection `c` are the same. */
  ghost predicate SameLog(s: State, t: State, owner: nat, c: nat) {
    && (HasLog(t.objects, owner, c) <==> HasLog(s.objects, owner, c))
    && (HasLog(s.objects, owner, c) ==> t.objects[owner].logs[c] == s.objects[owner].logs[c])
    && |s.flights| <= |t.flights|
    && (forall k :: 0 <= k < |s.flights| && ForLog(s.flights[k], owner, c) ==>
          ForLog(t.flights[k], owner, c) && t.flights[k].flagged == s.flights[k].flagged &&
              t.flights[k].ids == s.flights[k].ids)
    && (forall k :: 0 <= k < |t.flights| && ForLog(t.flights[k], owner, c) ==>
        k < |s.flights| && ForLog(s.flights[k], owner, c))
  }

  lemma SameLogStays(s: State, t: State, owner: nat, c: nat)
    requires SameLog(s, t, owner, c) && NotOvertaken(s, owner, c)
    ensures NotOvertaken(t, owner, c)
  {
  }

  /** A finish of another log, and any step that touches neither logs nor batches of this one. */
  lemma QuietStep(s: State, step: Step, owner: nat, c: nat)
    requires Enabled(s, step) && !step.CutBatch? && !step.Create?
    requires step.PushWork? ==> step.owner != owner || step.collection != c
    requires step.Finish? ==> !ForLog(s.flights[step.flight], owner, c)
    ensures SameLog(s, Next(s, step), owner, c)
  {
    hide CanDelete;
  }

  lemma PushNotOvertaken(s: State, step: Step, owner: nat, c: nat)
    requires Enabled(s, step) && step.PushWork? && step.owner == owner && step.collection == c
    ensures NotOvertaken(Next(s, step), owner, c)
  {
  }

  lemma CreateNotOvertaken(s: State, step: Step, owner: nat, c: nat)
    requires Enabled(s, step) && step.Create? && NotOvertaken(s, owner, c)
    ensures NotOvertaken(Next(s, step), owner, c)
  {
  }

  /** A log whose last slot is done has been passed, so nothing is cut from it. */
  lemma LastDoneIsPassed(log: Log, peers: Peers)
    requires Untouched(log) && LastDone(log)
    ensures log.first == |log.slots| && Scan(log, peers) == Sweep(log.first, [], Neither)
  {
  }

  /** The flights after a cut. */
  lemma CutFlightsAre(s: State, owner: nat, c: nat, known: set<nat>)
    requires Enabled(s, CutBatch(owner, c, known))
    ensures var sweep := Scan(s.objects[owner].logs[c], PeersOf(s.objects, known, c));
            Next(s, CutBatch(owner, c, known)).flights ==
              if sweep.ids == [] then s.flights else s.flights + [Flight(owner, c, sweep.ids, sweep.run, 0, 0)]
  {
    hide Scan;
    hide Take;
    hide NewHonours;
  }

  /** A cut of the log itself: if its last slot is done, there is nothing left to cut. */
  lemma CutOwn(s: State, owner: nat, c: nat, known: set<nat>)
    requires Enabled(s, CutBatch(owner, c, known)) && Untouched(s.objects[owner].logs[c]) && NotOvertaken(s, owner, c)
    ensures NotOvertaken(Next(s, CutBatch(owner, c, known)), owner, c)
  {
    var log := s.objects[owner].logs[c];
    var peers := PeersOf(s.objects, known, c);
    AdvanceStaysUntouched(log, peers);
    hide Scan;
    hide PeersOf;
    CutLogIs(s, owner, c, known, owner, c);
    CutFlightsAre(s, owner, c, known);
    CutIsNext(s, CutBatch(owner, c, known));
    hide Cut;
    hide Next;
    FlagsSpeak(log.slots, Advance(log, Scan(log, peers)).slots);
    hide Advance;
    hide DoneFlags;
    if LastDone(log) {
      LastDoneIsPassed(log, peers);
    }
    hide Untouched;
  }

  lemma CutOther(s: State, owner: nat, c: nat, known: set<nat>, o: nat, d: nat)
    requires Enabled(s, CutBatch(owner, c, known)) && (o != owner || d != c)
    ensures SameLog(s, Next(s, CutBatch(owner, c, known)), o, d)
  {
    CutFlightsAre(s, owner, c, known);
    CutIsNext(s, CutBatch(owner, c, known));
    hide Scan;
    hide NewHonours;
    hide Advance;
  }

  lemma CutNotOvertaken(s: State, step: Step, owner: nat, c: nat)
    requires Inv(s) && Enabled(s, step) && step.CutBatch? && NotOvertaken(s, owner, c)
    ensures NotOvertaken(Next(s, step), owner, c)
  {
    InvHasValid(s);
    ObjectIsValid(s, step.owner);
    hide Inv;
    hide Valid;
    hide Scan;
    hide Untouched;
    hide Next;
    hide NotOvertaken;
    if step.owner == owner && step.collection == c {
      CutOwn(s, owner, c, step.known);
    } else {
      CutOther(s, step.owner, step.collection, step.known, owner, c);
      SameLogStays(s, Next(s, step), owner, c);
    }
  }

  lemma FlagsSpeak(before: seq<Slot>, after: seq<Slot>)
    requires DoneFlags(before) == DoneFlags(after)
    ensures |before| == |after| && forall i :: 0 <= i < |before| ==> before[i].done == after[i].done
  {
    assert |DoneFlags(before)| == |DoneFlags(after)|;
    forall i | 0 <= i < |before|
      ensures before[i].done == after[i].done
    {
      assert DoneFlags(before)[i] == DoneFlags(after)[i];
    }
  }

  lemma FinishIs(s: State, k: nat)
    requires Enabled(s, Finish(k))
    ensures var f := s.flights[k]; var t := Next(s, Finish(k)); var id := f.ids[f.flagged];
            && t.flights == s.flights[k := f.(flagged := f.flagged + 1)]
            && HasLog(s.objects, f.owner, f.collection) && HasLog(t.objects, f.owner, f.collection)
            && var slots, after := s.objects[f.owner].logs[f.collection].slots,
                t.objects[f.owner].logs[f.collection].slots;
               id < |slots| && after == slots[id := slots[id].(pending := false, done := true)]
  {
  }

  /** A finish of another slot than the last: the last is not done, before and after. */
  lemma FinishOther(s: State, k: nat, owner: nat, c: nat)
    requires Enabled(s, Finish(k)) && ForLog(s.flights[k], owner, c) && NotOvertaken(s, owner, c)
    requires s.flights[k].ids[s.flights[k].flagged] + 1 != |s.objects[owner].logs[c].slots|
    ensures NotOvertaken(Next(s, Finish(k)), owner, c)
  {
    FinishIs(s, k);
    assert !BatchesFinished(s, owner, c);
    hide Next;
  }

  lemma FinishNotOvertaken(s: State, k: nat, owner: nat, c: nat)
    requires Inv(s) && Enabled(s, Finish(k)) && LastComesLast(s, Finish(k), owner) && NotOvertaken(s, owner, c)
    requires ForLog(s.flights[k], owner, c)
    ensures NotOvertaken(Next(s, Finish(k)), owner, c)
  {
    var f := s.flights[k];
    var id := f.ids[f.flagged];
    if id + 1 == |s.objects[owner].logs[c].slots| {
      assert EarlierFinished(s.flights, k);
      hide NotOvertaken;
      hide EarlierFinished;
      hide LastComesLast;
      hide Next;
      forall l | 0 <= l < |s.flights| && ForLog(s.flights[l], owner, c)
        ensures l <= k && f.flagged + 1 == |f.ids|
      {
        LastJobIsLast(s, k, f.flagged, l, id);
      }
      hide Inv;
      OwnBatch(s, k, owner, c);
      FinishedAll(s.flights, k, owner, c);
      FinishedMeans(s, k, owner, c);
    } else {
      hide Inv;
      hide LastComesLast;
      FinishOther(s, k, owner, c);
    }
  }

  lemma OwnBatch(s: State, k: nat, owner: nat, c: nat)
    requires k < |s.flights| && ForLog(s.flights[k], owner, c)
    requires forall l :: 0 <= l < |s.flights| && ForLog(s.flights[l], owner, c) ==>
               l <= k && s.flights[k].flagged + 1 == |s.flights[k].ids|
    ensures s.flights[k].flagged + 1 == |s.flights[k].ids|
  {
  }

  lemma FinishedAll(flights: seq<Flight>, k: nat, owner: nat, c: nat)
    requires k < |flights| && ForLog(flights[k], owner, c) && EarlierFinished(flights, k)
    requires flights[k].flagged + 1 == |flights[k].ids|
    requires forall l :: 0 <= l < |flights| && ForLog(flights[l], owner, c) ==> l <= k
    ensures var after := flights[k := flights[k].(flagged := flights[k].flagged + 1)];
            forall l :: 0 <= l < |after| && ForLog(after[l], owner, c) ==> after[l].flagged == |after[l].ids|
  {
  }

  lemma FinishedMeans(s: State, k: nat, owner: nat, c: nat)
    requires Enabled(s, Finish(k))
    requires var after := s.flights[k := s.flights[k].(flagged := s.flights[k].flagged + 1)];
             forall l :: 0 <= l < |after| && ForLog(after[l], owner, c) ==> after[l].flagged == |after[l].ids|
    ensures NotOvertaken(Next(s, Finish(k)), owner, c)
  {
    FinishIs(s, k);
    hide Next;
  }

  /** Every step but such a finish out of order keeps the logs of `owner` from being
      overtaken. */
  lemma StepNotOvertaken(s: State, step: Step, owner: nat)
    requires Inv(s) && Enabled(s, step) && LastComesLast(s, step, owner) && NoneOvertaken(s, owner)
    ensures NoneOvertaken(Next(s, step), owner)
  {
    hide Inv;
    hide NotOvertaken;
    hide LastComesLast;
    forall c
      ensures NotOvertaken(Next(s, step), owner, c)
    {
      assert NotOvertaken(s, owner, c);
      if step.CutBatch? {
        CutNotOvertaken(s, step, owner, c);
      } else if step.Create? {
        CreateNotOvertaken(s, step, owner, c);
      } else if step.PushWork? && step.owner == owner && step.collection == c {
        PushNotOvertaken(s, step, owner, c);
      } else if step.Finish? && ForLog(s.flights[step.flight], owner, c) {
        FinishNotOvertaken(s, step.flight, owner, c);
      } else {
        QuietStep(s, step, owner, c);
        SameLogStays(s, Next(s, step), owner, c);
      }
    }
  }

  lemma {:induction false} RunNotOvertaken(states: seq<State>, steps: seq<Step>, i: nat, owner: nat)
    requires IsRun(states, steps) && i <= |steps|
    requires forall j :: 0 <= j < i ==> LastComesLast(states[j], steps[j], owner)
    ensures NoneOvertaken(states[i], owner)
  {
    hide Inv;
    hide Next;
    hide Enabled;
    hide LastComesLast;
    hide NoneOvertaken;
    if i == 0 {
      assert NoneOvertaken(Initial, owner) by { NothingOvertaken(owner); }
    } else {
      RunNotOvertaken(states, steps, i - 1, owner);
      RunKeeps(states, steps, i - 1);
      StepNotOvertaken(states[i - 1], steps[i - 1], owner);
    }
  }

  lemma NothingOvertaken(owner: nat)
    ensures NoneOvertaken(Initial, owner)
  {
  }

  // ---------------------------------------------------------------- what the check means

  lemma LastIsJob(tx: Tx, c: nat)
    requires Valid(tx) && c in tx.logs && tx.logs[c].slots != [] && Settled(tx.logs[c])
    ensures !tx.logs[c].slots[|tx.logs[c].slots| - 1].work.Depends?
  {
    hide Accounted;
  }

  /** If the log is not overtaken, its last slot speaks for all of it. */
  lemma LastSlotSpeaks(s: State, owner: nat, c: nat)
    requires Inv(s) && NotOvertaken(s, owner, c) && HasLog(s.objects, owner, c)
    requires Settled(s.objects[owner].logs[c])
    ensures AllDone(s, owner, c)
  {
    var log := s.objects[owner].logs[c];
    if log.slots == [] {
      NoBatches(s, owner, c);
    }
    hide Inv;
    forall i | 0 <= i < |log.slots| && !log.slots[i].work.Depends?
      ensures log.slots[i].done
    {
      var k, j := JobInBatch(s, Ref(owner, c, i));
    }
  }

  lemma NoBatches(s: State, owner: nat, c: nat)
    requires Inv(s) && HasLog(s.objects, owner, c) && s.objects[owner].logs[c].slots == []
    ensures forall k :: 0 <= k < |s.flights| ==> !ForLog(s.flights[k], owner, c)
  {
    forall k | 0 <= k < |s.flights|
      ensures !ForLog(s.flights[k], owner, c)
    {
      HoldsSlots(s, k);
    }
  }

  lemma HoldsSlots(s: State, k: nat)
    requires FlightsValid(s) && k < |s.flights|
    ensures HasLog(s.objects, s.flights[k].owner, s.flights[k].collection)
    ensures s.objects[s.flights[k].owner].logs[s.flights[k].collection].slots != []
  {
    assert FlightValid(s.objects, s.flights[k]) && s.flights[k].ids[0] >= 0;
  }

  /** The deletion check, where no log of the object is overtaken: it succeeds exactly when
      everything is passed and done and no log ends in a dependency, and then no batch of
      the object is in flight. */
  lemma CheckMeans(s: State, owner: nat)
    requires Inv(s) && owner in s.objects && NoneOvertaken(s, owner)
    ensures CanDelete(s.objects[owner]) <==>
            forall c :: c in s.objects[owner].logs ==>
              AllDone(s, owner, c) && !EndsInDependency(s.objects[owner].logs[c])
  {
    InvHasValid(s);
    assert Valid(s.objects[owner]);
    forall c | c in s.objects[owner].logs
      ensures Settled(s.objects[owner].logs[c]) <==> AllDone(s, owner, c) && !EndsInDependency(s.objects[owner].logs[c])
    {
      hide Inv;
      if Settled(s.objects[owner].logs[c]) {
        assert NotOvertaken(s, owner, c);
        LastSlotSpeaks(s, owner, c);
        if s.objects[owner].logs[c].slots != [] {
          LastIsJob(s.objects[owner], c);
        }
      }
    }
    hide Inv;
    hide Settled;
    hide AllDone;
    hide EndsInDependency;
  }

  /** In every run in which the last slot of each log of the object is marked done after the
      earlier batches of the log, in whatever order those and all others finish. */
  lemma DeletionCheckExactly(states: seq<State>, steps: seq<Step>, i: nat, owner: nat)
    requires IsRun(states, steps) && i <= |steps| && owner in states[i].objects
    requires forall j :: 0 <= j < i ==> LastComesLast(states[j], steps[j], owner)
    ensures CanDelete(states[i].objects[owner]) <==>
            forall c :: c in states[i].objects[owner].logs ==>
              AllDone(states[i], owner, c) && !EndsInDependency(states[i].objects[owner].logs[c])
  {
    hide Inv;
    hide NoneOvertaken;
    RunKeeps(states, steps, i);
    RunNotOvertaken(states, steps, i, owner);
    CheckMeans(states[i], owner);
  }

  lemma AllDoneNothingInFlight(s: State, owner: nat)
    requires Inv(s) && owner in s.objects && forall c :: c in s.objects[owner].logs ==> AllDone(s, owner, c)
    ensures forall k :: 0 <= k < |s.flights| && s.flights[k].owner == owner ==>
            s.flights[k].flagged == |s.flights[k].ids|
  {
    forall k | 0 <= k < |s.flights| && s.flights[k].owner == owner
      ensures s.flights[k].flagged == |s.flights[k].ids|
    {
      assert FlightValid(s.objects, s.flights[k]);
      assert AllDone(s, owner, s.flights[k].collection);
    }
  }

  /** The first time an update of an object answers that it can go, all its work is done and
      none of its batches is in flight, if last slots come last in this sense. */
  lemma DeletionSafe(states: seq<State>, steps: seq<Step>, i: nat, owner: nat, diff: nat, known: set<nat>)
    requires IsRun(states, steps) && i <= |steps| && owner in states[i].objects
    requires forall j :: 0 <= j < i ==> LastComesLast(states[j], steps[j], owner)
    requires !states[i].objects[owner].scheduled
    ensures WellFormed(states[i].objects[owner])
    ensures !Update(states[i].objects[owner], diff, EnvFor(states[i].objects, known, owner)).keep ==>
              && (forall c :: c in states[i].objects[owner].logs ==> AllDone(states[i], owner, c))
              && forall k :: 0 <= k < |states[i].flights| && states[i].flights[k].owner == owner ==>
                   states[i].flights[k].flagged == |states[i].flights[k].ids|
  {
    hide Inv;
    hide WellFormed;
    hide Update;
    hide LastComesLast;
    hide AllDone;
    hide CanDelete;
    RunKeeps(states, steps, i);
    OwnerFacts(states[i], owner, known);
    KeepsUnlessTold(states[i].objects[owner], diff, EnvFor(states[i].objects, known, owner));
    DeletionCheckExactly(states, steps, i, owner);
    if forall c :: c in states[i].objects[owner].logs ==> AllDone(states[i], owner, c) {
      AllDoneNothingInFlight(states[i], owner);
    }
  }
}
