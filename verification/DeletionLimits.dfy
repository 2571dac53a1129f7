/** Exactly when an object can be told to go too early, and when it never is told at all. */
module DeletionLimits {
  import opened TransactionLog
  import opened TransactionState
  import opened Scheduler
  import opened SchedulerInvariant
  import opened DispatchOrder
  import opened SchedulerTheorems
  import opened Progress
  import opened Blocking
  import opened Draining
  import opened Deletion

  // ---------------------------------------------------------------- a trailing dependency

  /** The log ends in a dependency, and its object has not been told to go. */
  ghost predicate Trails(s: State, owner: nat, c: nat) {
    && HasLog(s.objects, owner, c) && EndsInDependency(s.objects[owner].logs[c])
    && !s.objects[owner].scheduled
  }

  predicate PushesTo(step: Step, owner: nat, c: nat) {
    step.PushWork? && step.owner == owner && step.collection == c
  }

  /** Nothing but a push moves the end of a log. */
  lemma SameEnd(s: State, step: Step, owner: nat, c: nat)
    requires Inv(s) && Enabled(s, step) && HasLog(s.objects, owner, c) && !PushesTo(step, owner, c)
    ensures HasLog(Next(s, step).objects, owner, c)
    ensures var before, after := s.objects[owner].logs[c].slots, Next(s, step).objects[owner].logs[c].slots;
            |after| == |before| && forall i :: 0 <= i < |before| ==> after[i].work == before[i].work
  {
    StepKeepsWork(s, step);
    SameCount(s, step, owner, c);
    hide Inv;
    hide Next;
    forall i | 0 <= i < |s.objects[owner].logs[c].slots|
      ensures Next(s, step).objects[owner].logs[c].slots[i].work == s.objects[owner].logs[c].slots[i].work
    {
      assert Exists(s.objects, Ref(owner, c, i));
    }
  }

  lemma SameCount(s: State, step: Step, owner: nat, c: nat)
    requires Enabled(s, step) && HasLog(s.objects, owner, c) && !PushesTo(step, owner, c)
    ensures HasLog(Next(s, step).objects, owner, c)
    ensures |Next(s, step).objects[owner].logs[c].slots| == |s.objects[owner].logs[c].slots|
  {
    hide CanDelete;
    hide Scan;
  }

  lemma NotDeletable(s: State, owner: nat, c: nat)
    requires Inv(s) && Trails(s, owner, c)
    ensures !CanDelete(s.objects[owner])
  {
    InvHasValid(s);
    hide Inv;
    assert Valid(s.objects[owner]);
    hide ObjectsValid;
    hide Valid;
    TrailingIsKept(s.objects[owner], c);
  }

  /** A dependency is never done, so an object with one at the end of a log is not deletable. */
  lemma TrailingIsKept(tx: Tx, c: nat)
    requires Valid(tx) && c in tx.logs && EndsInDependency(tx.logs[c])
    ensures !CanDelete(tx)
  {
    NeverDone(tx, c, |tx.logs[c].slots| - 1);
    hide Valid;
    assert !Settled(tx.logs[c]);
  }

  lemma NotScheduled(s: State, step: Step, owner: nat)
    requires Enabled(s, step) && owner in s.objects && !s.objects[owner].scheduled && !CanDelete(s.objects[owner])
    ensures owner in Next(s, step).objects && !Next(s, step).objects[owner].scheduled
  {
    hide CanDelete;
    hide Scan;
  }

  lemma StepTrails(s: State, step: Step, owner: nat, c: nat)
    requires Inv(s) && Enabled(s, step) && Trails(s, owner, c) && !PushesTo(step, owner, c)
    ensures Trails(Next(s, step), owner, c)
  {
    SameEnd(s, step, owner, c);
    NotDeletable(s, owner, c);
    NotScheduled(s, step, owner);
    hide Inv;
    hide Next;
    hide CanDelete;
  }

  /** From any state of any run in which a log ends in a dependency and its object has not
      been told to go: as long as nothing more is pushed to that log, no update of the
      object tells it to go, flagged or not, whatever else happens. */
  lemma {:induction false} TrailingDependencyKeeps(states: seq<State>, steps: seq<Step>, i: nat, j: nat,
                                                   owner: nat, c: nat, diff: nat, known: set<nat>)
    requires IsRun(states, steps) && i <= j <= |steps| && Trails(states[i], owner, c)
    requires forall k :: i <= k < j ==> !PushesTo(steps[k], owner, c)
    ensures Trails(states[j], owner, c) && WellFormed(states[j].objects[owner])
    ensures Update(states[j].objects[owner], diff, EnvFor(states[j].objects, known, owner)).keep
  {
    hide Inv;
    hide Next;
    hide Enabled;
    if i < j {
      TrailingDependencyKeeps(states, steps, i, j - 1, owner, c, diff, known);
      RunKeeps(states, steps, j - 1);
      StepTrails(states[j - 1], steps[j - 1], owner, c);
    }
    hide Update;
    hide WellFormed;
    RunKeeps(states, steps, j);
    NotDeletable(states[j], owner, c);
    hide CanDelete;
    OwnerFacts(states[j], owner, known);
    KeepsUnlessTold(states[j].objects[owner], diff, EnvFor(states[j].objects, known, owner));
  }

  // ---------------------------------------------------------------- told to go too early

  /** The object is about to be told to go for the first time, with a batch in flight. */
  ghost predicate TellsTooEarly(s: State, owner: nat) {
    && owner in s.objects && s.objects[owner].flagged && !s.objects[owner].scheduled && CanDelete(s.objects[owner])
    && exists k :: 0 <= k < |s.flights| && s.flights[k].owner == owner && s.flights[k].flagged != |s.flights[k].ids|
  }

  /** A path on which all slots of `owner` finish in dispatch order of their batches. */
  ghost predicate InOrder(s: State, steps: seq<Step>, t: State, owner: nat)
    decreases |steps|
  {
    if steps == [] then s == t
    else Enabled(s, steps[0]) && FinishesInOrder(s, steps[0], owner) && InOrder(Next(s, steps[0]), steps[1..], t, owner)
  }

  lemma {:induction false} InOrderOn(s: State, a: seq<Step>, t: State, b: seq<Step>, u: State, owner: nat)
    requires InOrder(s, a, t, owner) && InOrder(t, b, u, owner)
    ensures InOrder(s, a + b, u, owner)
    decreases |a|
  {
    hide Next;
    hide Enabled;
    hide FinishesInOrder;
    if a == [] {
      assert a + b == b;
    } else {
      InOrderOn(Next(s, a[0]), a[1..], t, b, u, owner);
      assert (a + b)[1..] == a[1..] + b;
    }
  }

  lemma InOrderFirst(s: State, step: Step, steps: seq<Step>, t: State, owner: nat)
    requires Enabled(s, step) && FinishesInOrder(s, step, owner) && InOrder(Next(s, step), steps, t, owner)
    ensures InOrder(s, [step] + steps, t, owner)
  {
    assert ([step] + steps)[1..] == steps;
  }

  lemma InOrderNowhere(s: State, owner: nat)
    ensures InOrder(s, [], s, owner)
  {
  }

  lemma InOrderOne(s: State, step: Step, owner: nat)
    requires Enabled(s, step) && FinishesInOrder(s, step, owner)
    ensures InOrder(s, [step], Next(s, step), owner)
  {
    assert [step][1..] == [];
  }

  /** On such a path no log of the object becomes overtaken. */
  lemma {:induction false} InOrderNotOvertaken(s: State, steps: seq<Step>, t: State, owner: nat)
    requires Inv(s) && InOrder(s, steps, t, owner) && NoneOvertaken(s, owner)
    ensures Inv(t) && NoneOvertaken(t, owner)
    decreases |steps|
  {
    hide Inv;
    hide NoneOvertaken;
    if steps != [] {
      StepKeeps(s, steps[0]);
      LastIsInOrder(s, steps[0], owner);
      StepNotOvertaken(s, steps[0], owner);
      InOrderNotOvertaken(Next(s, steps[0]), steps[1..], t, owner);
    }
  }

  lemma LastIsInOrder(s: State, step: Step, owner: nat)
    requires FinishesInOrder(s, step, owner)
    ensures LastComesLast(s, step, owner)
  {
  }

  lemma SafeWhileNotOvertaken(s: State, owner: nat)
    requires Inv(s) && NoneOvertaken(s, owner)
    ensures !TellsTooEarly(s, owner)
  {
    if owner in s.objects && CanDelete(s.objects[owner]) {
      CheckMeans(s, owner);
      hide NoneOvertaken;
      hide CanDelete;
      AllDoneNothingInFlight(s, owner);
    }
  }

  // ---------------------------------------------------------------- settling one log after another

  /** Of the object, only the log of `c` and its batches may differ. */
  ghost predicate Spares(s: State, t: State, owner: nat, c: nat) {
    && owner in s.objects && owner in t.objects
    && t.objects[owner].order == s.objects[owner].order && t.objects[owner].logs.Keys == s.objects[owner].logs.Keys
    && forall d :: d != c ==> SameLog(s, t, owner, d)
  }

  lemma SparesTwice(s: State, t: State, u: State, owner: nat, c: nat)
    requires Spares(s, t, owner, c) && Spares(t, u, owner, c)
    ensures Spares(s, u, owner, c)
  {
    hide SameLog;
    forall d | d != c
      ensures SameLog(s, u, owner, d)
    {
      SameLogTwice(s, t, u, owner, d);
    }
  }

  lemma SameLogTwice(s: State, t: State, u: State, owner: nat, d: nat)
    requires SameLog(s, t, owner, d) && SameLog(t, u, owner, d)
    ensures SameLog(s, u, owner, d)
  {
  }

  lemma SparesNothing(s: State, owner: nat, c: nat)
    requires owner in s.objects
    ensures Spares(s, s, owner, c)
  {
  }

  lemma KeepsShape(s: State, step: Step, owner: nat)
    requires Enabled(s, step) && owner in s.objects && !step.Create?
    ensures var t := Next(s, step);
            && owner in t.objects && t.objects[owner].order == s.objects[owner].order
            && t.objects[owner].logs.Keys == s.objects[owner].logs.Keys
  {
    hide Scan;
    hide CanDelete;
  }

  /** A step on the log of `c`, or on flags, spares the rest. */
  lemma StepSpares(s: State, step: Step, owner: nat, c: nat)
    requires Enabled(s, step) && owner in s.objects
    requires step.CutBatch? || step.PushWork? ==> step.owner == owner && step.collection == c
    requires step.Finish? ==> ForLog(s.flights[step.flight], owner, c)
    requires !step.Create?
    ensures Spares(s, Next(s, step), owner, c)
  {
    KeepsShape(s, step, owner);
    hide SameLog;
    hide Next;
    hide Enabled;
    forall d | d != c
      ensures SameLog(s, Next(s, step), owner, d)
    {
      if step.CutBatch? {
        CutOther(s, owner, c, step.known, owner, d);
      } else {
        QuietStep(s, step, owner, d);
      }
    }
  }

  /** A cut whose getter knows nobody always moves on. */
  lemma BlindCutMoves(s: State, owner: nat, c: nat)
    requires Inv(s) && HasLog(s.objects, owner, c) && s.objects[owner].logs[c].first < |s.objects[owner].logs[c].slots|
    ensures Enabled(s, CutBatch(owner, c, {}))
    ensures var t := Next(s, CutBatch(owner, c, {}));
            && HasLog(t.objects, owner, c) && |t.objects[owner].logs[c].slots| == |s.objects[owner].logs[c].slots|
            && s.objects[owner].logs[c].first < t.objects[owner].logs[c].first
  {
    var step := CutBatch(owner, c, {});
    var log := s.objects[owner].logs[c];
    InvHasValid(s);
    ObjectIsValid(s, owner);
    SameEnd(s, step, owner, c);
    StepMovesCursor(s, step, owner, c);
    hide Inv;
    hide Valid;
    hide Next;
    hide Scan;
    assert PeersOf(s.objects, {}, c) == map[];
    ScanPasses(log, PeersOf(s.objects, {}, c));
  }

  lemma {:induction false} DrainLog(s: State, owner: nat, c: nat) returns (steps: seq<Step>, t: State)
    requires Inv(s) && HasLog(s.objects, owner, c) && s.objects[owner].logs[c].first <= |s.objects[owner].logs[c].slots|
    ensures InOrder(s, steps, t, owner) && Inv(t) && Spares(s, t, owner, c) && HasLog(t.objects, owner, c)
    ensures t.objects[owner].logs[c].first == |t.objects[owner].logs[c].slots|
    ensures SameWorks(s, t, owner, c)
    decreases |s.objects[owner].logs[c].slots| - s.objects[owner].logs[c].first
  {
    hide Inv;
    hide InOrder;
    hide Spares;
    if s.objects[owner].logs[c].first == |s.objects[owner].logs[c].slots| {
      InOrderNowhere(s, owner);
      SparesNothing(s, owner, c);
      steps, t := [], s;
    } else {
      var step := CutBatch(owner, c, {});
      var next := Next(s, step);
      BlindCutMoves(s, owner, c);
      SameEnd(s, step, owner, c);
      StepSpares(s, step, owner, c);
      StepKeeps(s, step);
      hide Next;
      hide Enabled;
      Bounded(next, owner, c);
      var rest;
      rest, t := DrainLog(next, owner, c);
      InOrderFirst(s, step, rest, t, owner);
      SparesTwice(s, next, t, owner, c);
      steps := [step] + rest;
    }
  }

  lemma Bounded(s: State, owner: nat, c: nat)
    requires Inv(s) && HasLog(s.objects, owner, c)
    ensures s.objects[owner].logs[c].first <= |s.objects[owner].logs[c].slots|
  {
    InvHasValid(s);
    ObjectIsValid(s, owner);
  }

  ghost predicate SameWorks(s: State, t: State, owner: nat, c: nat) {
    && HasLog(s.objects, owner, c) && HasLog(t.objects, owner, c)
    && var before, after := s.objects[owner].logs[c].slots, t.objects[owner].logs[c].slots;
       |after| == |before| && forall i :: 0 <= i < |before| ==> after[i].work == before[i].work
  }

  /** The batches of the log finish, from position `k` on, in order. */
  lemma {:induction false} FinishLog(s: State, owner: nat, c: nat, k: nat) returns (steps: seq<Step>, t: State)
    requires Inv(s) && HasLog(s.objects, owner, c) && k <= |s.flights|
    requires forall j :: 0 <= j < k && ForLog(s.flights[j], owner, c) ==> s.flights[j].flagged == |s.flights[j].ids|
    ensures InOrder(s, steps, t, owner) && Inv(t) && Spares(s, t, owner, c) && HasLog(t.objects, owner, c)
    ensures BatchesFinished(t, owner, c) && SameWorks(s, t, owner, c)
    ensures t.objects[owner].logs[c].first == s.objects[owner].logs[c].first
    decreases |s.flights| - k,
              if k == |s.flights| then 0
              else 2 * |s.flights[k].ids| - s.flights[k].effected - s.flights[k].flagged
  {
    hide Inv;
    hide InOrder;
    hide Spares;
    if k == |s.flights| {
      InOrderNowhere(s, owner);
      SparesNothing(s, owner, c);
      steps, t := [], s;
    } else {
      var f := s.flights[k];
      FlightFacts(s, k);
      if !ForLog(f, owner, c) || f.flagged == |f.ids| {
        steps, t := FinishLog(s, owner, c, k + 1);
      } else {
        var step := if f.flagged < f.effected then Finish(k) else Execute(k);
        var next := Next(s, step);
        PoolStepAt(s, k, step);
        StepKeeps(s, step);
        SameEnd(s, step, owner, c);
        StepMovesCursor(s, step, owner, c);
        StepSpares(s, step, owner, c);
        assert FinishesInOrder(s, step, owner);
        hide Next;
        hide Enabled;
        hide FinishesInOrder;
        var rest;
        rest, t := FinishLog(next, owner, c, k);
        InOrderFirst(s, step, rest, t, owner);
        SparesTwice(s, next, t, owner, c);
        steps := [step] + rest;
      }
    }
  }

  /** What a step of the pool does to the flights. */
  lemma PoolStepAt(s: State, k: nat, step: Step)
    requires Enabled(s, step) && (step == Finish(k) || step == Execute(k)) && k < |s.flights|
    requires step.Execute? ==> Executed(s.flights[k]).effected > s.flights[k].effected
    requires s.flights[k].flagged <= s.flights[k].effected
    ensures var t := Next(s, step); var f, g := s.flights[k], Next(s, step).flights[k];
            && |t.flights| == |s.flights| &&
                (forall j :: 0 <= j < |s.flights| && j != k ==> t.flights[j] == s.flights[j])
            && g.owner == f.owner && g.collection == f.collection && g.ids == f.ids
            && g.flagged <= |g.ids| && g.effected <= |g.ids| && g.flagged + g.effected > f.flagged + f.effected
  {
  }

  /** Any log can be settled without touching the others, finishing in order: a job is
      pushed behind whatever is there, everything is cut, and the batches finish. */
  lemma SettleLog(s: State, owner: nat, c: nat) returns (steps: seq<Step>, t: State)
    requires Inv(s) && HasLog(s.objects, owner, c)
    ensures InOrder(s, steps, t, owner) && Inv(t) && Spares(s, t, owner, c)
    ensures HasLog(t.objects, owner, c) && Settled(t.objects[owner].logs[c])
  {
    var push := PushWork(owner, c, Write(Insert, "", ""));
    var s1 := Next(s, push);
    PushedLast(s, owner, c);
    StepSpares(s, push, owner, c);
    StepKeeps(s, push);
    InOrderOne(s, push, owner);
    hide Inv;
    hide Next;
    hide Enabled;
    hide Spares;
    hide InOrder;
    Bounded(s1, owner, c);
    var cuts, s2 := DrainLog(s1, owner, c);
    var finishes;
    finishes, t := FinishLog(s2, owner, c, 0);
    InOrderOn(s, [push], s1, cuts, s2, owner);
    InOrderOn(s, [push] + cuts, s2, finishes, t, owner);
    SparesTwice(s, s1, s2, owner, c);
    SparesTwice(s, s2, t, owner, c);
    steps := [push] + cuts + finishes;
    WorkAtEnd(s1, s2, t, owner, c);
    FinishedIsSettled(t, owner, c);
  }

  lemma PushedLast(s: State, owner: nat, c: nat)
    requires HasLog(s.objects, owner, c)
    ensures var t := Next(s, PushWork(owner, c, Write(Insert, "", "")));
            && HasLog(t.objects, owner, c) && t.objects[owner].logs[c].slots != []
            && !EndsInDependency(t.objects[owner].logs[c])
  {
  }

  lemma WorkAtEnd(s: State, t: State, u: State, owner: nat, c: nat)
    requires SameWorks(s, t, owner, c) && SameWorks(t, u, owner, c)
    requires s.objects[owner].logs[c].slots != [] && !EndsInDependency(s.objects[owner].logs[c])
    ensures u.objects[owner].logs[c].slots != [] && !EndsInDependency(u.objects[owner].logs[c])
    ensures |u.objects[owner].logs[c].slots| == |t.objects[owner].logs[c].slots|
  {
  }

  lemma FinishedIsSettled(s: State, owner: nat, c: nat)
    requires Inv(s) && HasLog(s.objects, owner, c) && BatchesFinished(s, owner, c)
    requires s.objects[owner].logs[c].slots != [] && !EndsInDependency(s.objects[owner].logs[c])
    requires s.objects[owner].logs[c].first == |s.objects[owner].logs[c].slots|
    ensures Settled(s.objects[owner].logs[c])
  {
    hide Inv;
    hide BatchesFinished;
    hide Settled;
    var ref := Ref(owner, c, |s.objects[owner].logs[c].slots| - 1);
    var k, j := JobInBatch(s, ref);
    JobIsFinished(s, owner, c, k, j);
    LastIsSettled(s.objects[owner].logs[c]);
  }

  lemma JobIsFinished(s: State, owner: nat, c: nat, k: nat, j: nat)
    requires BatchesFinished(s, owner, c) && k < |s.flights| && ForLog(s.flights[k], owner, c) && j < |s.flights[k].ids|
    ensures j < s.flights[k].flagged
  {
  }

  lemma LastIsSettled(log: Log)
    requires log.first == |log.slots| && LastDone(log)
    ensures Settled(log)
  {
  }

  // ---------------------------------------------------------------- the exact condition

  /** The log of `c` is overtaken. */
  ghost predicate Overtaken(s: State, owner: nat, c: nat) {
    !NotOvertaken(s, owner, c)
  }

  lemma SameIsOvertaken(s: State, t: State, owner: nat, c: nat)
    requires SameLog(s, t, owner, c) && Overtaken(s, owner, c)
    ensures Overtaken(t, owner, c)
  {
  }

  lemma SameIsSettled(s: State, t: State, owner: nat, c: nat)
    requires SameLog(s, t, owner, c) && HasLog(s.objects, owner, c) && Settled(s.objects[owner].logs[c])
    ensures HasLog(t.objects, owner, c) && Settled(t.objects[owner].logs[c])
  {
  }

  /** All logs before position `p` but that of `c` are settled. */
  ghost predicate SettledBefore(s: State, owner: nat, c: nat, p: nat) {
    && owner in s.objects && p <= |s.objects[owner].order|
    && forall q :: 0 <= q < p && s.objects[owner].order[q] != c ==>
         HasLog(s.objects, owner, s.objects[owner].order[q]) &&
             Settled(s.objects[owner].logs[s.objects[owner].order[q]])
  }

  lemma {:induction false} SettleOthers(s: State, owner: nat, c: nat, p: nat) returns (steps: seq<Step>, t: State)
    requires Inv(s) && Overtaken(s, owner, c) && SettledBefore(s, owner, c, p)
    ensures InOrder(s, steps, t, owner) && Inv(t) && Overtaken(t, owner, c)
    ensures owner in t.objects && SettledBefore(t, owner, c, |t.objects[owner].order|)
    decreases |s.objects[owner].order| - p
  {
    hide Inv;
    hide InOrder;
    hide Overtaken;
    hide SameLog;
    if p == |s.objects[owner].order| {
      InOrderNowhere(s, owner);
      steps, t := [], s;
    } else {
      var d := s.objects[owner].order[p];
      if d == c {
        steps, t := SettleOthers(s, owner, c, p + 1);
      } else {
        OrderHasLog(s, owner, p);
        var one, u := SettleLog(s, owner, d);
        SameIsOvertaken(s, u, owner, c);
        SettledMore(s, u, owner, c, p);
        var rest;
        rest, t := SettleOthers(u, owner, c, p + 1);
        InOrderOn(s, one, u, rest, t, owner);
        steps := one + rest;
      }
    }
  }

  lemma OrderHasLog(s: State, owner: nat, p: nat)
    requires Inv(s) && owner in s.objects && p < |s.objects[owner].order|
    ensures HasLog(s.objects, owner, s.objects[owner].order[p])
  {
    OwnerFacts(s, owner, {});
  }

  lemma SettledMore(s: State, u: State, owner: nat, c: nat, p: nat)
    requires Inv(s) && SettledBefore(s, owner, c, p) && p < |s.objects[owner].order|
    requires Spares(s, u, owner, s.objects[owner].order[p])
    requires HasLog(u.objects, owner, s.objects[owner].order[p]) &&
             Settled(u.objects[owner].logs[s.objects[owner].order[p]])
    ensures SettledBefore(u, owner, c, p + 1)
  {
    hide Inv;
    hide SameLog;
    hide Settled;
    var order := s.objects[owner].order;
    forall q | 0 <= q < p + 1 && order[q] != c
      ensures HasLog(u.objects, owner, order[q]) && Settled(u.objects[owner].logs[order[q]])
    {
      if q < p {
        OrderDistinct(s, owner, q, p);
        SameIsSettled(s, u, owner, order[q]);
      }
    }
  }

  lemma OrderDistinct(s: State, owner: nat, q: nat, p: nat)
    requires Inv(s) && owner in s.objects && q < p < |s.objects[owner].order|
    ensures s.objects[owner].order[q] != s.objects[owner].order[p]
  {
    OwnerFacts(s, owner, {});
    hide Inv;
    assert Distinct(s.objects[owner].order);
  }

  lemma OvertakenIsSettled(s: State, owner: nat, c: nat)
    requires Inv(s) && Overtaken(s, owner, c)
    ensures HasLog(s.objects, owner, c) && Settled(s.objects[owner].logs[c])
    ensures exists k ::
              0 <= k < |s.flights| && s.flights[k].owner == owner && s.flights[k].flagged != |s.flights[k].ids|
  {
    InvHasValid(s);
    ObjectIsValid(s, owner);
    hide Inv;
    hide Valid;
  }

  /** With all its other logs settled, an object with an overtaken log only has to be flagged. */
  lemma FlaggedTooEarly(s: State, owner: nat, c: nat) returns (steps: seq<Step>, t: State)
    requires Inv(s) && Overtaken(s, owner, c) && owner in s.objects &&
             SettledBefore(s, owner, c, |s.objects[owner].order|)
    ensures InOrder(s, steps, t, owner) && TellsTooEarly(t, owner)
  {
    hide Inv;
    hide Overtaken;
    hide SettledBefore;
    hide CanDelete;
    hide InOrder;
    OvertakenIsSettled(s, owner, c);
    AllSettled(s, owner, c);
    var s1 := Next(s, Unflag(owner));
    t := Next(s1, Flag(owner));
    Reflagged(s, owner);
    InOrderOne(s1, Flag(owner), owner);
    InOrderFirst(s, Unflag(owner), [Flag(owner)], t, owner);
    steps := [Unflag(owner)] + [Flag(owner)];
  }

  lemma Reflagged(s: State, owner: nat)
    requires owner in s.objects && CanDelete(s.objects[owner])
    requires exists k ::
               0 <= k < |s.flights| && s.flights[k].owner == owner && s.flights[k].flagged != |s.flights[k].ids|
    ensures var s1 := Next(s, Unflag(owner)); Enabled(s1, Flag(owner)) && TellsTooEarly(Next(s1, Flag(owner)), owner)
  {
    var t := Next(Next(s, Unflag(owner)), Flag(owner));
    SameLogsCanDelete(s.objects[owner], t.objects[owner]);
    assert t.flights == s.flights;
    hide CanDelete;
  }

  lemma SameLogsCanDelete(a: Tx, b: Tx)
    requires a.logs == b.logs && CanDelete(a)
    ensures CanDelete(b)
  {
  }

  lemma AllSettled(s: State, owner: nat, c: nat)
    requires Inv(s) && owner in s.objects && SettledBefore(s, owner, c, |s.objects[owner].order|)
    requires HasLog(s.objects, owner, c) && Settled(s.objects[owner].logs[c])
    ensures CanDelete(s.objects[owner])
  {
    OwnerFacts(s, owner, {});
    hide Inv;
    var tx := s.objects[owner];
    forall d | d in tx.logs
      ensures Settled(tx.logs[d])
    {
      assert d in tx.order;
      var q :| 0 <= q < |tx.order| && tx.order[q] == d;
    }
  }

  /** The exact condition: from the last state of any run, some continuation, all of whose
      slots finish in dispatch order of their batches, leads to the object being told to go
      for the first time with one of its batches in flight, if and only if some log of it
      has its last slot done already while a batch of that log is in flight. */
  lemma TooEarlyExactly(states: seq<State>, steps: seq<Step>, owner: nat)
    requires IsRun(states, steps) && owner in states[|steps|].objects
    ensures (exists more, t :: InOrder(states[|steps|], more, t, owner) && TellsTooEarly(t, owner)) <==>
            (exists c :: HasLog(states[|steps|].objects, owner, c) && LastDone(states[|steps|].objects[owner].logs[c])
                         && !BatchesFinished(states[|steps|], owner, c))
  {
    var s := states[|steps|];
    RunKeeps(states, steps, |steps|);
    hide Inv;
    hide IsRun;
    hide LastDone;
    hide BatchesFinished;
    hide TellsTooEarly;
    hide InOrder;
    if c :| HasLog(s.objects, owner, c) && LastDone(s.objects[owner].logs[c]) && !BatchesFinished(s, owner, c) {
      var more, t := OvertakenEndsEarly(s, owner, c);
    } else {
      assert NoneOvertaken(s, owner);
      hide NoneOvertaken;
      forall more, t | InOrder(s, more, t, owner)
        ensures !TellsTooEarly(t, owner)
      {
        InOrderNotOvertaken(s, more, t, owner);
        SafeWhileNotOvertaken(t, owner);
      }
    }
  }

  lemma OvertakenEndsEarly(s: State, owner: nat, c: nat) returns (steps: seq<Step>, t: State)
    requires Inv(s) && HasLog(s.objects, owner, c) && LastDone(s.objects[owner].logs[c]) &&
             !BatchesFinished(s, owner, c)
    ensures InOrder(s, steps, t, owner) && TellsTooEarly(t, owner)
  {
    hide Inv;
    hide TellsTooEarly;
    hide InOrder;
    assert Overtaken(s, owner, c) && SettledBefore(s, owner, c, 0);
    hide Overtaken;
    hide SettledBefore;
    var front, u := SettleOthers(s, owner, c, 0);
    var last;
    last, t := FlaggedTooEarly(u, owner, c);
    InOrderOn(s, front, u, last, t, owner);
    steps := front + last;
  }
}
