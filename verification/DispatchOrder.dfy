/** What the order in which batches complete decides: with batches of a log completing in
    dispatch order, effects follow push order and the deletion check is safe; without it,
    neither holds. */
module DispatchOrder {
  import opened TransactionLog
  import opened TransactionState
  import opened Scheduler
  import opened SchedulerInvariant

  /** Every earlier batch of the same log has taken full effect. */
  ghost predicate EarlierExecuted(flights: seq<Flight>, k: nat)
    requires k < |flights|
  {
    forall j :: 0 <= j < k && ForLog(flights[j], flights[k].owner, flights[k].collection) ==>
      flights[j].effected == |flights[j].ids|
  }

  /** Every earlier batch of the same log is no longer in flight. */
  ghost predicate EarlierFinished(flights: seq<Flight>, k: nat)
    requires k < |flights|
  {
    forall j :: 0 <= j < k && ForLog(flights[j], flights[k].owner, flights[k].collection) ==>
      flights[j].flagged == |flights[j].ids|
  }

  /** The step does not execute a batch of log `(owner, c)` before an earlier one. */
  ghost predicate ExecutesInOrder(s: State, step: Step, owner: nat, c: nat) {
    step.Execute? && step.flight < |s.flights| && ForLog(s.flights[step.flight], owner, c) ==>
      EarlierExecuted(s.flights, step.flight)
  }

  /** The step does not mark a slot of `owner` done while an earlier batch of its log is in
      flight. */
  ghost predicate FinishesInOrder(s: State, step: Step, owner: nat) {
    step.Finish? && step.flight < |s.flights| && s.flights[step.flight].owner == owner ==>
      EarlierFinished(s.flights, step.flight)
  }

  /** What has taken effect of a log is a prefix of its jobs, in push order. */
  ghost predicate PushOrdered(s: State, owner: nat, c: nat) {
    HasLog(s.objects, owner, c) ==>
      var slots := s.objects[owner].logs[c].slots;
      IdsOf(s.trace, owner, c) <= Jobs(slots, 0, |slots|)
  }

  // ---------------------------------------------------------------- projections of the trace

  lemma {:induction false} IdsOfConcat(a: seq<Ref>, b: seq<Ref>, owner: nat, c: nat)
    ensures IdsOf(a + b, owner, c) == IdsOf(a, owner, c) + IdsOf(b, owner, c)
  {
    if b == [] {
      assert a + b == a;
    } else {
      var n := |b| - 1;
      IdsOfConcat(a, b[..n], owner, c);
      assert (a + b)[..|a + b| - 1] == a + b[..n];
    }
  }

  lemma {:induction false} IdsOfHolds(refs: seq<Ref>, owner: nat, c: nat, id: nat)
    ensures id in IdsOf(refs, owner, c) <==> Ref(owner, c, id) in refs
  {
    if refs != [] {
      var n := |refs| - 1;
      IdsOfHolds(refs[..n], owner, c, id);
      assert refs == refs[..n] + [refs[n]];
    }
  }

  lemma {:induction false} IdsOfBatch(f: Flight, lo: nat, hi: nat, owner: nat, c: nat)
    requires lo <= hi <= |f.ids|
    ensures IdsOf(RefsOf(f, lo, hi), owner, c) == if ForLog(f, owner, c) then f.ids[lo..hi] else []
    decreases hi - lo
  {
    if lo < hi {
      IdsOfBatch(f, lo, hi - 1, owner, c);
      assert RefsOf(f, lo, hi)[..hi - lo - 1] == RefsOf(f, lo, hi - 1);
    }
  }

  /** What the batches of one log have effected, concatenated in dispatch order. */
  function Effected(flights: seq<Flight>, owner: nat, c: nat): seq<nat> {
    if flights == [] then []
    else
      var n := |flights| - 1;
      Effected(flights[..n], owner, c) +
      if ForLog(flights[n], owner, c) && flights[n].effected <= |flights[n].ids| then
        flights[n].ids[..flights[n].effected]
      else
        []
  }

  /** Batches of the log have executed in order so far: at most one is partly executed,
      with full ones before it and untouched ones after it. */
  ghost predicate ExecutedPrefix(flights: seq<Flight>, owner: nat, c: nat) {
    && (forall k :: 0 <= k < |flights| ==> flights[k].effected <= |flights[k].ids|)
    && forall j, k :: 0 <= j < k < |flights| && ForLog(flights[j], owner, c) && ForLog(flights[k], owner, c) ==>
         flights[k].effected == 0 || flights[j].effected == |flights[j].ids|
  }

  lemma {:induction false} FullyEffected(flights: seq<Flight>, owner: nat, c: nat)
    requires forall k :: 0 <= k < |flights| && ForLog(flights[k], owner, c) ==> flights[k].effected == |flights[k].ids|
    ensures Effected(flights, owner, c) == History(flights, owner, c)
  {
    if flights != [] {
      FullyEffected(flights[..|flights| - 1], owner, c);
    }
  }

  lemma {:induction false} EffectedIsPrefix(flights: seq<Flight>, owner: nat, c: nat)
    requires ExecutedPrefix(flights, owner, c)
    ensures Effected(flights, owner, c) <= History(flights, owner, c)
  {
    if flights != [] {
      var n := |flights| - 1;
      var front := flights[..n];
      EffectedIsPrefix(front, owner, c);
      if ForLog(flights[n], owner, c) && flights[n].effected > 0 {
        FullyEffected(front, owner, c);
      }
    }
  }

  lemma {:induction false} EffectedAgrees(flights: seq<Flight>, other: seq<Flight>, owner: nat, c: nat)
    requires |flights| == |other|
    requires forall k :: 0 <= k < |flights| ==>
               flights[k].owner == other[k].owner && flights[k].collection == other[k].collection
               && flights[k].ids == other[k].ids && flights[k].effected == other[k].effected
    ensures Effected(flights, owner, c) == Effected(other, owner, c)
  {
    if flights != [] {
      var n := |flights| - 1;
      EffectedAgrees(flights[..n], other[..n], owner, c);
    }
  }

  /** Executing more of batch `k`, with no later batch of its log started. */
  lemma {:induction false} EffectedGrows(flights: seq<Flight>, k: nat, more: nat, owner: nat, c: nat)
    requires k < |flights| && flights[k].effected <= more <= |flights[k].ids|
    requires forall j :: k < j < |flights| && ForLog(flights[j], owner, c) ==> flights[j].effected == 0
    ensures Effected(flights[k := flights[k].(effected := more)], owner, c) ==
            Effected(flights, owner, c) +
                if ForLog(flights[k], owner, c) then flights[k].ids[flights[k].effected..more] else []
  {
    var n := |flights| - 1;
    var after := flights[k := flights[k].(effected := more)];
    if k == n {
      assert after[..n] == flights[..n];
    } else {
      EffectedGrows(flights[..n], k, more, owner, c);
      assert after[..n] == flights[..n][k := flights[k].(effected := more)];
    }
  }

  // ---------------------------------------------------------------- effects in push order

  /** While the log executes in order, the trace shows exactly what its batches effected. */
  ghost predicate Ordered(s: State, owner: nat, c: nat) {
    ExecutedPrefix(s.flights, owner, c) && IdsOf(s.trace, owner, c) == Effected(s.flights, owner, c)
  }

  lemma OrderedExecute(s: State, k: nat, owner: nat, c: nat)
    requires Inv(s) && Ordered(s, owner, c) && Enabled(s, Execute(k)) && ExecutesInOrder(s, Execute(k), owner, c)
    ensures Ordered(Next(s, Execute(k)), owner, c)
  {
    var f := s.flights[k];
    ExecuteIs(s, k);
    hide Inv;
    hide Next;
    hide Enabled;
    hide Executed;
    hide IdsOf;
    hide Effected;
    hide ExecutedPrefix;
    IdsOfConcat(s.trace, RefsOf(f, f.effected, Executed(f).effected), owner, c);
    IdsOfBatch(f, f.effected, Executed(f).effected, owner, c);
    if ForLog(f, owner, c) {
      EffectedGrows(s.flights, k, Executed(f).effected, owner, c);
    } else {
      SkippedAgrees(s.flights, k, Executed(f), owner, c);
    }
    PrefixGrows(s.flights, k, owner, c);
  }

  lemma ExecuteIs(s: State, k: nat)
    requires Inv(s) && Enabled(s, Execute(k))
    ensures var f := s.flights[k]; var t := Next(s, Execute(k)); var more := Executed(f).effected;
            && f.effected <= more <= |f.ids| && f.effected < |f.ids| && Executed(f) == f.(effected := more)
            && t.flights == s.flights[k := Executed(f)] && t.trace == s.trace + RefsOf(f, f.effected, more)
  {
    assert FlightValid(s.objects, s.flights[k]);
    hide FlightsValid;
  }

  lemma PrefixGrows(flights: seq<Flight>, k: nat, owner: nat, c: nat)
    requires ExecutedPrefix(flights, owner, c) && k < |flights| && Executed(flights[k]).effected <= |flights[k].ids|
    requires ForLog(flights[k], owner, c) ==> EarlierExecuted(flights, k) && flights[k].effected < |flights[k].ids|
    ensures ExecutedPrefix(flights[k := Executed(flights[k])], owner, c)
  {
  }

  /** A batch of another log does not show. */
  lemma {:induction false} SkippedAgrees(flights: seq<Flight>, k: nat, f: Flight, owner: nat, c: nat)
    requires k < |flights| && !ForLog(flights[k], owner, c) && !ForLog(f, owner, c)
    ensures Effected(flights[k := f], owner, c) == Effected(flights, owner, c)
  {
    var n := |flights| - 1;
    if k == n {
      assert flights[k := f][..n] == flights[..n];
    } else {
      SkippedAgrees(flights[..n], k, f, owner, c);
      assert flights[k := f][..n] == flights[..n][k := f];
    }
  }

  lemma OrderedStep(s: State, step: Step, owner: nat, c: nat)
    requires Inv(s) && Ordered(s, owner, c) && Enabled(s, step) && ExecutesInOrder(s, step, owner, c)
    ensures Ordered(Next(s, step), owner, c)
  {
    hide Inv;
    hide Ordered;
    var t := Next(s, step);
    if step.Execute? {
      OrderedExecute(s, step.flight, owner, c);
    } else if step.Finish? {
      OrderedFinish(s, step.flight, owner, c);
    } else if step.CutBatch? {
      OrderedCut(s, step.owner, step.collection, step.known, owner, c);
    } else {
      OrderedSame(s, t, owner, c);
    }
  }

  lemma OrderedSame(s: State, t: State, owner: nat, c: nat)
    requires Ordered(s, owner, c) && t.flights == s.flights && t.trace == s.trace
    ensures Ordered(t, owner, c)
  {
  }

  lemma OrderedFinish(s: State, k: nat, owner: nat, c: nat)
    requires Ordered(s, owner, c) && Enabled(s, Finish(k))
    ensures Ordered(Next(s, Finish(k)), owner, c)
  {
    EffectedAgrees(s.flights, Next(s, Finish(k)).flights, owner, c);
  }

  lemma OrderedCut(s: State, from: nat, cut: nat, known: set<nat>, owner: nat, c: nat)
    requires Ordered(s, owner, c) && Enabled(s, CutBatch(from, cut, known))
    ensures Ordered(Next(s, CutBatch(from, cut, known)), owner, c)
  {
    hide Scan;
    hide Ordered;
    var t := Next(s, CutBatch(from, cut, known));
    if t.flights == s.flights {
      OrderedSame(s, t, owner, c);
    } else {
      OrderedAppend(s, t, t.flights[|s.flights|], owner, c);
    }
  }

  lemma OrderedAppend(s: State, t: State, f: Flight, owner: nat, c: nat)
    requires Ordered(s, owner, c) && t.trace == s.trace && t.flights == s.flights + [f] && f.effected == 0
    ensures Ordered(t, owner, c)
  {
    NewIsUntouched(s.flights, f, owner, c);
    NewIsLast(s.flights, f, owner, c);
  }

  lemma NewIsUntouched(flights: seq<Flight>, f: Flight, owner: nat, c: nat)
    requires f.effected == 0
    ensures Effected(flights + [f], owner, c) == Effected(flights, owner, c)
  {
    var all := flights + [f];
    assert all[..|all| - 1] == flights;
    assert f.ids[..0] == [];
  }

  lemma NewIsLast(flights: seq<Flight>, f: Flight, owner: nat, c: nat)
    requires f.effected == 0 && ExecutedPrefix(flights, owner, c)
    ensures ExecutedPrefix(flights + [f], owner, c)
  {
    var all := flights + [f];
    forall k | 0 <= k < |all|
      ensures all[k].effected <= |all[k].ids|
      ensures k < |flights| ==> all[k] == flights[k]
    {
    }
  }

  lemma {:induction false} RunOrdered(states: seq<State>, steps: seq<Step>, owner: nat, c: nat, i: nat)
    requires IsRun(states, steps) && i <= |steps|
    requires forall j :: 0 <= j < i ==> ExecutesInOrder(states[j], steps[j], owner, c)
    ensures Ordered(states[i], owner, c)
  {
    if i > 0 {
      RunOrdered(states, steps, owner, c, i - 1);
      RunKeeps(states, steps, i - 1);
      OrderedStep(states[i - 1], steps[i - 1], owner, c);
    }
  }

  lemma OrderedIsPushOrdered(s: State, owner: nat, c: nat)
    requires Inv(s) && Ordered(s, owner, c)
    ensures PushOrdered(s, owner, c)
  {
    if HasLog(s.objects, owner, c) {
      var log := s.objects[owner].logs[c];
      assert PassedJobs(log, History(s.flights, owner, c));
      EffectedIsPrefix(s.flights, owner, c);
      JobsSplit(log.slots, 0, log.first, |log.slots|);
    }
  }

  /** Executing a batch before an earlier one of its log puts the trace out of push order. */
  lemma OutOfOrderBreaks(s: State, k: nat)
    requires Inv(s) && Enabled(s, Execute(k)) && !EarlierExecuted(s.flights, k)
    ensures !PushOrdered(Next(s, Execute(k)), s.flights[k].owner, s.flights[k].collection)
  {
    var t := Next(s, Execute(k));
    var f := s.flights[k];
    ExecuteKeeps(s, k);
    var j :| 0 <= j < k && ForLog(s.flights[j], f.owner, f.collection) && s.flights[j].effected != |s.flights[j].ids|;
    var g := s.flights[j];
    Executing(s, k, j);
    hide Inv;
    hide Next;
    hide Enabled;
    hide PushOrdered;
    HistoryOrders(s.flights, f.owner, f.collection, j, g.effected, k, f.effected);
    GapInTrace(t, j, g.effected, k, f.effected);
  }

  lemma Executing(s: State, k: nat, j: nat)
    requires Inv(s) && Enabled(s, Execute(k)) && j < k
    ensures var t := Next(s, Execute(k)); var f := s.flights[k];
            && |t.flights| == |s.flights| && t.flights[j] == s.flights[j] && s.flights[j].effected <= |s.flights[j].ids|
            && t.flights[k].ids == f.ids && t.flights[k].owner == f.owner && t.flights[k].collection == f.collection
            && f.effected < t.flights[k].effected <= |f.ids|
    ensures Increasing(History(s.flights, s.flights[k].owner, s.flights[k].collection))
  {
    var f := s.flights[k];
    assert FlightValid(s.objects, f) && FlightValid(s.objects, s.flights[j]);
    HistoryIncreases(s, f.owner, f.collection);
  }

  /** Place `(k, i)` has taken effect and the smaller place `(j, g)` of its log has not. */
  lemma GapInTrace(t: State, j: nat, g: nat, k: nat, i: nat)
    requires Inv(t) && j < |t.flights| && k < |t.flights| && g < |t.flights[j].ids| && i < |t.flights[k].ids|
    requires ForLog(t.flights[j], t.flights[k].owner, t.flights[k].collection)
    requires t.flights[j].effected <= g && i < t.flights[k].effected
    requires t.flights[j].ids[g] < t.flights[k].ids[i]
    ensures !PushOrdered(t, t.flights[k].owner, t.flights[k].collection)
  {
    hide Valid;
    var owner, c := t.flights[k].owner, t.flights[k].collection;
    var skipped, taken := t.flights[j].ids[g], t.flights[k].ids[i];
    assert FlightValid(t.objects, t.flights[k]) && FlightValid(t.objects, t.flights[j]);
    var slots := t.objects[owner].logs[c].slots;
    IdsOfHolds(t.trace, owner, c, skipped);
    IdsOfHolds(t.trace, owner, c, taken);
    assert RefAt(t.flights[j], g) !in t.trace && RefAt(t.flights[k], i) in t.trace;
    JobsAre(slots, 0, |slots|);
    if IdsOf(t.trace, owner, c) <= Jobs(slots, 0, |slots|) {
      NoGap(IdsOf(t.trace, owner, c), Jobs(slots, 0, |slots|), skipped, taken);
    }
  }

  /** A prefix of an increasing sequence that holds `taken` holds everything smaller. */
  lemma NoGap(prefix: seq<nat>, all: seq<nat>, skipped: nat, taken: nat)
    requires Increasing(all) && prefix <= all && skipped in all && skipped < taken && taken in prefix
    ensures skipped in prefix
  {
    var p :| 0 <= p < |prefix| && prefix[p] == taken;
    var q :| 0 <= q < |all| && all[q] == skipped;
    assert q < p;
    assert prefix[q] == skipped;
  }

  /** The effects of a log follow push order throughout a run exactly if no batch of the
      log was executed before an earlier one had taken full effect. */
  lemma PushOrderExactly(states: seq<State>, steps: seq<Step>, owner: nat, c: nat)
    requires IsRun(states, steps)
    ensures (forall i :: 0 <= i < |states| ==> PushOrdered(states[i], owner, c)) <==>
            (forall i :: 0 <= i < |steps| ==> ExecutesInOrder(states[i], steps[i], owner, c))
  {
    if forall i :: 0 <= i < |steps| ==> ExecutesInOrder(states[i], steps[i], owner, c) {
      forall i | 0 <= i < |states|
        ensures PushOrdered(states[i], owner, c)
      {
        RunKeeps(states, steps, i);
        RunOrdered(states, steps, owner, c, i);
        OrderedIsPushOrdered(states[i], owner, c);
      }
    } else {
      var i :| 0 <= i < |steps| && !ExecutesInOrder(states[i], steps[i], owner, c);
      RunKeeps(states, steps, i);
      OutOfOrderBreaks(states[i], steps[i].flight);
      assert !PushOrdered(states[i + 1], owner, c);
    }
  }

  // ---------------------------------------------------------------- batching refines sequential execution

  function Fold<S>(apply: (S, Work) -> S, store: S, works: seq<Work>): S {
    if works == [] then store else apply(Fold(apply, store, works[..|works| - 1]), works[|works| - 1])
  }

  /** The work of the given slots of a log. */
  function WorksAt(slots: seq<Slot>, ids: seq<nat>): (works: seq<Work>)
    requires forall k :: 0 <= k < |ids| ==> ids[k] < |slots|
    ensures |works| == |ids|
  {
    seq(|ids|, k requires 0 <= k < |ids| => slots[ids[k]].work)
  }

  /** What was applied to collection `c`, in order. */
  function Applied(objects: map<nat, Tx>, trace: seq<Ref>, c: nat): seq<Work>
    requires forall p :: 0 <= p < |trace| ==> Exists(objects, trace[p])
  {
    if trace == [] then []
    else
      var n := |trace| - 1;
      Applied(objects, trace[..n], c) + if trace[n].collection == c then [SlotOf(objects, trace[n]).work] else []
  }

  lemma TraceExists(s: State)
    requires FlightsValid(s) && TraceValid(s)
    ensures forall p :: 0 <= p < |s.trace| ==> Exists(s.objects, s.trace[p])
  {
    forall p | 0 <= p < |s.trace|
      ensures Exists(s.objects, s.trace[p])
    {
      var ref := s.trace[p];
      var k :| 0 <= k < |s.flights| && ForLog(s.flights[k], ref.owner, ref.collection) && ref.id in s.flights[k].ids;
      assert FlightValid(s.objects, s.flights[k]);
    }
  }

  /** If only `owner` has work in `c`, what was applied to `c` is its effects in order. */
  lemma {:induction false} AppliedByOne(objects: map<nat, Tx>, trace: seq<Ref>, owner: nat, c: nat)
    requires forall p :: 0 <= p < |trace| ==>
             Exists(objects, trace[p]) && (trace[p].collection == c ==> trace[p].owner == owner)
    requires HasLog(objects, owner, c)
    ensures forall k :: 0 <= k < |IdsOf(trace, owner, c)| ==> IdsOf(trace, owner, c)[k] < |objects[owner].logs[c].slots|
    ensures Applied(objects, trace, c) == WorksAt(objects[owner].logs[c].slots, IdsOf(trace, owner, c))
  {
    if trace != [] {
      AppliedByOne(objects, trace[..|trace| - 1], owner, c);
    }
  }

  /** All batches have taken effect and every cursor is at the end of its log. */
  ghost predicate Drained(s: State, owner: nat, c: nat) {
    && HasLog(s.objects, owner, c)
    && s.objects[owner].logs[c].first == |s.objects[owner].logs[c].slots|
    && forall k :: 0 <= k < |s.flights| && ForLog(s.flights[k], owner, c) ==>
        s.flights[k].effected == |s.flights[k].ids|
  }

  /** A drained log has effected all its jobs in push order, whatever the interleaving. */
  lemma DrainedInPushOrder(states: seq<State>, steps: seq<Step>, owner: nat, c: nat)
    requires IsRun(states, steps)
    requires forall i :: 0 <= i < |steps| ==> ExecutesInOrder(states[i], steps[i], owner, c)
    requires Drained(states[|steps|], owner, c)
    ensures var s := states[|steps|]; var slots := s.objects[owner].logs[c].slots;
            IdsOf(s.trace, owner, c) == Jobs(slots, 0, |slots|)
  {
    var s := states[|steps|];
    RunKeeps(states, steps, |steps|);
    RunOrdered(states, steps, owner, c, |steps|);
    FullyEffected(s.flights, owner, c);
    assert PassedJobs(s.objects[owner].logs[c], History(s.flights, owner, c));
  }

  /** Batching refines sequential execution: for every meaning `apply` of a piece of work,
      once the only object with work in `c` is drained, the store is what applying its
      jobs one by one in push order gives. */
  lemma BatchingRefinesSequential<S>(states: seq<State>, steps: seq<Step>, owner: nat, c: nat,
      apply: (S, Work) -> S, store: S)
    requires IsRun(states, steps)
    requires forall i :: 0 <= i < |steps| ==> ExecutesInOrder(states[i], steps[i], owner, c)
    requires Drained(states[|steps|], owner, c)
    requires forall ref :: ref in states[|steps|].pushes && ref.collection == c ==> ref.owner == owner
    ensures var s := states[|steps|]; var slots := s.objects[owner].logs[c].slots;
            && (forall p :: 0 <= p < |s.trace| ==> Exists(s.objects, s.trace[p]))
            && (forall k :: 0 <= k < |Jobs(slots, 0, |slots|)| ==> Jobs(slots, 0, |slots|)[k] < |slots|)
            && Fold(apply, store, Applied(s.objects, s.trace, c)) ==
                Fold(apply, store, WorksAt(slots, Jobs(slots, 0, |slots|)))
  {
    var s := states[|steps|];
    RunKeeps(states, steps, |steps|);
    TraceExists(s);
    forall p | 0 <= p < |s.trace|
      ensures s.trace[p] in s.pushes
    {
      assert Exists(s.objects, s.trace[p]);
    }
    AppliedByOne(s.objects, s.trace, owner, c);
    DrainedInPushOrder(states, steps, owner, c);
  }

  // ---------------------------------------------------------------- several owners of one collection

  /** What other objects than `owner` applied to collection `c`, in order. */
  function AppliedByOthers(objects: map<nat, Tx>, trace: seq<Ref>, owner: nat, c: nat): seq<Work>
    requires forall p :: 0 <= p < |trace| ==> Exists(objects, trace[p])
  {
    if trace == [] then []
    else
      var n := |trace| - 1;
      AppliedByOthers(objects, trace[..n], owner, c)
      + if trace[n].collection == c && trace[n].owner != owner then [SlotOf(objects, trace[n]).work] else []
  }

  ghost predicate Commute<S(!new)>(apply: (S, Work) -> S, w: Work, v: Work) {
    forall s :: apply(apply(s, w), v) == apply(apply(s, v), w)
  }

  /** What `owner` does in `c` commutes with what other objects do there. */
  ghost predicate Independent<S(!new)>(objects: map<nat, Tx>, trace: seq<Ref>, owner: nat, c: nat,
      apply: (S, Work) -> S) {
    forall p, q :: 0 <= p < |trace| && 0 <= q < |trace| && Exists(objects, trace[p]) && Exists(objects, trace[q])
                   && trace[p].collection == c == trace[q].collection && trace[p].owner == owner != trace[q].owner ==>
      Commute(apply, SlotOf(objects, trace[p]).work, SlotOf(objects, trace[q]).work)
  }

  lemma {:induction false} PullForward<S(!new)>(apply: (S, Work) -> S, store: S, works: seq<Work>, w: Work)
    requires forall k :: 0 <= k < |works| ==> Commute(apply, w, works[k])
    ensures apply(Fold(apply, store, works), w) == Fold(apply, apply(store, w), works)
  {
    if works != [] {
      PullForward(apply, store, works[..|works| - 1], w);
    }
  }

  lemma {:induction false} OthersAre(objects: map<nat, Tx>, trace: seq<Ref>, owner: nat, c: nat)
    requires forall p :: 0 <= p < |trace| ==> Exists(objects, trace[p])
    ensures forall w :: w in AppliedByOthers(objects, trace, owner, c) ==>
              exists q :: 0 <= q < |trace| && trace[q].collection == c && trace[q].owner != owner &&
                  SlotOf(objects, trace[q]).work == w
  {
    if trace != [] {
      OthersAre(objects, trace[..|trace| - 1], owner, c);
    }
  }

  /** The last effect of a trace, by whose it is. */
  lemma LastEffect(objects: map<nat, Tx>, trace: seq<Ref>, owner: nat, c: nat)
    requires trace != [] && forall p :: 0 <= p < |trace| ==> Exists(objects, trace[p])
    ensures var n := |trace| - 1; var front, last := trace[..n], trace[n]; var w := SlotOf(objects, last).work;
            && Applied(objects, trace, c) ==
                (if last.collection == c then Applied(objects, front, c) + [w] else Applied(objects, front, c))
            && AppliedByOthers(objects, trace, owner, c) ==
                 (if last.collection == c && last.owner != owner then AppliedByOthers(objects, front, owner, c) + [w]
                  else AppliedByOthers(objects, front, owner, c))
            && IdsOf(trace, owner, c) ==
                 if last.collection == c && last.owner == owner then IdsOf(front, owner, c) + [last.id]
                     else IdsOf(front, owner, c)
  {
  }

  lemma OwnerCommutes<S(!new)>(objects: map<nat, Tx>, trace: seq<Ref>, owner: nat, c: nat,
      apply: (S, Work) -> S, store: S)
    requires trace != [] && forall p :: 0 <= p < |trace| ==> Exists(objects, trace[p])
    requires Independent(objects, trace, owner, c, apply)
    requires trace[|trace| - 1].collection == c && trace[|trace| - 1].owner == owner
    ensures var n := |trace| - 1; var w := SlotOf(objects, trace[n]).work;
            apply(Fold(apply, store, AppliedByOthers(objects, trace[..n], owner, c)), w)
            == Fold(apply, apply(store, w), AppliedByOthers(objects, trace[..n], owner, c))
  {
    var n := |trace| - 1;
    var w := SlotOf(objects, trace[n]).work;
    OthersAre(objects, trace[..n], owner, c);
    forall v | v in AppliedByOthers(objects, trace[..n], owner, c)
      ensures Commute(apply, w, v)
    {
      var q :| 0 <= q < n && trace[q].collection == c && trace[q].owner != owner && SlotOf(objects, trace[q]).work == v;
      assert Commute(apply, SlotOf(objects, trace[n]).work, SlotOf(objects, trace[q]).work);
    }
    PullForward(apply, store, AppliedByOthers(objects, trace[..n], owner, c), w);
  }

  /** What `owner` did can be thought of as done first, in the order it was done. */
  lemma {:induction false} OwnerFirst<S(!new)>(objects: map<nat, Tx>, trace: seq<Ref>, owner: nat, c: nat,
      apply: (S, Work) -> S, store: S)
    requires HasLog(objects, owner, c) && forall p :: 0 <= p < |trace| ==> Exists(objects, trace[p])
    requires forall k :: 0 <= k < |IdsOf(trace, owner, c)| ==>
             IdsOf(trace, owner, c)[k] < |objects[owner].logs[c].slots|
    requires Independent(objects, trace, owner, c, apply)
    ensures Fold(apply, store, Applied(objects, trace, c)) ==
            Fold(apply, Fold(apply, store, WorksAt(objects[owner].logs[c].slots, IdsOf(trace, owner, c))),
                AppliedByOthers(objects, trace, owner, c))
  {
    if trace != [] {
      var n := |trace| - 1;
      var slots := objects[owner].logs[c].slots;
      var front, last := trace[..n], trace[n];
      var w := SlotOf(objects, last).work;
      LastEffect(objects, trace, owner, c);
      IndependentFront(objects, trace, owner, c, apply);
      forall k | 0 <= k < |IdsOf(front, owner, c)|
        ensures IdsOf(front, owner, c)[k] < |slots|
      {
        assert IdsOf(trace, owner, c)[k] == IdsOf(front, owner, c)[k];
      }
      if last.collection == c && last.owner == owner {
        OwnerCommutes(objects, trace, owner, c, apply, Fold(apply, store, WorksAt(slots, IdsOf(front, owner, c))));
      }
      hide Applied;
      hide AppliedByOthers;
      hide IdsOf;
      hide Independent;
      hide Fold;
      OwnerFirst(objects, front, owner, c, apply, store);
      var own := WorksAt(slots, IdsOf(front, owner, c));
      FoldMore(apply, store, own, w);
      FoldMore(apply, store, Applied(objects, front, c), w);
      FoldMore(apply, Fold(apply, store, own), AppliedByOthers(objects, front, owner, c), w);
      assert last.collection == c && last.owner == owner ==> WorksAt(slots, IdsOf(trace, owner, c)) == own + [w];
    } else {
      assert WorksAt(objects[owner].logs[c].slots, []) == [];
    }
  }

  lemma IndependentFront<S(!new)>(objects: map<nat, Tx>, trace: seq<Ref>, owner: nat, c: nat, apply: (S, Work) -> S)
    requires trace != [] && Independent(objects, trace, owner, c, apply)
    ensures Independent(objects, trace[..|trace| - 1], owner, c, apply)
  {
    hide Commute;
  }

  lemma FoldMore<S>(apply: (S, Work) -> S, store: S, works: seq<Work>, w: Work)
    ensures Fold(apply, store, works + [w]) == apply(Fold(apply, store, works), w)
  {
  }

  /** Batching refines sequential execution where several objects work on one collection:
      an object whose work commutes with that of the others has, once drained, changed the
      store as if its jobs had been applied one by one in push order, undisturbed. */
  lemma BatchingRefinesSequentialPerOwner<S(!new)>(states: seq<State>, steps: seq<Step>, owner: nat, c: nat,
      apply: (S, Work) -> S, store: S)
    requires IsRun(states, steps)
    requires forall i :: 0 <= i < |steps| ==> ExecutesInOrder(states[i], steps[i], owner, c)
    requires Drained(states[|steps|], owner, c)
    requires Independent(states[|steps|].objects, states[|steps|].trace, owner, c, apply)
    ensures var s := states[|steps|]; var slots := s.objects[owner].logs[c].slots;
            && (forall p :: 0 <= p < |s.trace| ==> Exists(s.objects, s.trace[p]))
            && (forall k :: 0 <= k < |Jobs(slots, 0, |slots|)| ==> Jobs(slots, 0, |slots|)[k] < |slots|)
            && Fold(apply, store, Applied(s.objects, s.trace, c)) ==
               Fold(apply, Fold(apply, store, WorksAt(slots, Jobs(slots, 0, |slots|))),
                   AppliedByOthers(s.objects, s.trace, owner, c))
  {
    var s := states[|steps|];
    hide Drained;
    RunKeeps(states, steps, |steps|);
    TraceExists(s);
    DrainedHasLog(s, owner, c);
    DrainedInPushOrder(states, steps, owner, c);
    hide IsRun;
    hide Inv;
    var slots := s.objects[owner].logs[c].slots;
    JobsAre(slots, 0, |slots|);
    OwnerFirst(s.objects, s.trace, owner, c, apply, store);
  }

  lemma DrainedHasLog(s: State, owner: nat, c: nat)
    requires Drained(s, owner, c)
    ensures HasLog(s.objects, owner, c)
  {
  }
}
