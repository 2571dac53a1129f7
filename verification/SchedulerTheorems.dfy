/** What holds in every run of the system: exactly-once dispatch, the gate over time, ordering
    across objects, and that one `update` is a sequence of the system's steps. */
module SchedulerTheorems {
  import opened TransactionLog
  import opened TransactionState
  import opened Scheduler
  import opened SchedulerInvariant
  import opened DispatchOrder

  // ---------------------------------------------------------------- dispatch

  /** In every state of every run, all batches ever cut from a log, concatenated, are
      exactly the jobs its cursor has passed, in push order; and what lies at or past the
      cursor is neither pending nor done. */
  lemma ExactlyOnceFifo(states: seq<State>, steps: seq<Step>, i: nat, owner: nat, c: nat)
    requires IsRun(states, steps) && i <= |steps| && HasLog(states[i].objects, owner, c)
    ensures Untouched(states[i].objects[owner].logs[c])
    ensures var log := states[i].objects[owner].logs[c];
            History(states[i].flights, owner, c) == Jobs(log.slots, 0, log.first)
  {
    RunKeeps(states, steps, i);
    ObjectIsValid(states[i], owner);
    assert PassedJobs(states[i].objects[owner].logs[c], History(states[i].flights, owner, c));
  }

  /** In every state of every run the callable counter of every object is the number of its
      callables that no scan has taken, modulo 256; so as long as there are fewer, any of
      them opens the gate without waiting, unless the object was told to go before. */
  lemma CallablesCounted(states: seq<State>, steps: seq<Step>, i: nat, owner: nat, diff: nat)
    requires IsRun(states, steps) && i <= |steps| && owner in states[i].objects
    ensures WellFormed(states[i].objects[owner])
    ensures var tx := states[i].objects[owner]; var queued := Queued(tx.logs, tx.order, 0);
            && tx.callables == queued % 256
            && (0 < queued < 256 && !(tx.flagged && tx.scheduled) ==> StartsPass(tx, diff))
  {
    hide Inv;
    hide Next;
    hide CanDelete;
    hide Queued;
    RunKeeps(states, steps, i);
    InvHasValid(states[i]);
    ObjectIsValid(states[i], owner);
    if Queued(states[i].objects[owner].logs, states[i].objects[owner].order, 0) > 0 {
      QueuedIsKept(states[i].objects[owner]);
    }
  }

  // ---------------------------------------------------------------- the gate over time

  predicate IsGateOf(step: Step, owner: nat) {
    step.PassGate? && step.owner == owner
  }

  /** The elapsed times given to the updates of `owner` among the steps `[lo, hi)`. */
  function Elapsed(steps: seq<Step>, lo: nat, hi: nat, owner: nat): nat
    requires lo <= hi <= |steps|
    decreases hi - lo
  {
    if lo == hi then 0
    else Elapsed(steps, lo, hi - 1, owner) + if IsGateOf(steps[hi - 1], owner) then steps[hi - 1].diff else 0
  }

  /** The step is a gate of `owner` that opens. */
  ghost predicate Opens(s: State, step: Step, owner: nat) {
    IsGateOf(step, owner) && owner in s.objects && Gate(s.objects[owner], step.diff).1 == Open
  }

  /** The step restarts the clock of `owner`: it is created, or its gate opens. */
  ghost predicate Restarts(s: State, step: Step, owner: nat) {
    (step.Create? && step.owner == owner) || Opens(s, step, owner)
  }

  /** Whenever a gate of `owner` comes by in `(a, i]`, there is no callable queued that the
      counter shows, and the object is not told to go. */
  ghost predicate OnlyTime(states: seq<State>, steps: seq<Step>, a: nat, i: nat, owner: nat)
    requires i < |steps| && |states| == |steps| + 1
  {
    forall j :: a < j <= i && IsGateOf(steps[j], owner) && owner in states[j].objects ==>
      states[j].objects[owner].callables == 0 && !ToldToGo(states[j].objects[owner])
  }

  lemma StepTime(s: State, step: Step, owner: nat)
    requires Enabled(s, step)
    requires owner in s.objects || Restarts(s, step, owner)
    ensures owner in Next(s, step).objects
    ensures Restarts(s, step, owner) ==> Next(s, step).objects[owner].since == 0
    ensures !IsGateOf(step, owner) && !Restarts(s, step, owner) ==>
            Next(s, step).objects[owner].since == s.objects[owner].since
    ensures owner in s.objects ==> Next(s, step).objects[owner].every == s.objects[owner].every
  {
    hide Scan;
    hide CanDelete;
  }

  lemma ClosedGateAdds(s: State, step: Step, owner: nat)
    requires Enabled(s, step) && IsGateOf(step, owner) && !ToldToGo(s.objects[owner]) && s.objects[owner].callables == 0
    requires s.objects[owner].since + step.diff < U64
    ensures Opens(s, step, owner) <==> s.objects[owner].since + step.diff >= s.objects[owner].every
    ensures !Opens(s, step, owner) ==> Next(s, step).objects[owner].since == s.objects[owner].since + step.diff
  {
    hide CanDelete;
    assert (s.objects[owner].since + step.diff) % U64 == s.objects[owner].since + step.diff;
  }

  lemma {:induction false} ElapsedGrows(steps: seq<Step>, lo: nat, mid: nat, hi: nat, owner: nat)
    requires lo <= mid <= hi <= |steps|
    ensures Elapsed(steps, lo, mid, owner) <= Elapsed(steps, lo, hi, owner)
    decreases hi - mid
  {
    if mid < hi {
      ElapsedGrows(steps, lo, mid, hi - 1, owner);
    }
  }

  /** While no gate of `owner` opens, its clock shows the time elapsed since step `a`. */
  lemma {:induction false} ClockShowsElapsed(states: seq<State>, steps: seq<Step>, a: nat, i: nat, owner: nat)
    requires IsRun(states, steps) && a < i < |steps| && Restarts(states[a], steps[a], owner)
    requires OnlyTime(states, steps, a, i, owner) && Elapsed(steps, a + 1, i + 1, owner) < U64
    requires forall j :: a < j < i ==> !Opens(states[j], steps[j], owner)
    ensures owner in states[i].objects && states[i].objects[owner].since == Elapsed(steps, a + 1, i, owner)
    ensures states[i].objects[owner].every == states[a + 1].objects[owner].every
    decreases i
  {
    hide Next;
    if i == a + 1 {
      StepTime(states[a], steps[a], owner);
    } else {
      ElapsedGrows(steps, a + 1, i, i + 1, owner);
      ClockShowsElapsed(states, steps, a, i - 1, owner);
      StepTime(states[i - 1], steps[i - 1], owner);
      if IsGateOf(steps[i - 1], owner) {
        ClosedGateAdds(states[i - 1], steps[i - 1], owner);
      }
    }
  }

  /** The gate of `owner` at step `i` is the first since step `a` to open. */
  ghost predicate FirstToOpen(states: seq<State>, steps: seq<Step>, a: nat, i: nat, owner: nat)
    requires i < |steps| && |states| == |steps| + 1
  {
    Opens(states[i], steps[i], owner) && forall j :: a < j < i ==> !Opens(states[j], steps[j], owner)
  }

  /** It is the first by which the time elapsed since step `a` adds up to `every`. */
  ghost predicate FirstToReach(steps: seq<Step>, a: nat, i: nat, owner: nat, every: nat)
    requires a < i < |steps|
  {
    && Elapsed(steps, a + 1, i + 1, owner) >= every
    && forall j :: a < j < i && IsGateOf(steps[j], owner) ==> Elapsed(steps, a + 1, j + 1, owner) < every
  }

  /** The time half of the gate, in any run: say the clock of `owner` restarts with step `a`,
      and from then on no callable is queued when its gate comes by and it is not told to
      go, whatever else is pushed, cut, executed and finished in between, by whomever. Then the
      first gate of `owner` to open is exactly the first one by which the elapsed time adds
      up to the interval. */
  lemma PassAtAccumulatedTime(states: seq<State>, steps: seq<Step>, a: nat, i: nat, owner: nat)
    requires IsRun(states, steps) && a < i < |steps| && Restarts(states[a], steps[a], owner) &&
             IsGateOf(steps[i], owner)
    requires OnlyTime(states, steps, a, i, owner) && Elapsed(steps, a + 1, i + 1, owner) < U64
    ensures owner in states[a + 1].objects
    ensures FirstToOpen(states, steps, a, i, owner) <==>
            FirstToReach(steps, a, i, owner, states[a + 1].objects[owner].every)
  {
    StepTime(states[a], steps[a], owner);
    hide IsRun;
    hide OnlyTime;
    hide Opens;
    hide Restarts;
    hide Elapsed;
    if exists j :: a < j < i && Opens(states[j], steps[j], owner) {
      var j := FirstOpened(states, steps, a, i, owner);
      OpensIsGate(states[j], steps[j], owner);
      ClockBefore(states, steps, a, j, i, owner);
    } else {
      ClockBefore(states, steps, a, i, i, owner);
      forall j | a < j < i && IsGateOf(steps[j], owner)
        ensures Elapsed(steps, a + 1, j + 1, owner) < states[a + 1].objects[owner].every
      {
        ClockBefore(states, steps, a, j, i, owner);
      }
    }
  }

  lemma OpensIsGate(s: State, step: Step, owner: nat)
    requires Opens(s, step, owner)
    ensures IsGateOf(step, owner)
  {
  }

  lemma ClockBefore(states: seq<State>, steps: seq<Step>, a: nat, j: nat, i: nat, owner: nat)
    requires IsRun(states, steps) && a < j <= i < |steps| && Restarts(states[a], steps[a], owner) &&
             IsGateOf(steps[j], owner)
    requires OnlyTime(states, steps, a, i, owner) && Elapsed(steps, a + 1, i + 1, owner) < U64
    requires forall k :: a < k < j ==> !Opens(states[k], steps[k], owner)
    ensures owner in states[a + 1].objects
    ensures Opens(states[j], steps[j], owner) <==>
            Elapsed(steps, a + 1, j + 1, owner) >= states[a + 1].objects[owner].every
  {
    hide IsRun;
    hide Opens;
    hide Restarts;
    ElapsedGrows(steps, a + 1, j + 1, i + 1, owner);
    hide Elapsed;
    ClockAt(states, steps, a, j, owner);
  }

  lemma ClockAt(states: seq<State>, steps: seq<Step>, a: nat, i: nat, owner: nat)
    requires IsRun(states, steps) && a < i < |steps| && Restarts(states[a], steps[a], owner) &&
             IsGateOf(steps[i], owner)
    requires OnlyTime(states, steps, a, i, owner) && Elapsed(steps, a + 1, i + 1, owner) < U64
    requires forall j :: a < j < i ==> !Opens(states[j], steps[j], owner)
    ensures owner in states[a + 1].objects
    ensures Opens(states[i], steps[i], owner) <==>
            Elapsed(steps, a + 1, i + 1, owner) >= states[a + 1].objects[owner].every
  {
    hide Next;
    StepTime(states[a], steps[a], owner);
    ClockShowsElapsed(states, steps, a, i, owner);
    ClosedGateAdds(states[i], steps[i], owner);
  }

  lemma {:induction false} FirstOpened(states: seq<State>, steps: seq<Step>, a: nat, i: nat, owner: nat)
      returns (j: nat)
    requires |states| == |steps| + 1 && i <= |steps| && exists j :: a < j < i && Opens(states[j], steps[j], owner)
    ensures a < j < i && Opens(states[j], steps[j], owner)
    ensures forall k :: a < k < j ==> !Opens(states[k], steps[k], owner)
    decreases i
  {
    j :| a < j < i && Opens(states[j], steps[j], owner);
    if exists k :: a < k < j && Opens(states[k], steps[k], owner) {
      j := FirstOpened(states, steps, a, j, owner);
    }
  }

  // ---------------------------------------------------------------- ordering across objects

  lemma {:induction false} HonouredForever(states: seq<State>, steps: seq<Step>, i: nat, j: nat)
    requires IsRun(states, steps) && i <= j <= |steps|
    ensures states[i].honoured <= states[j].honoured
  {
    if i < j {
      HonouredForever(states, steps, i, j - 1);
      HonouredStays(states[j - 1], steps[j - 1]);
    }
  }

  lemma HonouredStays(s: State, step: Step)
    requires Enabled(s, step)
    ensures s.honoured <= Next(s, step).honoured
  {
    hide Scan;
  }

  /** Say step `i` of a run moves the cursor of `(owner, c)` past a dependency `d` on slot
      `id` of `other`, which the getter can find. Then in every later state the target has
      taken effect, before everything behind the dependency. No assumption is made on the
      order in which batches complete. */
  lemma CrossObjectOrder(states: seq<State>, steps: seq<Step>, i: nat, j: nat, owner: nat, c: nat, known: set<nat>,
                         d: nat, other: nat, id: nat)
    requires IsRun(states, steps) && i < j <= |steps| && steps[i] == CutBatch(owner, c, known)
    requires var log := states[i].objects[owner].logs[c];
             && log.first <= d < states[i + 1].objects[owner].logs[c].first && d < |log.slots|
             && log.slots[d].work == Depends(other, id)
    requires other in known && Exists(states[i].objects, Ref(other, c, id))
    ensures Ref(other, c, id) in states[j].trace
    ensures forall later :: later > d ==> Precedes(states[j].trace, Ref(other, c, id), Ref(owner, c, later))
  {
    var s := states[i];
    var h := Honour(Ref(owner, c, d), Ref(other, c, id));
    RunKeeps(states, steps, i);
    RunKeeps(states, steps, j);
    ObjectIsValid(s, owner);
    CutLog(s.objects[owner].logs[c], PeersOf(s.objects, known, c));
    assert h in states[i + 1].honoured;
    HonouredForever(states, steps, i + 1, j);
    forall later | later > d
      ensures Precedes(states[j].trace, Ref(other, c, id), Ref(owner, c, later))
    {
      assert Precedes(states[j].trace, h.target, h.waiter.(id := later));
    }
  }

  /** Slot `id` of `other` can be found by a getter that knows `known`, and is not done. */
  predicate Blocks(s: State, c: nat, other: nat, id: nat, known: set<nat>) {
    other in known && Exists(s.objects, Ref(other, c, id)) && !SlotOf(s.objects, Ref(other, c, id)).done
  }

  /** From the cursor up to slot `k`, no dependency blocks and all jobs are of one kind. */
  ghost predicate Clear(s: State, owner: nat, c: nat, k: nat, known: set<nat>)
    requires HasLog(s.objects, owner, c) && k < |s.objects[owner].logs[c].slots|
  {
    var log := s.objects[owner].logs[c];
    && (forall d :: log.first <= d <= k && log.slots[d].work.Depends? ==>
          !Blocks(s, c, log.slots[d].work.owner, log.slots[d].work.id, known))
    && forall i, j :: log.first <= i < j <= k && !log.slots[i].work.Depends? && !log.slots[j].work.Depends? ==>
         (log.slots[i].work.Call? <==> log.slots[j].work.Call?)
  }

  lemma ClearIsClearTo(s: State, owner: nat, c: nat, k: nat, known: set<nat>)
    requires HasLog(s.objects, owner, c) && k < |s.objects[owner].logs[c].slots|
    ensures Clear(s, owner, c, k, known) <==> ClearTo(s.objects[owner].logs[c], k, PeersOf(s.objects, known, c))
  {
    var log, peers := s.objects[owner].logs[c], PeersOf(s.objects, known, c);
    forall other, id
      ensures Blocks(s, c, other, id, known) <==> Unfinished(peers, other, id)
    {
    }
    hide Blocks;
    hide Unfinished;
  }

  /** What a cut does, in every state of every run. The cursor moves past slot `k` exactly if
      everything from it to `k` is clear: a dependency holds it back exactly if its target is
      known, has been pushed and is not done. The jobs it moves past become pending, and
      nothing else of the log changes. */
  lemma CutExactly(states: seq<State>, steps: seq<Step>, i: nat, owner: nat, c: nat, known: set<nat>)
    requires IsRun(states, steps) && i <= |steps| && HasLog(states[i].objects, owner, c)
    ensures Enabled(states[i], CutBatch(owner, c, known))
    ensures var s := states[i]; var t := Next(s, CutBatch(owner, c, known));
            && HasLog(t.objects, owner, c)
            && var log, after := s.objects[owner].logs[c], t.objects[owner].logs[c];
               && log.first <= after.first <= |log.slots| == |after.slots|
               && (forall k :: log.first <= k < |log.slots| ==> (k < after.first <==> Clear(s, owner, c, k, known)))
               && forall k :: 0 <= k < |log.slots| ==>
                    after.slots[k] == if log.first <= k < after.first && !log.slots[k].work.Depends? then
                      log.slots[k].(pending := true)
                    else log.slots[k]
  {
    var s := states[i];
    RunKeeps(states, steps, i);
    ObjectIsValid(s, owner);
    hide Inv;
    hide IsRun;
    var log, peers := s.objects[owner].logs[c], PeersOf(s.objects, known, c);
    ValidLog(s.objects[owner], c);
    hide Valid;
    hide Scan;
    hide Clear;
    ScanMarksExactly(log, peers);
    CutIsAdvance(s, owner, c, known);
    hide Next;
    hide Enabled;
    forall k | log.first <= k < |log.slots|
      ensures k < Scan(log, peers).stop <==> Clear(s, owner, c, k, known)
    {
      ScanStopsExactly(log, peers, k);
      ClearIsClearTo(s, owner, c, k, known);
    }
  }

  lemma CutIsAdvance(s: State, owner: nat, c: nat, known: set<nat>)
    requires HasLog(s.objects, owner, c) && s.objects[owner].logs[c].first <= |s.objects[owner].logs[c].slots|
    ensures Enabled(s, CutBatch(owner, c, known))
    ensures var t := Next(s, CutBatch(owner, c, known)); var log := s.objects[owner].logs[c];
            && HasLog(t.objects, owner, c)
            && t.objects[owner].logs[c] == Advance(log, Scan(log, PeersOf(s.objects, known, c)))
  {
    hide Scan;
  }

  /** A cut whose cursor stands on a dependency raises it exactly if the target is not known,
      or not pushed, or done. */
  lemma CursorOnDependency(states: seq<State>, steps: seq<Step>, i: nat, owner: nat, c: nat, known: set<nat>)
    requires IsRun(states, steps) && i <= |steps| && HasLog(states[i].objects, owner, c)
    requires var log := states[i].objects[owner].logs[c]; log.first < |log.slots| && log.slots[log.first].work.Depends?
    ensures Enabled(states[i], CutBatch(owner, c, known))
    ensures var s := states[i]; var log := s.objects[owner].logs[c];
            var t := Next(s, CutBatch(owner, c, known)); var target := log.slots[log.first].work;
            && HasLog(t.objects, owner, c)
            && (t.objects[owner].logs[c].first == log.first <==>
                && target.owner in known && Exists(s.objects, Ref(target.owner, c, target.id))
                && !SlotOf(s.objects, Ref(target.owner, c, target.id)).done)
  {
    hide Next;
    hide Clear;
    CutExactly(states, steps, i, owner, c, known);
    hide Enabled;
    ClearAtDependency(states[i], owner, c, known);
  }

  lemma ClearAtDependency(s: State, owner: nat, c: nat, known: set<nat>)
    requires HasLog(s.objects, owner, c)
    requires var log := s.objects[owner].logs[c]; log.first < |log.slots| && log.slots[log.first].work.Depends?
    ensures var log := s.objects[owner].logs[c]; var target := log.slots[log.first].work;
            Clear(s, owner, c, log.first, known) <==>
            !(target.owner in known && Exists(s.objects, Ref(target.owner, c, target.id))
              && !SlotOf(s.objects, Ref(target.owner, c, target.id)).done)
  {
  }

  lemma DoneStays(s: State, step: Step, ref: Ref)
    requires Inv(s) && Enabled(s, step) && Exists(s.objects, ref) && SlotOf(s.objects, ref).done
    ensures Exists(Next(s, step).objects, ref) && SlotOf(Next(s, step).objects, ref).done
  {
    hide Inv;
    if step.CutBatch? {
      CutKeepsDone(s, step.owner, step.collection, step.known, ref);
    } else if step.PassGate? {
      hide CanDelete;
    }
  }

  lemma CutKeepsDone(s: State, owner: nat, c: nat, known: set<nat>, ref: Ref)
    requires Inv(s) && Enabled(s, CutBatch(owner, c, known)) && Exists(s.objects, ref) && SlotOf(s.objects, ref).done
    ensures Exists(Cut(s, owner, c, known).objects, ref) && SlotOf(Cut(s, owner, c, known).objects, ref).done
  {
    hide Valid;
    hide Scan;
    ObjectIsValid(s, owner);
    FlagsKept(s.objects[owner].logs[c], PeersOf(s.objects, known, c));
    if ref.owner == owner && ref.collection == c {
      assert DoneFlags(s.objects[owner].logs[c].slots)[ref.id];
    }
  }

  /** Once a slot is done it has taken effect and stays done. */
  lemma {:induction false} DoneForever(states: seq<State>, steps: seq<Step>, i: nat, j: nat, ref: Ref)
    requires IsRun(states, steps) && i <= j <= |steps|
    requires Exists(states[i].objects, ref) && SlotOf(states[i].objects, ref).done
    ensures ref in states[i].trace
    ensures Exists(states[j].objects, ref) && SlotOf(states[j].objects, ref).done
  {
    hide Inv;
    RunKeeps(states, steps, i);
    DoneIsEffected(states[i], ref);
    if i < j {
      DoneForever(states, steps, i, j - 1, ref);
      RunKeeps(states, steps, j - 1);
      DoneStays(states[j - 1], steps[j - 1], ref);
    }
  }

  // ---------------------------------------------------------------- batches

  /** Every passed job is in a batch, which says whether it is done. */
  lemma JobInBatch(s: State, ref: Ref) returns (k: nat, j: nat)
    requires Inv(s) && Exists(s.objects, ref) && !SlotOf(s.objects, ref).work.Depends?
    requires ref.id < s.objects[ref.owner].logs[ref.collection].first
    ensures k < |s.flights| && j < |s.flights[k].ids| && RefAt(s.flights[k], j) == ref
    ensures SlotOf(s.objects, ref).done <==> j < s.flights[k].flagged
  {
    var log := s.objects[ref.owner].logs[ref.collection];
    assert PassedJobs(log, History(s.flights, ref.owner, ref.collection));
    JobsAre(log.slots, 0, log.first);
    HistoryHolds(s.flights, ref.owner, ref.collection, ref.id);
    k :| 0 <= k < |s.flights| && ForLog(s.flights[k], ref.owner, ref.collection) && ref.id in s.flights[k].ids;
    j :| 0 <= j < |s.flights[k].ids| && s.flights[k].ids[j] == ref.id;
    assert FlightValid(s.objects, s.flights[k]);
  }

  // ---------------------------------------------------------------- paths

  /** The steps lead from `s` to `t`. */
  ghost predicate Leads(s: State, steps: seq<Step>, t: State)
    decreases |steps|
  {
    if steps == [] then s == t
    else Enabled(s, steps[0]) && Leads(Next(s, steps[0]), steps[1..], t)
  }

  lemma {:induction false} LeadsOn(s: State, a: seq<Step>, t: State, b: seq<Step>, u: State)
    requires Leads(s, a, t) && Leads(t, b, u)
    ensures Leads(s, a + b, u)
    decreases |a|
  {
    if a == [] {
      assert a + b == b;
    } else {
      LeadsOn(Next(s, a[0]), a[1..], t, b, u);
      assert (a + b)[1..] == a[1..] + b;
    }
  }

  /** A path from a state of a run extends the run. */
  lemma {:induction false} RunExtends(states: seq<State>, steps: seq<Step>, more: seq<Step>, t: State)
      returns (all: seq<State>)
    requires IsRun(states, steps) && Leads(states[|steps|], more, t)
    ensures IsRun(all, steps + more) && all[|steps + more|] == t && states <= all
    decreases |more|
  {
    if more == [] {
      assert steps + more == steps;
      all := states;
    } else {
      var next := Next(states[|steps|], more[0]);
      var states', steps' := states + [next], steps + [more[0]];
      assert IsRun(states', steps') by {
        forall i | 0 <= i < |steps'|
          ensures Enabled(states'[i], steps'[i]) && states'[i + 1] == Next(states'[i], steps'[i])
        {
          assert i < |steps| ==> states'[i] == states[i] && states'[i + 1] == states[i + 1] && steps'[i] == steps[i];
        }
      }
      all := RunExtends(states', steps', more[1..], t);
      assert steps' + more[1..] == steps + more;
    }
  }

  // ---------------------------------------------------------------- one update is a path

  function FlightsOf(owner: nat, dispatches: seq<Dispatch>): (flights: seq<Flight>)
    ensures |flights| == |dispatches|
  {
    seq(|dispatches|, k requires 0 <= k < |dispatches| =>
      Flight(owner, dispatches[k].collection, dispatches[k].ids, dispatches[k].run, 0, 0))
  }

  /** What every collection of `owner` sees through a getter that knows `known`. */
  function EnvFor(objects: map<nat, Tx>, known: set<nat>, owner: nat): map<nat, Peers>
    requires owner in objects
  {
    map c | c in objects[owner].logs :: PeersOf(objects, known, c)
  }

  lemma CutKeepsPeers(s: State, owner: nat, c: nat, known: set<nat>)
    requires ObjectsValid(s) && Enabled(s, CutBatch(owner, c, known))
    ensures var t := Cut(s, owner, c, known);
            EnvFor(t.objects, known, owner) == EnvFor(s.objects, known, owner)
  {
    hide Scan;
    hide Valid;
    ObjectIsValid(s, owner);
    FlagsKept(s.objects[owner].logs[c], PeersOf(s.objects, known, c));
    SameEnv(s.objects, Cut(s, owner, c, known).objects, known, owner);
  }

  /** Both show the same `done` flags in the same logs. */
  ghost predicate SameFlags(before: map<nat, Tx>, after: map<nat, Tx>) {
    && (forall o, c :: HasLog(after, o, c) ==> HasLog(before, o, c))
    && forall o, c :: HasLog(before, o, c) ==>
         HasLog(after, o, c) && DoneFlags(before[o].logs[c].slots) == DoneFlags(after[o].logs[c].slots)
  }

  lemma SamePeers(before: map<nat, Tx>, after: map<nat, Tx>, known: set<nat>, c: nat)
    requires SameFlags(before, after)
    ensures PeersOf(after, known, c) == PeersOf(before, known, c)
  {
    var p, q := PeersOf(before, known, c), PeersOf(after, known, c);
    forall o
      ensures o in p <==> o in q
      ensures o in p ==> p[o] == q[o]
    {
      assert HasLog(before, o, c) <==> HasLog(after, o, c);
    }
  }

  lemma SameEnv(before: map<nat, Tx>, after: map<nat, Tx>, known: set<nat>, owner: nat)
    requires SameFlags(before, after) && owner in before && owner in after
    ensures EnvFor(after, known, owner) == EnvFor(before, known, owner)
  {
    forall c
      ensures c in before[owner].logs <==> c in after[owner].logs
      ensures PeersOf(after, known, c) == PeersOf(before, known, c)
    {
      assert HasLog(before, owner, c) <==> HasLog(after, owner, c);
      SamePeers(before, after, known, c);
    }
  }

  lemma FlagsKept(log: Log, peers: Peers)
    requires Untouched(log)
    ensures DoneFlags(Advance(log, Scan(log, peers)).slots) == DoneFlags(log.slots)
  {
    AdvanceStaysUntouched(log, peers);
  }

  /** Gates of `owner` and cuts of its logs under a getter that knows `known`. */
  predicate StepsOf(steps: seq<Step>, owner: nat, known: set<nat>) {
    forall j :: 0 <= j < |steps| ==>
      (steps[j].PassGate? || (steps[j].CutBatch? && steps[j].known == known)) && steps[j].owner == owner
  }

  lemma {:induction false} PassIsPath(s: State, owner: nat, known: set<nat>, k: nat)
      returns (steps: seq<Step>, t: State)
    requires Inv(s) && owner in s.objects && k <= |s.objects[owner].order|
    ensures Leads(s, steps, t) && Inv(t) && t.trace == s.trace && t.pushes == s.pushes && StepsOf(steps, owner, known)
    ensures WellFormed(s.objects[owner])
    ensures var pass := PassFrom(s.objects[owner], k, EnvFor(s.objects, known, owner));
            t.objects == s.objects[owner := pass.0] && t.flights == s.flights + FlightsOf(owner, pass.1)
    decreases |s.objects[owner].order| - k
  {
    hide PassFrom;
    hide Inv;
    hide Scan;
    hide WellFormed;
    var tx := s.objects[owner];
    OwnerFacts(s, owner, known);
    if k == |tx.order| {
      PassTurn(tx, k, EnvFor(s.objects, known, owner));
      steps, t := [], s;
      assert s.objects[owner := tx] == s.objects;
      assert s.flights + FlightsOf(owner, []) == s.flights;
    } else {
      var c := tx.order[k];
      PassTurn(tx, k, EnvFor(s.objects, known, owner));
      if tx.logs[c].first == |tx.logs[c].slots| {
        steps, t := PassIsPath(s, owner, known, k + 1);
      } else {
        steps, t := CutThenPass(s, owner, known, k);
      }
    }
  }

  lemma {:induction false} CutThenPass(s: State, owner: nat, known: set<nat>, k: nat)
      returns (steps: seq<Step>, t: State)
    requires Inv(s) && owner in s.objects && k < |s.objects[owner].order|
    requires s.objects[owner].order[k] in s.objects[owner].logs
    requires var log := s.objects[owner].logs[s.objects[owner].order[k]]; log.first != |log.slots|
    ensures Leads(s, steps, t) && Inv(t) && t.trace == s.trace && t.pushes == s.pushes && StepsOf(steps, owner, known)
    ensures WellFormed(s.objects[owner])
    ensures var pass := PassFrom(s.objects[owner], k, EnvFor(s.objects, known, owner));
            t.objects == s.objects[owner := pass.0] && t.flights == s.flights + FlightsOf(owner, pass.1)
    decreases |s.objects[owner].order| - k, 0
  {
    hide PassFrom;
    hide Inv;
    hide Scan;
    hide WellFormed;
    hide Next;
    hide Enabled;
    var tx := s.objects[owner];
    var c := tx.order[k];
    var step := CutBatch(owner, c, known);
    PassCut(s, owner, known, k);
    var next := Next(s, step);
    var sweep := Scan(tx.logs[c], PeersOf(s.objects, known, c));
    if sweep.ids == [] {
      steps, t := [step], next;
      assert s.flights + FlightsOf(owner, []) == s.flights;
    } else {
      var rest;
      rest, t := PassIsPath(next, owner, known, k + 1);
      steps := [step] + rest;
      assert steps[1..] == rest;
      FlightsOfConcat(owner, Dispatch(c, sweep.ids, sweep.run),
          PassFrom(next.objects[owner], k + 1, EnvFor(next.objects, known, owner)).1);
    }
  }

  /** The cut of the collection at position `k`, as a step and as a turn of the pass. */
  lemma PassCut(s: State, owner: nat, known: set<nat>, k: nat)
    requires Inv(s) && owner in s.objects && k < |s.objects[owner].order|
    requires s.objects[owner].order[k] in s.objects[owner].logs
    requires var log := s.objects[owner].logs[s.objects[owner].order[k]]; log.first != |log.slots|
    ensures var tx := s.objects[owner]; var c := tx.order[k]; var step := CutBatch(owner, c, known);
            var env := EnvFor(s.objects, known, owner);
            && WellFormed(tx) && tx.logs.Keys == env.Keys && tx.logs[c].first <= |tx.logs[c].slots| && Enabled(s, step)
            && var next := Next(s, step); var sweep := Scan(tx.logs[c], PeersOf(s.objects, known, c));
               && Inv(next) && next.trace == s.trace && next.pushes == s.pushes && owner in next.objects
               && next.objects == s.objects[owner := next.objects[owner]] && next.objects[owner].order == tx.order
               && WellFormed(next.objects[owner])
               && next.objects[owner].logs.Keys == EnvFor(next.objects, known, owner).Keys
               && (sweep.ids == [] ==> next.flights == s.flights && PassFrom(tx, k, env) == (next.objects[owner], []))
               && (sweep.ids != [] ==>
                    var rest := PassFrom(next.objects[owner], k + 1, EnvFor(next.objects, known, owner));
                    && next.flights == s.flights + [Flight(owner, c, sweep.ids, sweep.run, 0, 0)]
                    && PassFrom(tx, k, env) == (rest.0, [Dispatch(c, sweep.ids, sweep.run)] + rest.1))
  {
    hide PassFrom;
    hide Inv;
    hide Scan;
    hide WellFormed;
    hide Take;
    var tx, c := s.objects[owner], s.objects[owner].order[k];
    OwnerFacts(s, owner, known);
    PassTurn(tx, k, EnvFor(s.objects, known, owner));
    CutKeeps(s, owner, c, known);
    InvHasValid(s);
    CutKeepsPeers(s, owner, c, known);
    OwnerFacts(Cut(s, owner, c, known), owner, known);
  }

  lemma InvHasValid(s: State)
    requires Inv(s)
    ensures ObjectsValid(s)
  {
  }

  lemma OwnerFacts(s: State, owner: nat, known: set<nat>)
    requires Inv(s) && owner in s.objects
    ensures var tx := s.objects[owner];
            && WellFormed(tx) && (forall k :: 0 <= k < |tx.order| ==> tx.order[k] in tx.logs)
            && (forall c :: c in tx.logs ==> tx.logs[c].first <= |tx.logs[c].slots|)
            && tx.logs.Keys == EnvFor(s.objects, known, owner).Keys
  {
    assert Valid(s.objects[owner]);
  }

  lemma FlightsOfConcat(owner: nat, first: Dispatch, rest: seq<Dispatch>)
    ensures FlightsOf(owner, [first] + rest) ==
            [Flight(owner, first.collection, first.ids, first.run, 0, 0)] + FlightsOf(owner, rest)
  {
  }

  /** One `update` of an object is a path of the system: its gate and one cut for each
      collection it reaches. The object ends as `update` leaves it, exactly the dispatched
      batches are new in flight, and the answer can be read off the object before and after:
      it goes if it is flagged and told so, now or before, and then nothing is cut. */
  lemma UpdateIsPath(s: State, owner: nat, diff: nat, known: set<nat>) returns (steps: seq<Step>, t: State)
    requires Inv(s) && owner in s.objects
    ensures WellFormed(s.objects[owner])
    ensures Leads(s, steps, t) && Inv(t) && t.trace == s.trace && t.pushes == s.pushes && StepsOf(steps, owner, known)
    ensures var outcome := Update(s.objects[owner], diff, EnvFor(s.objects, known, owner));
            t.objects == s.objects[owner := outcome.tx] && t.flights == s.flights + FlightsOf(owner, outcome.dispatches)
    ensures var keep := Update(s.objects[owner], diff, EnvFor(s.objects, known, owner)).keep;
            && (!keep <==> ToldToGo(s.objects[owner]))
            && (!keep <==> t.objects[owner].flagged && t.objects[owner].scheduled)
            && (!keep ==> steps == [PassGate(owner, diff)])
  {
    steps, t := UpdateSteps(s, owner, diff, known);
    hide Inv;
    hide WellFormed;
    hide Update;
    OwnerFacts(s, owner, known);
    KeepsUnlessTold(s.objects[owner], diff, EnvFor(s.objects, known, owner));
    UpdateAnswer(s.objects[owner], diff, EnvFor(s.objects, known, owner));
    hide ToldToGo;
    hide CanDelete;
  }

  lemma UpdateSteps(s: State, owner: nat, diff: nat, known: set<nat>) returns (steps: seq<Step>, t: State)
    requires Inv(s) && owner in s.objects
    ensures WellFormed(s.objects[owner])
    ensures Leads(s, steps, t) && Inv(t) && t.trace == s.trace && t.pushes == s.pushes && StepsOf(steps, owner, known)
    ensures var outcome := Update(s.objects[owner], diff, EnvFor(s.objects, known, owner));
            && t.objects == s.objects[owner := outcome.tx]
            && t.flights == s.flights + FlightsOf(owner, outcome.dispatches)
            && (!outcome.keep ==> steps == [PassGate(owner, diff)])
  {
    hide PassFrom;
    hide Inv;
    hide Gate;
    hide WellFormed;
    var step := PassGate(owner, diff);
    var next := Next(s, step);
    OwnerFacts(s, owner, known);
    GateKeeps(s, owner, diff);
    InvHasValid(s);
    GateKeepsPeers(s, owner, diff, known);
    if Gate(s.objects[owner], diff).1 == Open {
      var rest;
      rest, t := PassIsPath(next, owner, known, 0);
      steps := [step] + rest;
    } else {
      steps, t := [step], next;
      assert s.flights + FlightsOf(owner, []) == s.flights;
    }
  }

  lemma GateKeepsPeers(s: State, owner: nat, diff: nat, known: set<nat>)
    requires ObjectsValid(s) && owner in s.objects
    ensures EnvFor(Next(s, PassGate(owner, diff)).objects, known, owner) == EnvFor(s.objects, known, owner)
  {
    hide Valid;
    ObjectIsValid(s, owner);
    GateKeepsValid(s.objects[owner], diff);
    SameEnv(s.objects, Next(s, PassGate(owner, diff)).objects, known, owner);
  }
}
