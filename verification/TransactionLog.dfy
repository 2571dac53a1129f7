/** The append-only slot log that a transaction keeps for each collection, and the
    scan that cuts the next batch from it.

    The values here are the specification of class `Transaction.Transaction`; the
    theorems are about every log and every environment of dependencies. */
module TransactionLog {

  datatype OpType = Insert | DeleteOne | DeleteMany | UpdateOne | UpdateMany | UpsertOne | UpsertMany

  type Document = string

  /** What a slot asks for: a write, a callable (named by a number), or to wait for
      slot `id` of the same collection in the transaction object `owner`. */
  datatype Work =
    | Write(op: OpType, first: Document, second: Document)
    | Call(callable: nat)
    | Depends(owner: nat, id: nat)

  datatype Slot = Slot(work: Work, pending: bool, done: bool)

  /** Slots `0..|slots|` with the cursor `first`: slots below it have been passed. */
  datatype Log = Log(first: nat, slots: seq<Slot>)

  /** The kind of batch being collected: the two flags of the scan are never both set. */
  datatype Run = Neither | Writes | Calls

  /** For each transaction object the getter knows that also has the collection: the
      `done` flag of each of its slots there. */
  type Peers = map<nat, seq<bool>>

  /** What one scan found: where it stopped, the slots it collected, and their kind. */
  datatype Sweep = Sweep(stop: nat, ids: seq<nat>, run: Run)

  function Fresh(work: Work): Slot {
    Slot(work, false, false)
  }

  function Push(log: Log, work: Work): Log {
    log.(slots := log.slots + [Fresh(work)])
  }

  function DoneFlags(slots: seq<Slot>): (flags: seq<bool>)
    ensures |flags| == |slots|
    ensures forall i :: 0 <= i < |slots| ==> flags[i] == slots[i].done
  {
    seq(|slots|, i requires 0 <= i < |slots| => slots[i].done)
  }

  /** A dependency holds the scan back only if its target can be found and is not done. */
  predicate Met(peers: Peers, owner: nat, id: nat) {
    owner in peers && id < |peers[owner]| ==> peers[owner][id]
  }

  function KindOf(work: Work): Run
    requires !work.Depends?
  {
    if work.Call? then Calls else Writes
  }

  function ScanFrom(slots: seq<Slot>, id: nat, run: Run, peers: Peers): Sweep
    requires id <= |slots|
    decreases |slots| - id
  {
    if id == |slots| || slots[id].pending then
      Sweep(id, [], run)
    else if slots[id].done then
      ScanFrom(slots, id + 1, run, peers)
    else
      match slots[id].work
      case Depends(owner, target) =>
        if Met(peers, owner, target) then ScanFrom(slots, id + 1, run, peers) else Sweep(id, [], run)
      case Call(_) =>
        if run == Writes then Sweep(id, [], run)
        else var rest := ScanFrom(slots, id + 1, Calls, peers); rest.(ids := [id] + rest.ids)
      case Write(_, _, _) =>
        if run == Calls then Sweep(id, [], run)
        else var rest := ScanFrom(slots, id + 1, Writes, peers); rest.(ids := [id] + rest.ids)
  }

  function Scan(log: Log, peers: Peers): Sweep
    requires log.first <= |log.slots|
  {
    ScanFrom(log.slots, log.first, Neither, peers)
  }

  function Mark(slots: seq<Slot>, ids: seq<nat>): (marked: seq<Slot>)
    ensures |marked| == |slots|
    ensures forall i :: 0 <= i < |slots| ==>
              marked[i] == if i in ids then slots[i].(pending := true) else slots[i]
  {
    seq(|slots|, i requires 0 <= i < |slots| => if i in ids then slots[i].(pending := true) else slots[i])
  }

  /** The log after a scan: the collected slots are pending and the cursor has moved. */
  function Advance(log: Log, sweep: Sweep): Log {
    Log(sweep.stop, Mark(log.slots, sweep.ids))
  }

  /** Nothing at or past the cursor has been handed out. */
  ghost predicate Untouched(log: Log) {
    && log.first <= |log.slots|
    && forall i :: log.first <= i < |log.slots| ==> !log.slots[i].pending && !log.slots[i].done
  }

  /** The non-dependency slots in `[lo, hi)`, in order. */
  function Jobs(slots: seq<Slot>, lo: nat, hi: nat): seq<nat>
    requires lo <= hi <= |slots|
    decreases hi - lo
  {
    if lo == hi then []
    else if slots[lo].work.Depends? then Jobs(slots, lo + 1, hi)
    else [lo] + Jobs(slots, lo + 1, hi)
  }

  /** The number of callables in `[lo, hi)`. */
  function CallsIn(slots: seq<Slot>, lo: nat, hi: nat): nat
    requires lo <= hi <= |slots|
    decreases hi - lo
  {
    if lo == hi then 0
    else (if slots[lo].work.Call? then 1 else 0) + CallsIn(slots, lo + 1, hi)
  }

  // ---------------------------------------------------------------- the shape of a sweep

  lemma {:induction false} JobsAre(slots: seq<Slot>, lo: nat, hi: nat)
    requires lo <= hi <= |slots|
    ensures forall k :: 0 <= k < |Jobs(slots, lo, hi)| ==>
              lo <= Jobs(slots, lo, hi)[k] < hi && !slots[Jobs(slots, lo, hi)[k]].work.Depends?
    ensures forall j, k :: 0 <= j < k < |Jobs(slots, lo, hi)| ==> Jobs(slots, lo, hi)[j] < Jobs(slots, lo, hi)[k]
    ensures forall i :: lo <= i < hi && !slots[i].work.Depends? ==> i in Jobs(slots, lo, hi)
    decreases hi - lo
  {
    if lo < hi {
      JobsAre(slots, lo + 1, hi);
    }
  }

  lemma {:induction false} JobsSplit(slots: seq<Slot>, lo: nat, mid: nat, hi: nat)
    requires lo <= mid <= hi <= |slots|
    ensures Jobs(slots, lo, hi) == Jobs(slots, lo, mid) + Jobs(slots, mid, hi)
    decreases mid - lo
  {
    if lo < mid {
      JobsSplit(slots, lo + 1, mid, hi);
    }
  }

  /** `Jobs` looks only at the work of the slots in its range. */
  lemma {:induction false} JobsAgree(slots: seq<Slot>, other: seq<Slot>, lo: nat, hi: nat)
    requires lo <= hi <= |slots| && hi <= |other|
    requires forall i :: lo <= i < hi ==> slots[i].work == other[i].work
    ensures Jobs(slots, lo, hi) == Jobs(other, lo, hi)
    ensures CallsIn(slots, lo, hi) == CallsIn(other, lo, hi)
    decreases hi - lo
  {
    if lo < hi {
      JobsAgree(slots, other, lo + 1, hi);
    }
  }

  lemma {:induction false} CallsSplit(slots: seq<Slot>, lo: nat, mid: nat, hi: nat)
    requires lo <= mid <= hi <= |slots|
    ensures CallsIn(slots, lo, hi) == CallsIn(slots, lo, mid) + CallsIn(slots, mid, hi)
    decreases mid - lo
  {
    if lo < mid {
      CallsSplit(slots, lo + 1, mid, hi);
    }
  }

  /** Slot `id` keeps a scan that is collecting `run` from going further. */
  predicate Stops(slots: seq<Slot>, id: nat, run: Run, peers: Peers)
    requires id < |slots|
  {
    match slots[id].work
    case Depends(owner, target) => !Met(peers, owner, target)
    case Call(_) => run == Writes
    case Write(_, _, _) => run == Calls
  }

  /** The declarative meaning of a scan that starts with `run` already collected:
      the batch is every job before `stop`, all of one kind, every dependency before
      `stop` is met, and `stop` cannot be moved further. */
  ghost predicate IsSweep(slots: seq<Slot>, id: nat, run: Run, peers: Peers, sweep: Sweep)
    requires id <= |slots|
  {
    && id <= sweep.stop <= |slots|
    && sweep.ids == Jobs(slots, id, sweep.stop)
    && (run != Neither ==> sweep.run == run)
    && (sweep.run == Neither <==> run == Neither && sweep.ids == [])
    && (forall i :: id <= i < sweep.stop && !slots[i].work.Depends? ==> KindOf(slots[i].work) == sweep.run)
    && (forall i :: id <= i < sweep.stop && slots[i].work.Depends? ==>
          Met(peers, slots[i].work.owner, slots[i].work.id))
    && (sweep.stop < |slots| ==> Stops(slots, sweep.stop, sweep.run, peers))
  }

  lemma {:induction false} ScanIsSweep(slots: seq<Slot>, id: nat, run: Run, peers: Peers)
    requires id <= |slots|
    requires forall i :: id <= i < |slots| ==> !slots[i].pending && !slots[i].done
    ensures IsSweep(slots, id, run, peers, ScanFrom(slots, id, run, peers))
    decreases |slots| - id
  {
    if id < |slots| && !Stops(slots, id, run, peers) {
      var run' := if slots[id].work.Depends? then run else KindOf(slots[id].work);
      ScanIsSweep(slots, id + 1, run', peers);
    }
  }

  /** Two sweeps of the same log that collected something collected the same kind. */
  lemma SweepKindsAgree(slots: seq<Slot>, id: nat, run: Run, peers: Peers, a: Sweep, b: Sweep)
    requires id <= |slots|
    requires IsSweep(slots, id, run, peers, a) && IsSweep(slots, id, run, peers, b)
    requires a.stop <= b.stop
    ensures a.run == Neither || a.run == b.run
    ensures a.stop == b.stop ==> a == b
  {
    JobsAre(slots, id, a.stop);
    if run == Neither && a.ids != [] {
      var i := a.ids[0];
      assert KindOf(slots[i].work) == a.run && KindOf(slots[i].work) == b.run;
    }
  }

  /** At most one sweep fits the declarative meaning. */
  lemma SweepIsUnique(slots: seq<Slot>, id: nat, run: Run, peers: Peers, a: Sweep, b: Sweep)
    requires id <= |slots|
    requires IsSweep(slots, id, run, peers, a) && IsSweep(slots, id, run, peers, b)
    ensures a == b
  {
    if a.stop <= b.stop {
      SweepKindsAgree(slots, id, run, peers, a, b);
    } else {
      SweepKindsAgree(slots, id, run, peers, b, a);
    }
  }

  /** A scan of an untouched log returns a batch exactly when it fits the declarative
      meaning: the longest same-kind run of jobs behind met dependencies. */
  lemma ScanMeaning(log: Log, peers: Peers, sweep: Sweep)
    requires Untouched(log)
    ensures sweep == Scan(log, peers) <==> IsSweep(log.slots, log.first, Neither, peers, sweep)
  {
    ScanIsSweep(log.slots, log.first, Neither, peers);
    if IsSweep(log.slots, log.first, Neither, peers, sweep) {
      SweepIsUnique(log.slots, log.first, Neither, peers, sweep, Scan(log, peers));
    }
  }

  /** The target is known, has been pushed, and is not done. */
  predicate Unfinished(peers: Peers, owner: nat, id: nat) {
    owner in peers && id < |peers[owner]| && !peers[owner][id]
  }

  /** Up to slot `i`, every dependency may be passed and all jobs are of one kind. */
  ghost predicate ClearTo(log: Log, i: nat, peers: Peers)
    requires i < |log.slots|
  {
    && (forall d :: log.first <= d <= i && log.slots[d].work.Depends? ==>
          !Unfinished(peers, log.slots[d].work.owner, log.slots[d].work.id))
    && forall j, k :: log.first <= j < k <= i && !log.slots[j].work.Depends? && !log.slots[k].work.Depends? ==>
         (log.slots[j].work.Call? <==> log.slots[k].work.Call?)
  }

  /** How far a scan goes: past slot `i` exactly if everything up to `i` is clear. A target
      that is unknown, or was not pushed yet, holds nothing back. */
  lemma ScanStopsExactly(log: Log, peers: Peers, i: nat)
    requires Untouched(log) && log.first <= i < |log.slots|
    ensures i < Scan(log, peers).stop <==> ClearTo(log, i, peers)
  {
    var sweep := Scan(log, peers);
    ScanIsSweep(log.slots, log.first, Neither, peers);
    JobsAre(log.slots, log.first, sweep.stop);
    if sweep.stop <= i && sweep.ids != [] && !log.slots[sweep.stop].work.Depends? {
      assert log.first <= sweep.ids[0] < sweep.stop;
    }
  }

  /** What a scan does to the log: the jobs its cursor moves past become pending. */
  lemma ScanMarksExactly(log: Log, peers: Peers)
    requires Untouched(log)
    ensures var after := Advance(log, Scan(log, peers));
            && log.first <= after.first <= |log.slots| == |after.slots|
            && forall i :: 0 <= i < |log.slots| ==>
                 after.slots[i] == if log.first <= i < after.first && !log.slots[i].work.Depends? then
                   log.slots[i].(pending := true)
                 else log.slots[i]
  {
    ScanIsSweep(log.slots, log.first, Neither, peers);
    JobsAre(log.slots, log.first, Scan(log, peers).stop);
    hide ScanFrom;
    hide Stops;
  }

  /** A scan never finds a slot at or past the cursor pending or done, and what it
      leaves behind is again an untouched log, so it never will. */
  lemma AdvanceStaysUntouched(log: Log, peers: Peers)
    requires Untouched(log)
    ensures Untouched(Advance(log, Scan(log, peers)))
    ensures log.first <= Scan(log, peers).stop
    ensures DoneFlags(Advance(log, Scan(log, peers)).slots) == DoneFlags(log.slots)
  {
    ScanIsSweep(log.slots, log.first, Neither, peers);
    JobsAre(log.slots, log.first, Scan(log, peers).stop);
  }

  /** The callables a scan takes are exactly those its cursor moves past. */
  lemma {:induction false} ScanCountsCalls(slots: seq<Slot>, id: nat, run: Run, peers: Peers)
    requires id <= |slots|
    requires forall i :: id <= i < |slots| ==> !slots[i].pending && !slots[i].done
    ensures var s := ScanFrom(slots, id, run, peers);
            && id <= s.stop <= |slots|
            && CallsIn(slots, id, s.stop) == if s.run == Calls then |s.ids| else 0
    decreases |slots| - id
  {
    if id < |slots| && !Stops(slots, id, run, peers) {
      var run' := if slots[id].work.Depends? then run else KindOf(slots[id].work);
      ScanCountsCalls(slots, id + 1, run', peers);
      ScanIsSweep(slots, id + 1, run', peers);
    }
  }

  // ---------------------------------------------------------------- reads spread over time

  /** The same scan when slot `k` is looked at under `views[k]`: completions may land
      between two reads of one scan. */
  function ScanOverTime(slots: seq<Slot>, id: nat, run: Run, views: seq<Peers>): Sweep
    requires id <= |slots| && |views| == |slots| + 1
    decreases |slots| - id
  {
    if id == |slots| || slots[id].pending then
      Sweep(id, [], run)
    else if slots[id].done then
      ScanOverTime(slots, id + 1, run, views)
    else
      match slots[id].work
      case Depends(owner, target) =>
        if Met(views[id], owner, target) then ScanOverTime(slots, id + 1, run, views) else Sweep(id, [], run)
      case Call(_) =>
        if run == Writes then Sweep(id, [], run)
        else var rest := ScanOverTime(slots, id + 1, Calls, views); rest.(ids := [id] + rest.ids)
      case Write(_, _, _) =>
        if run == Calls then Sweep(id, [], run)
        else var rest := ScanOverTime(slots, id + 1, Writes, views); rest.(ids := [id] + rest.ids)
  }

  /** What such a scan means: the same as `IsSweep`, with every dependency judged when it is
      read. Nothing is assumed of how the views change. */
  ghost predicate IsSweepOverTime(slots: seq<Slot>, id: nat, run: Run, views: seq<Peers>, sweep: Sweep)
    requires id <= |slots| && |views| == |slots| + 1
  {
    && id <= sweep.stop <= |slots|
    && sweep.ids == Jobs(slots, id, sweep.stop)
    && (run != Neither ==> sweep.run == run)
    && (sweep.run == Neither <==> run == Neither && sweep.ids == [])
    && (forall i :: id <= i < sweep.stop && !slots[i].work.Depends? ==> KindOf(slots[i].work) == sweep.run)
    && (forall i :: id <= i < sweep.stop && slots[i].work.Depends? ==>
          Met(views[i], slots[i].work.owner, slots[i].work.id))
    && (sweep.stop < |slots| ==> Stops(slots, sweep.stop, sweep.run, views[sweep.stop]))
  }

  lemma {:induction false} ScanOverTimeIsSweep(slots: seq<Slot>, id: nat, run: Run, views: seq<Peers>)
    requires id <= |slots| && |views| == |slots| + 1
    requires forall i :: id <= i < |slots| ==> !slots[i].pending && !slots[i].done
    ensures IsSweepOverTime(slots, id, run, views, ScanOverTime(slots, id, run, views))
    decreases |slots| - id
  {
    if id < |slots| && !Stops(slots, id, run, views[id]) {
      var run' := if slots[id].work.Depends? then run else KindOf(slots[id].work);
      ScanOverTimeIsSweep(slots, id + 1, run', views);
    }
  }

  /** Every dependency in `[id, stop)` is met in `peers`. */
  ghost predicate MetUpTo(slots: seq<Slot>, id: nat, stop: nat, peers: Peers)
    requires stop <= |slots|
  {
    forall i :: id <= i < stop && slots[i].work.Depends? ==> Met(peers, slots[i].work.owner, slots[i].work.id)
  }

  /** A scan whose reads are spread over time is the atomic scan at its last read if and
      only if every dependency it passed is still met then: flags are never cleared, so it
      can only fail for a target that was pushed, or became known, after it was looked for. */
  lemma ScanLinearisesExactly(log: Log, views: seq<Peers>)
    requires Untouched(log) && |views| == |log.slots| + 1
    ensures var s := ScanOverTime(log.slots, log.first, Neither, views);
            && log.first <= s.stop <= |log.slots|
            && (s == Scan(log, views[s.stop]) <==> MetUpTo(log.slots, log.first, s.stop, views[s.stop]))
  {
    var s := ScanOverTime(log.slots, log.first, Neither, views);
    ScanOverTimeIsSweep(log.slots, log.first, Neither, views);
    ScanMeaning(log, views[s.stop], s);
  }

  /** Whatever was met before is met after. */
  ghost predicate Later(before: Peers, after: Peers) {
    forall owner, id :: Met(before, owner, id) ==> Met(after, owner, id)
  }

  /** So it is the atomic scan at its last read whenever only flags were set in between. */
  lemma ScanLinearises(log: Log, views: seq<Peers>)
    requires Untouched(log) && |views| == |log.slots| + 1
    requires forall i, j :: 0 <= i <= j < |views| ==> Later(views[i], views[j])
    ensures var s := ScanOverTime(log.slots, log.first, Neither, views);
            log.first <= s.stop <= |log.slots| && s == Scan(log, views[s.stop])
  {
    ScanLinearisesExactly(log, views);
    ScanOverTimeIsSweep(log.slots, log.first, Neither, views);
  }

  /** Otherwise it may be no atomic scan at all: of two dependencies on one target, which is
      pushed between the two reads, the first is passed and the second is not. */
  lemma ScanOfNoMoment() returns (log: Log, views: seq<Peers>)
    ensures Untouched(log) && |views| == |log.slots| + 1
    ensures forall peers: Peers :: Scan(log, peers) != ScanOverTime(log.slots, log.first, Neither, views)
  {
    var unseen: Peers, pushed: Peers := map[], map[1 := [false]];
    log := Log(0, [Fresh(Depends(1, 0)), Fresh(Depends(1, 0))]);
    views := [unseen, pushed, pushed];
    assert ScanOverTime(log.slots, 1, Neither, views) == Sweep(1, [], Neither);
    assert ScanOverTime(log.slots, 0, Neither, views) == Sweep(1, [], Neither);
    forall peers: Peers
      ensures Scan(log, peers) != Sweep(1, [], Neither)
    {
      assert ScanFrom(log.slots, 2, Neither, peers).stop == 2;
      assert Met(peers, 1, 0) ==> ScanFrom(log.slots, 1, Neither, peers).stop == 2;
    }
  }

  // ---------------------------------------------------------------- draining

  /** Every dependency from the cursor on is met. */
  ghost predicate AllMet(log: Log, peers: Peers) {
    forall i :: log.first <= i < |log.slots| && log.slots[i].work.Depends? ==>
      Met(peers, log.slots[i].work.owner, log.slots[i].work.id)
  }

  /** How many scans it takes to move the cursor to the end of the log. */
  ghost function DrainCalls(log: Log, peers: Peers): nat
    requires Untouched(log) && AllMet(log, peers)
    decreases |log.slots| - log.first
  {
    if log.first == |log.slots| then 0
    else
      AdvanceStaysUntouched(log, peers);
      ScanIsSweep(log.slots, log.first, Neither, peers);
      1 + DrainCalls(Advance(log, Scan(log, peers)), peers)
  }

  predicate AreJobs(slots: seq<Slot>, ids: seq<nat>) {
    forall k :: 0 <= k < |ids| ==> ids[k] < |slots| && !slots[ids[k]].work.Depends?
  }

  function KindsOf(slots: seq<Slot>, ids: seq<nat>): (kinds: seq<Run>)
    requires AreJobs(slots, ids)
    ensures |kinds| == |ids|
    ensures forall k :: 0 <= k < |ids| ==> kinds[k] == KindOf(slots[ids[k]].work)
  {
    seq(|ids|, k requires 0 <= k < |ids| => KindOf(slots[ids[k]].work))
  }

  /** The number of maximal blocks of equal neighbours. */
  function Runs(kinds: seq<Run>): nat {
    if kinds == [] then 0
    else (if |kinds| > 1 && kinds[0] == kinds[1] then 0 else 1) + Runs(kinds[1..])
  }

  lemma {:induction false} RunsOfBlock(block: seq<Run>, rest: seq<Run>)
    requires block != []
    requires forall k :: 0 <= k < |block| ==> block[k] == block[0]
    requires rest != [] ==> rest[0] != block[0]
    ensures Runs(block + rest) == 1 + Runs(rest)
  {
    var all := block + rest;
    if |block| == 1 {
      assert all[1..] == rest;
    } else {
      assert all[1..] == block[1..] + rest;
      RunsOfBlock(block[1..], rest);
    }
  }

  /** With every dependency met, a log that still holds a job drains in exactly as many
      scans as its remaining jobs have maximal same-kind runs. A log holding only
      dependencies takes one scan. */
  lemma {:induction false} DrainLength(log: Log, peers: Peers)
    requires Untouched(log) && AllMet(log, peers) && log.first < |log.slots|
    ensures DrainCalls(log, peers) == if JobKinds(log) == [] then 1 else Runs(JobKinds(log))
    decreases |log.slots| - log.first
  {
    var n := |log.slots|;
    var s := Scan(log, peers);
    var next := Advance(log, s);
    JobsAre(log.slots, log.first, n);
    AdvanceStaysUntouched(log, peers);
    ScanIsSweep(log.slots, log.first, Neither, peers);
    DrainSplit(log, peers);
    if s.stop < n {
      DrainLength(next, peers);
    }
  }

  /** One scan takes off the first maximal run of the remaining jobs. */
  lemma DrainSplit(log: Log, peers: Peers)
    requires Untouched(log) && AllMet(log, peers) && log.first < |log.slots|
    ensures var s := Scan(log, peers); var next := Advance(log, s);
            && log.first < s.stop <= |log.slots|
            && Untouched(next)
            && (JobKinds(log) == [] ==> s.stop == |log.slots|)
            && (JobKinds(next) == [] ==> s.stop == |log.slots|)
            && (JobKinds(log) != [] ==> Runs(JobKinds(log)) == 1 + Runs(JobKinds(next)))
  {
    var s := Scan(log, peers);
    var next := Advance(log, s);
    ScanIsSweep(log.slots, log.first, Neither, peers);
    AdvanceStaysUntouched(log, peers);
    KindsSplit(log, peers);
    var block := KindsOf(log.slots, s.ids);
    if s.stop < |log.slots| {
      var kind := KindOf(log.slots[s.stop].work);
      assert JobKinds(next)[0] == kind;
      assert block != [];
    }
    if block != [] {
      RunsOfBlock(block, JobKinds(next));
    } else {
      assert block + JobKinds(next) == JobKinds(next);
    }
  }

  lemma KindsSplit(log: Log, peers: Peers)
    requires Untouched(log)
    ensures var s := Scan(log, peers); var next := Advance(log, s);
            && Untouched(next)
            && AreJobs(log.slots, s.ids)
            && (forall k :: 0 <= k < |s.ids| ==> KindOf(log.slots[s.ids[k]].work) == s.run)
            && JobKinds(log) == KindsOf(log.slots, s.ids) + JobKinds(next)
  {
    var n := |log.slots|;
    var s := Scan(log, peers);
    var next := Advance(log, s);
    ScanIsSweep(log.slots, log.first, Neither, peers);
    AdvanceStaysUntouched(log, peers);
    JobsAre(log.slots, log.first, s.stop);
    JobsAre(next.slots, s.stop, n);
    JobsSplit(log.slots, log.first, s.stop, n);
    JobsAgree(log.slots, next.slots, s.stop, n);
    KindsConcat(log.slots, next.slots, s.ids, Jobs(next.slots, s.stop, n));
  }

  lemma KindsConcat(slots: seq<Slot>, other: seq<Slot>, a: seq<nat>, b: seq<nat>)
    requires |slots| == |other| && forall i :: 0 <= i < |slots| ==> slots[i].work == other[i].work
    requires AreJobs(slots, a) && AreJobs(other, b)
    ensures AreJobs(slots, a + b)
    ensures KindsOf(slots, a + b) == KindsOf(slots, a) + KindsOf(other, b)
  {
  }

  /** The kinds of the jobs from the cursor on. */
  ghost function JobKinds(log: Log): (kinds: seq<Run>)
    requires log.first <= |log.slots|
    ensures |kinds| == |Jobs(log.slots, log.first, |log.slots|)|
  {
    var ids := Jobs(log.slots, log.first, |log.slots|);
    JobsAre(log.slots, log.first, |log.slots|);
    KindsOf(log.slots, ids)
  }
}
