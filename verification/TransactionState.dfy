/** The whole state of one transaction object as a value, and what `update` does to it.
    Class `Transaction.Transaction` is proved against these functions. */
module TransactionState {
  import opened TransactionLog

  const U8: nat := 0x100
  const U64: nat := 0x1_0000_0000_0000_0000

  function Wrap8(n: int): nat {
    n % U8
  }

  /** `order` is the order in which iteration visits the collections. */
  datatype Tx = Tx(
    logs: map<nat, Log>,
    order: seq<nat>,
    every: nat,
    since: nat,
    callables: nat,
    flagged: bool,
    scheduled: bool)

  /** A batch handed to the asynchronous pool. */
  datatype Dispatch = Dispatch(collection: nat, ids: seq<nat>, run: Run)

  datatype Outcome = Outcome(tx: Tx, keep: bool, dispatches: seq<Dispatch>)

  function Init(order: seq<nat>, every: nat): Tx {
    Tx(map c | c in order :: Log(0, []), order, every, 0, 0, false, false)
  }

  function PushTo(tx: Tx, c: nat, work: Work): Tx
    requires c in tx.logs
  {
    tx.(logs := tx.logs[c := Push(tx.logs[c], work)],
        callables := if work.Call? then Wrap8(tx.callables + 1) else tx.callables)
  }

  /** Cutting one batch from collection `c`. */
  function Take(tx: Tx, c: nat, peers: Peers): Tx
    requires c in tx.logs && tx.logs[c].first <= |tx.logs[c].slots|
  {
    HandOut(tx, c, Scan(tx.logs[c], peers))
  }

  function HandOut(tx: Tx, c: nat, sweep: Sweep): Tx
    requires c in tx.logs
  {
    tx.(logs := tx.logs[c := Advance(tx.logs[c], sweep)],
        callables := Wrap8(tx.callables - CallsOf(sweep)))
  }

  /** Every slot of a batch of callables has lowered the counter by one. */
  function CallsOf(sweep: Sweep): nat {
    if sweep.run == Calls then |sweep.ids| else 0
  }

  /** The pool has executed slot `id`. */
  function Complete(tx: Tx, c: nat, id: nat): Tx
    requires c in tx.logs && id < |tx.logs[c].slots|
  {
    var log := tx.logs[c];
    tx.(logs := tx.logs[c := log.(slots := log.slots[id := log.slots[id].(pending := false, done := true)])])
  }

  /** The object may go: every log is passed and its last slot, if any, is done. */
  predicate CanDelete(tx: Tx) {
    forall c :: c in tx.logs ==> Settled(tx.logs[c])
  }

  predicate Settled(log: Log) {
    log.first == |log.slots| && (log.slots != [] ==> log.slots[|log.slots| - 1].done)
  }

  /** The pass over the collections from position `k` of the order: collections with
      nothing to pass are skipped, and an empty batch ends the whole pass. */
  function PassFrom(tx: Tx, k: nat, env: map<nat, Peers>): (r: (Tx, seq<Dispatch>))
    requires WellFormed(tx) && k <= |tx.order| && tx.logs.Keys <= env.Keys
    ensures WellFormed(r.0) && r.0.order == tx.order
    decreases |tx.order| - k
  {
    if k == |tx.order| then (tx, [])
    else
      var c := tx.order[k];
      if tx.logs[c].first == |tx.logs[c].slots| then PassFrom(tx, k + 1, env)
      else
        var sweep := Scan(tx.logs[c], env[c]);
        TakeKeeps(tx, c, env[c]);
        var next := Take(tx, c, env[c]);
        if sweep.ids == [] then (next, [])
        else
          var (last, rest) := PassFrom(next, k + 1, env);
          (last, [Dispatch(c, sweep.ids, sweep.run)] + rest)
  }

  datatype Verdict = Gone | Closed | Open

  /** The deletion check and the gate, which come before any pass. */
  function Gate(tx: Tx, diff: nat): (Tx, Verdict) {
    if tx.flagged && tx.scheduled then (tx, Gone)
    else if tx.flagged && CanDelete(tx) then (tx.(scheduled := true), Gone)
    else
      var since := (tx.since + diff) % U64;
      if tx.callables == 0 && since < tx.every then (tx.(since := since), Closed)
      else (tx.(since := 0), Open)
  }

  function Update(tx: Tx, diff: nat, env: map<nat, Peers>): Outcome
    requires WellFormed(tx) && tx.logs.Keys <= env.Keys
  {
    var (next, verdict) := Gate(tx, diff);
    if verdict != Open then Outcome(next, verdict == Closed, [])
    else
      var (last, dispatches) := PassFrom(next, 0, env);
      Outcome(last, true, dispatches)
  }

  /** The number of callables not yet taken, over the collections `order[k..]`. */
  function Queued(logs: map<nat, Log>, order: seq<nat>, k: nat): nat
    requires k <= |order|
    requires forall i :: 0 <= i < |order| ==> order[i] in logs && logs[order[i]].first <= |logs[order[i]].slots|
    decreases |order| - k
  {
    if k == |order| then 0
    else
      var log := logs[order[k]];
      CallsIn(log.slots, log.first, |log.slots|) + Queued(logs, order, k + 1)
  }

  predicate Distinct(order: seq<nat>) {
    forall i, j :: 0 <= i < j < |order| ==> order[i] != order[j]
  }

  ghost predicate WellFormed(tx: Tx) {
    && Distinct(tx.order)
    && (forall c :: c in tx.logs <==> c in tx.order)
    && (forall c :: c in tx.logs ==> Untouched(tx.logs[c]))
  }

  /** The 8-bit counter is the number of callables not yet taken, modulo 256. */
  ghost predicate Accounted(tx: Tx)
    requires WellFormed(tx)
  {
    tx.callables == Wrap8(Queued(tx.logs, tx.order, 0))
  }

  /** What every operation keeps: in particular the counter follows the queue, and dependency
      slots are never handed out or done. */
  ghost predicate Valid(tx: Tx) {
    && WellFormed(tx)
    && Accounted(tx)
    && (forall c, i :: c in tx.logs && 0 <= i < |tx.logs[c].slots| && tx.logs[c].slots[i].work.Depends? ==>
          !tx.logs[c].slots[i].done && !tx.logs[c].slots[i].pending)
  }

  lemma ValidIsWellFormed(tx: Tx)
    requires Valid(tx)
    ensures WellFormed(tx)
  {
  }

  lemma ValidLog(tx: Tx, c: nat)
    requires Valid(tx) && c in tx.logs
    ensures WellFormed(tx) && Untouched(tx.logs[c])
  {
  }

  lemma TakeKeeps(tx: Tx, c: nat, peers: Peers)
    requires WellFormed(tx) && c in tx.logs
    ensures WellFormed(Take(tx, c, peers))
  {
    AdvanceStaysUntouched(tx.logs[c], peers);
  }

  /** One turn of the pass. */
  lemma PassTurn(tx: Tx, k: nat, env: map<nat, Peers>)
    requires WellFormed(tx) && k <= |tx.order| && tx.logs.Keys <= env.Keys
    ensures k == |tx.order| ==> PassFrom(tx, k, env) == (tx, [])
    ensures k < |tx.order| ==>
              var c := tx.order[k]; var log := tx.logs[c]; var sweep := Scan(log, env[c]);
                  var next := Take(tx, c, env[c]);
              && WellFormed(next) && next.order == tx.order && next.logs.Keys <= env.Keys
              && (log.first == |log.slots| ==> PassFrom(tx, k, env) == PassFrom(tx, k + 1, env))
              && (log.first != |log.slots| && sweep.ids == [] ==> PassFrom(tx, k, env) == (next, []))
              && (log.first != |log.slots| && sweep.ids != [] ==>
                   var rest := PassFrom(next, k + 1, env);
                   PassFrom(tx, k, env) == (rest.0, [Dispatch(c, sweep.ids, sweep.run)] + rest.1))
  {
    hide Scan;
    if k < |tx.order| {
      TakeKeeps(tx, tx.order[k], env[tx.order[k]]);
    }
  }

  // ---------------------------------------------------------------- callable accounting

  /** Replacing the log of `c` changes the number of queued callables by the change in `c`. */
  lemma {:induction false} QueuedUpdate(logs: map<nat, Log>, order: seq<nat>, k: nat, c: nat, log: Log)
    requires k <= |order| && Distinct(order)
    requires forall i :: 0 <= i < |order| ==> order[i] in logs && logs[order[i]].first <= |logs[order[i]].slots|
    requires log.first <= |log.slots| && c in logs && logs[c].first <= |logs[c].slots|
    ensures Queued(logs[c := log], order, k) ==
            Queued(logs, order, k) + if c in order[k..] then
              CallsIn(log.slots, log.first, |log.slots|) - CallsIn(logs[c].slots, logs[c].first, |logs[c].slots|)
            else 0
    decreases |order| - k
  {
    if k < |order| {
      QueuedUpdate(logs, order, k + 1, c, log);
      assert order[k..] == [order[k]] + order[k + 1..];
    }
  }

  lemma QueuedReplaced(tx: Tx, c: nat, log: Log)
    requires WellFormed(tx) && c in tx.logs && log.first <= |log.slots|
    ensures forall i :: 0 <= i < |tx.order| ==> tx.order[i] in tx.logs
    ensures Queued(tx.logs[c := log], tx.order, 0) ==
            Queued(tx.logs, tx.order, 0) + CallsIn(log.slots, log.first, |log.slots|)
              - CallsIn(tx.logs[c].slots, tx.logs[c].first, |tx.logs[c].slots|)
  {
    QueuedUpdate(tx.logs, tx.order, 0, c, log);
    assert tx.order[0..] == tx.order;
  }

  /** Modulo 256 the counter may follow the change `delta` in the log of `c` alone. */
  lemma Recount(tx: Tx, c: nat, log: Log, delta: int)
    requires WellFormed(tx) && c in tx.logs && Untouched(log)
    requires Accounted(tx)
    requires CallsIn(log.slots, log.first, |log.slots|) ==
             CallsIn(tx.logs[c].slots, tx.logs[c].first, |tx.logs[c].slots|) + delta
    ensures var next := tx.(logs := tx.logs[c := log], callables := Wrap8(tx.callables + delta));
            WellFormed(next) && Accounted(next)
  {
    QueuedReplaced(tx, c, log);
    ModAdd(Queued(tx.logs, tx.order, 0), delta);
  }

  lemma ModAdd(queued: nat, delta: int)
    ensures Wrap8(Wrap8(queued) + delta) == Wrap8(queued + delta)
  {
  }

  lemma InitIsValid(order: seq<nat>, every: nat)
    requires Distinct(order)
    ensures Valid(Init(order, every))
  {
    NothingQueued(Init(order, every).logs, order, 0);
  }

  lemma {:induction false} NothingQueued(logs: map<nat, Log>, order: seq<nat>, k: nat)
    requires k <= |order|
    requires forall i :: 0 <= i < |order| ==> order[i] in logs && logs[order[i]].first == |logs[order[i]].slots|
    ensures Queued(logs, order, k) == 0
    decreases |order| - k
  {
    if k < |order| {
      NothingQueued(logs, order, k + 1);
    }
  }

  lemma PushIsValid(tx: Tx, c: nat, work: Work)
    requires Valid(tx) && c in tx.logs
    ensures Valid(PushTo(tx, c, work))
  {
    var log := tx.logs[c];
    PushCounts(log, work);
    Recount(tx, c, Push(log, work), if work.Call? then 1 else 0);
  }

  lemma PushCounts(log: Log, work: Work)
    requires Untouched(log)
    ensures Untouched(Push(log, work))
    ensures var next := Push(log, work);
            CallsIn(next.slots, next.first, |next.slots|) ==
            CallsIn(log.slots, log.first, |log.slots|) + if work.Call? then 1 else 0
  {
    var next := Push(log, work);
    CallsSplit(next.slots, log.first, |log.slots|, |next.slots|);
    JobsAgree(log.slots, next.slots, log.first, |log.slots|);
    assert CallsIn(next.slots, |next.slots|, |next.slots|) == 0;
  }

  lemma TakeIsValid(tx: Tx, c: nat, peers: Peers)
    requires Valid(tx) && c in tx.logs
    ensures Valid(Take(tx, c, peers))
  {
    TakeKeeps(tx, c, peers);
    TakeCounts(tx, c, peers);
    TakeSparesDependencies(tx, c, peers);
  }

  /** The counter goes down by exactly the callables that leave the queue. */
  lemma TakeCounts(tx: Tx, c: nat, peers: Peers)
    requires WellFormed(tx) && c in tx.logs && Accounted(tx)
    ensures WellFormed(Take(tx, c, peers)) && Accounted(Take(tx, c, peers))
  {
    AdvanceStaysUntouched(tx.logs[c], peers);
    ScanLeavesCalls(tx.logs[c], peers);
    HandOutCounts(tx, c, Scan(tx.logs[c], peers));
  }

  lemma HandOutCounts(tx: Tx, c: nat, sweep: Sweep)
    requires WellFormed(tx) && c in tx.logs && Accounted(tx)
    requires Untouched(Advance(tx.logs[c], sweep))
    requires var log := tx.logs[c]; var next := Advance(log, sweep);
             CallsIn(log.slots, log.first, |log.slots|) ==
             CallsIn(next.slots, next.first, |next.slots|) + CallsOf(sweep)
    ensures WellFormed(HandOut(tx, c, sweep)) && Accounted(HandOut(tx, c, sweep))
  {
    hide Accounted;
    hide WellFormed;
    hide Advance;
    hide CallsIn;
    hide Wrap8;
    Recount(tx, c, Advance(tx.logs[c], sweep), 0 - CallsOf(sweep));
  }

  lemma ScanLeavesCalls(log: Log, peers: Peers)
    requires Untouched(log)
    ensures var sweep := Scan(log, peers); var next := Advance(log, sweep);
            && next.first <= |next.slots|
            && CallsIn(log.slots, log.first, |log.slots|) ==
               CallsIn(next.slots, next.first, |next.slots|) + CallsOf(sweep)
  {
    var sweep := Scan(log, peers);
    var next := Advance(log, sweep);
    ScanCountsCalls(log.slots, log.first, Neither, peers);
    CallsSplit(log.slots, log.first, sweep.stop, |log.slots|);
    JobsAgree(log.slots, next.slots, sweep.stop, |log.slots|);
  }

  lemma TakeSparesDependencies(tx: Tx, c: nat, peers: Peers)
    requires Valid(tx) && c in tx.logs
    ensures forall i :: 0 <= i < |tx.logs[c].slots| && tx.logs[c].slots[i].work.Depends? ==>
              Take(tx, c, peers).logs[c].slots[i] == tx.logs[c].slots[i]
  {
    var log := tx.logs[c];
    var sweep := Scan(log, peers);
    ScanIsSweep(log.slots, log.first, Neither, peers);
    JobsAre(log.slots, log.first, sweep.stop);
  }

  lemma CompleteIsValid(tx: Tx, c: nat, id: nat)
    requires Valid(tx) && c in tx.logs && id < tx.logs[c].first
    requires !tx.logs[c].slots[id].work.Depends?
    ensures Valid(Complete(tx, c, id))
  {
    var log := tx.logs[c];
    var next := Complete(tx, c, id).logs[c];
    JobsAgree(log.slots, next.slots, log.first, |log.slots|);
    Recount(tx, c, next, 0);
  }

  lemma {:induction false} PassIsValid(tx: Tx, k: nat, env: map<nat, Peers>)
    requires Valid(tx) && k <= |tx.order| && tx.logs.Keys <= env.Keys
    ensures Valid(PassFrom(tx, k, env).0)
    decreases |tx.order| - k
  {
    if k < |tx.order| {
      var c := tx.order[k];
      if tx.logs[c].first == |tx.logs[c].slots| {
        PassIsValid(tx, k + 1, env);
      } else {
        TakeIsValid(tx, c, env[c]);
        if Scan(tx.logs[c], env[c]).ids != [] {
          PassIsValid(Take(tx, c, env[c]), k + 1, env);
        }
      }
    }
  }

  lemma UpdateIsValid(tx: Tx, diff: nat, env: map<nat, Peers>)
    requires Valid(tx) && tx.logs.Keys <= env.Keys
    ensures Valid(Update(tx, diff, env).tx)
  {
    PassIsValid(tx.(since := 0), 0, env);
  }

  // ---------------------------------------------------------------- the gate

  /** The object is flagged, and its next update says that it can go. */
  predicate ToldToGo(tx: Tx) {
    tx.flagged && (tx.scheduled || CanDelete(tx))
  }

  /** This update starts a pass: it is not a deletion, and the gate is open. */
  predicate StartsPass(tx: Tx, diff: nat) {
    !ToldToGo(tx) && (tx.callables != 0 || (tx.since + diff) % U64 >= tx.every)
  }

  /** While callables are queued, some log is not passed. */
  lemma {:induction false} QueuedIsUnsettled(logs: map<nat, Log>, order: seq<nat>, k: nat)
    requires forall i :: 0 <= i < |order| ==> order[i] in logs && logs[order[i]].first <= |logs[order[i]].slots|
    requires k <= |order| && Queued(logs, order, k) > 0
    ensures exists i :: k <= i < |order| && !Settled(logs[order[i]])
    decreases |order| - k
  {
    var log := logs[order[k]];
    if log.first == |log.slots| {
      QueuedIsUnsettled(logs, order, k + 1);
    } else {
      assert !Settled(logs[order[k]]);
    }
  }

  lemma QueuedIsKept(tx: Tx)
    requires WellFormed(tx) && Queued(tx.logs, tx.order, 0) > 0
    ensures !CanDelete(tx)
  {
    QueuedIsUnsettled(tx.logs, tx.order, 0);
  }

  /** The gate in terms of what is queued, for an object that is not told to go: it is the
      number of queued callables modulo 256 that decides, so exactly 256 do not open it. With
      1 to 255 queued it opens without waiting, unless the object was told to go before. */
  lemma GateMeaning(tx: Tx, diff: nat)
    requires Valid(tx) && tx.since + diff < U64
    ensures StartsPass(tx, diff) <==>
            !ToldToGo(tx) && (Queued(tx.logs, tx.order, 0) % U8 != 0 || tx.since + diff >= tx.every)
    ensures 0 < Queued(tx.logs, tx.order, 0) < U8 && !(tx.flagged && tx.scheduled) ==> StartsPass(tx, diff)
  {
    if Queued(tx.logs, tx.order, 0) > 0 {
      QueuedIsKept(tx);
    }
    hide CanDelete;
  }

  /** An update that starts no pass leaves every log and every slot as it was. */
  lemma ClosedGateTakesNothing(tx: Tx, diff: nat, env: map<nat, Peers>)
    requires WellFormed(tx) && tx.logs.Keys <= env.Keys && !StartsPass(tx, diff)
    ensures Update(tx, diff, env).tx.logs == tx.logs && Update(tx, diff, env).dispatches == []
  {
    hide PassFrom;
    hide CanDelete;
  }

  lemma {:induction false} AllCalls(slots: seq<Slot>, lo: nat)
    requires lo <= |slots| && forall i :: 0 <= i < |slots| ==> slots[i].work.Call?
    ensures CallsIn(slots, lo, |slots|) == |slots| - lo
    decreases |slots| - lo
  {
    if lo < |slots| {
      AllCalls(slots, lo + 1);
    }
  }

  /** `n` callables pushed to `c`, one after another. */
  function PushCalls(tx: Tx, c: nat, n: nat): (after: Tx)
    requires c in tx.logs
    ensures c in after.logs
  {
    if n == 0 then tx else PushTo(PushCalls(tx, c, n - 1), c, Call(n - 1))
  }

  lemma {:induction false} PushCallsCounts(c: nat, every: nat, n: nat)
    ensures var tx := PushCalls(Init([c], every), c, n);
            && Valid(tx) && tx == Init([c], every).(logs := tx.logs, callables := tx.callables)
            && tx.logs.Keys == {c} && tx.logs[c].first == 0 && |tx.logs[c].slots| == n
            && forall i :: 0 <= i < n ==> tx.logs[c].slots[i].work.Call?
  {
    if n == 0 {
      InitIsValid([c], every);
    } else {
      hide Valid;
      PushCallsCounts(c, every, n - 1);
      PushIsValid(PushCalls(Init([c], every), c, n - 1), c, Call(n - 1));
    }
  }

  lemma PushCallsQueued(c: nat, every: nat, n: nat)
    ensures var tx := PushCalls(Init([c], every), c, n);
            Valid(tx) && Queued(tx.logs, tx.order, 0) == n
  {
    var tx := PushCalls(Init([c], every), c, n);
    PushCallsCounts(c, every, n);
    AllCalls(tx.logs[c].slots, 0);
    assert Queued(tx.logs, tx.order, 1) == 0;
  }

  /** "A queued callable opens the gate" is false of the 8-bit counter: after 256 pushes of
      callables to a new object, no update takes any of them, or touches any log, until the
      elapsed time reaches the interval. One callable more and the gate is open. */
  lemma GateClosedBy256Callables(c: nat, every: nat, diff: nat, env: map<nat, Peers>)
    requires diff < every <= U64 && c in env
    ensures var tx := PushCalls(Init([c], every), c, 256);
            && WellFormed(tx) && tx.logs.Keys <= env.Keys && Queued(tx.logs, tx.order, 0) == 256
            && Update(tx, diff, env).dispatches == [] && Update(tx, diff, env).tx.logs == tx.logs
    ensures StartsPass(PushCalls(Init([c], every), c, 257), diff)
  {
    var tx, more := PushCalls(Init([c], every), c, 256), PushCalls(Init([c], every), c, 257);
    hide PushCalls;
    PushCallsCounts(c, every, 256);
    PushCallsQueued(c, every, 256);
    PushCallsCounts(c, every, 257);
    PushCallsQueued(c, every, 257);
    hide CanDelete;
    hide Queued;
    GateMeaning(tx, diff);
    GateMeaning(more, diff);
    ClosedGateTakesNothing(tx, diff, env);
  }

  // ---------------------------------------------------------------- the answer of an update

  /** The two objects differ in logs and counters at most. */
  predicate SameRest(a: Tx, b: Tx) {
    a.order == b.order && a.every == b.every && a.since == b.since && a.flagged == b.flagged &&
        a.scheduled == b.scheduled
  }

  lemma OrderInLogs(tx: Tx)
    requires WellFormed(tx)
    ensures forall j :: 0 <= j < |tx.order| ==> tx.order[j] in tx.logs
    ensures forall c :: c in tx.logs ==> tx.logs[c].first <= |tx.logs[c].slots|
  {
  }

  lemma TakeMoves(tx: Tx, c: nat, peers: Peers)
    requires WellFormed(tx) && c in tx.logs
    ensures var after := Take(tx, c, peers);
            && SameRest(after, tx) && after.logs.Keys == tx.logs.Keys
            && (forall d :: d in tx.logs ==> after.logs[d].first >= tx.logs[d].first)
            && after.logs[c].first == Scan(tx.logs[c], peers).stop
  {
    AdvanceStaysUntouched(tx.logs[c], peers);
    hide Scan;
  }

  /** A pass never moves a cursor back and leaves flags and times alone. */
  lemma {:induction false} PassOnlyForward(tx: Tx, k: nat, env: map<nat, Peers>)
    requires WellFormed(tx) && k <= |tx.order| && tx.logs.Keys <= env.Keys
    ensures var after := PassFrom(tx, k, env).0;
            && SameRest(after, tx) && after.logs.Keys == tx.logs.Keys
            && forall c :: c in tx.logs ==> after.logs[c].first >= tx.logs[c].first
    decreases |tx.order| - k
  {
    hide PassFrom;
    hide WellFormed;
    hide Scan;
    hide Take;
    OrderInLogs(tx);
    PassTurn(tx, k, env);
    if k < |tx.order| {
      var d := tx.order[k];
      if tx.logs[d].first == |tx.logs[d].slots| {
        PassOnlyForward(tx, k + 1, env);
      } else {
        TakeMoves(tx, d, env[d]);
        if Scan(tx.logs[d], env[d]).ids != [] {
          PassOnlyForward(Take(tx, d, env[d]), k + 1, env);
        }
      }
    }
  }

  lemma SinceIsFree(tx: Tx)
    requires WellFormed(tx)
    ensures WellFormed(tx.(since := 0))
  {
  }

  /** What the caller of `update` is told, and what an answer changes. The object goes exactly
      if it is flagged and either was told to go before, or every log is passed and the last
      slot of each, if any, is done. Then nothing is dispatched and the object only remembers
      that it was told; otherwise its flags stay, and its 64-bit clock restarts or goes on. */
  lemma UpdateAnswer(tx: Tx, diff: nat, env: map<nat, Peers>)
    requires WellFormed(tx) && tx.logs.Keys <= env.Keys
    ensures var outcome := Update(tx, diff, env);
            && (!outcome.keep <==>
                tx.flagged && (tx.scheduled || forall c :: c in tx.logs ==>
                  && tx.logs[c].first == |tx.logs[c].slots|
                  && (|tx.logs[c].slots| > 0 ==> tx.logs[c].slots[|tx.logs[c].slots| - 1].done)))
            && (!outcome.keep ==> outcome == Outcome(tx.(scheduled := true), false, []))
            && (outcome.keep ==>
                 var clock := (tx.since + diff) % 18446744073709551616;
                 && outcome.tx.flagged == tx.flagged && outcome.tx.scheduled == tx.scheduled
                 && outcome.tx.since == if tx.callables == 0 && clock < tx.every then clock else 0)
            && outcome.tx.order == tx.order && outcome.tx.every == tx.every
  {
    hide PassFrom;
    SinceIsFree(tx);
    PassOnlyForward(tx.(since := 0), 0, env);
    hide WellFormed;
    assert CanDelete(tx) <==> forall c :: c in tx.logs ==> Settled(tx.logs[c]);
  }

  lemma KeepsUnlessTold(tx: Tx, diff: nat, env: map<nat, Peers>)
    requires WellFormed(tx) && tx.logs.Keys <= env.Keys
    ensures Update(tx, diff, env).keep <==> !ToldToGo(tx)
  {
    hide PassFrom;
    hide CanDelete;
  }
}
