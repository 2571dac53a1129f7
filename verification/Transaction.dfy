/** The transaction object as the program keeps it: slot maps, cursors, an 8-bit counter
    and two flags, all updated in place. Every method is proved against the functions of
    `TransactionLog` and `TransactionState`. */
module Transaction {
  import opened Wrappers
  import opened TransactionLog
  import opened TransactionState

  datatype CollectionInfo = CollectionInfo(firstId: nat, currentId: nat, transactions: map<nat, Slot>) {
    /** The keys of the slot map are exactly the ids handed out so far. */
    ghost predicate Dense() {
      forall id: nat :: id in transactions <==> id < currentId
    }

    ghost function Slots(): (slots: seq<Slot>)
      requires Dense()
      ensures |slots| == currentId
      ensures forall id :: 0 <= id < currentId ==> slots[id] == transactions[id]
    {
      seq(currentId, id requires 0 <= id < currentId => transactions[id])
    }

    /** The record after slot `id` has been handed out. */
    function Mark(id: nat): (marked: CollectionInfo)
      requires id in transactions
    {
      this.(transactions := transactions[id := transactions[id].(pending := true)])
    }

    ghost function Contents(): Log
      requires Dense()
    {
      Log(firstId, Slots())
    }
  }

  ghost predicate AllDense(collections: map<nat, CollectionInfo>) {
    forall c :: c in collections ==> collections[c].Dense()
  }

  ghost function LogsOf(collections: map<nat, CollectionInfo>): (logs: map<nat, Log>)
    requires AllDense(collections)
    ensures logs.Keys == collections.Keys
  {
    map c | c in collections :: collections[c].Contents()
  }

  lemma LogsUpdate(collections: map<nat, CollectionInfo>, c: nat, info: CollectionInfo)
    requires AllDense(collections) && info.Dense() && c in collections
    ensures AllDense(collections[c := info])
    ensures LogsOf(collections[c := info]) == LogsOf(collections)[c := info.Contents()]
  {
  }

  class Transaction {
    var collections: map<nat, CollectionInfo>
    var order: seq<nat>
    var executeEvery: nat
    var sinceLastExecution: nat
    var pendingCallables: nat
    var flagged: bool
    var scheduled: bool

    ghost predicate Dense()
      reads this
    {
      AllDense(collections)
    }

    ghost function View(): Tx
      reads this
      requires Dense()
    {
      Tx(LogsOf(collections), order, executeEvery, sinceLastExecution, pendingCallables, flagged, scheduled)
    }

    ghost predicate Valid()
      reads this
    {
      Dense() && TransactionState.Valid(View())
    }

    /** `keys` are the collections of the database in the order iteration visits them. */
    constructor (keys: seq<nat>, every: nat)
      requires Distinct(keys)
      ensures Valid() && View() == Init(keys, every)
    {
      collections := map c | c in keys :: CollectionInfo(0, 0, map[]);
      order := keys;
      executeEvery, sinceLastExecution, pendingCallables := every, 0, 0;
      flagged, scheduled := false, false;
      new;
      assert View().logs == Init(keys, every).logs;
      InitIsValid(keys, every);
    }

    method PushSlot(c: nat, work: Work) returns (slot: nat)
      requires Dense() && c in collections
      modifies this`collections
      ensures Dense() && slot == |old(View()).logs[c].slots|
      ensures View().logs == old(View()).logs[c := Push(old(View()).logs[c], work)]
    {
      var info := collections[c];
      slot := info.currentId;
      var next := info.(currentId := slot + 1, transactions := info.transactions[slot := Fresh(work)]);
      assert next.Contents() == Push(info.Contents(), work);
      LogsUpdate(collections, c, next);
      collections := collections[c := next];
    }

    method PushOperation(c: nat, op: OpType, first: Document, second: Document) returns (slot: nat)
      requires Valid() && c in collections
      modifies this
      ensures Valid() && slot == |old(View()).logs[c].slots|
      ensures View() == PushTo(old(View()), c, Write(op, first, second))
    {
      PushIsValid(View(), c, Write(op, first, second));
      slot := PushSlot(c, Write(op, first, second));
    }

    method PushCallable(c: nat, callable: nat) returns (slot: nat)
      requires Valid() && c in collections
      modifies this
      ensures Valid() && slot == |old(View()).logs[c].slots|
      ensures View() == PushTo(old(View()), c, Call(callable))
    {
      hide TransactionState.Valid;
      PushIsValid(View(), c, Call(callable));
      slot := PushSlot(c, Call(callable));
      pendingCallables := Wrap8(pendingCallables + 1);
    }

    method PushDependency(c: nat, owner: nat, id: nat)
      requires Valid() && c in collections
      modifies this
      ensures Valid() && View() == PushTo(old(View()), c, Depends(owner, id))
    {
      PushIsValid(View(), c, Depends(owner, id));
      var _ := PushSlot(c, Depends(owner, id));
    }

    method FlagDeletion()
      requires Valid()
      modifies this
      ensures Valid() && View() == old(View()).(flagged := true)
    {
      flagged := true;
    }

    method UnflagDeletion()
      requires Valid()
      modifies this
      ensures Valid() && View() == old(View()).(flagged := false, scheduled := false)
    {
      flagged := false;
      scheduled := false;
    }

    /** The pool's last act on a slot it has executed. */
    method CompleteSlot(c: nat, id: nat)
      requires Valid() && c in collections && id < collections[c].firstId
      requires id in collections[c].transactions && !collections[c].transactions[id].work.Depends?
      modifies this
      ensures Valid() && View() == Complete(old(View()), c, id)
    {
      CompleteIsValid(View(), c, id);
      hide TransactionState.Valid;
      var info := collections[c];
      var slot := info.transactions[id];
      var next := info.(transactions := info.transactions[id := slot.(done := true, pending := false)]);
      assert next.Contents() == Complete(View(), c, id).logs[c];
      LogsUpdate(collections, c, next);
      collections := collections[c := next];
    }

    function GetTransaction(c: nat, id: nat): (found: Option<Slot>)
      reads this`collections
      requires AllDense(collections)
      ensures found.Some? <==> c in LogsOf(collections) && id < |LogsOf(collections)[c].slots|
      ensures found.Some? ==> found.value == LogsOf(collections)[c].slots[id]
    {
      if c in collections && id in collections[c].transactions then Some(collections[c].transactions[id])
      else None
    }

    /** Cuts the next batch of collection `c`. What `env` records of any object's `done`
        flags stays true. */
    method GetPendingOperations(c: nat, registry: map<nat, Transaction>, ghost env: map<nat, Peers>)
      returns (ids: seq<nat>, hasNonCallable: bool)
      requires Valid() && c in collections && Known(registry) && Agrees(registry, env)
      modifies this`collections, this`pendingCallables
      ensures Valid() && Known(registry)
      ensures View() == Take(old(View()), c, old(PeersOf(registry, c)))
      ensures ids == Scan(old(View()).logs[c], old(PeersOf(registry, c))).ids
      ensures hasNonCallable <==> Scan(old(View()).logs[c], old(PeersOf(registry, c))).run == Writes
      ensures Agrees(registry, env)
    {
      hide Scan;
      hide Advance;
      hide Take;
      hide WellFormed;
      hide TransactionState.Valid;
      ghost var before := View();
      ghost var peers := PeersOf(registry, c);
      ValidLog(before, c);
      TakeIsValid(before, c, peers);
      TakeIs(before, c, peers);
      TakeKeepsFlags(before, c, peers);
      var info, called;
      info, ids, hasNonCallable, called := CollectBatch(c, collections[c], registry);
      StoreBatch(c, info, called, Advance(before.logs[c], Scan(before.logs[c], peers)), registry, env);
    }

    /** One update: the deletion check, the gate, and the pass over the collections. The
        batches go to the pool in the order of `dispatches`. */
    method Update(diff: nat, registry: map<nat, Transaction>) returns (keep: bool, dispatches: seq<Dispatch>)
      requires Valid() && Known(registry)
      modifies this
      ensures Valid() && Known(registry)
      ensures Outcome(View(), keep, dispatches) ==
              TransactionState.Update(old(View()), diff, old(EnvOf(registry, View().logs.Keys)))
      ensures !keep <==> old(flagged) && (old(scheduled) || forall c :: c in old(View()).logs ==>
                && old(View()).logs[c].first == |old(View()).logs[c].slots|
                && (|old(View()).logs[c].slots| > 0 ==>
                    old(View()).logs[c].slots[|old(View()).logs[c].slots| - 1].done))
    {
      hide PassFrom;
      hide WellFormed;
      hide TransactionState.Valid;
      hide TransactionState.Gate;
      hide CanDelete;
      ValidIsWellFormed(View());
      UpdateAnswer(View(), diff, EnvOf(registry, View().logs.Keys));
      var verdict := Gate(diff);
      dispatches := [];
      if verdict == Open {
        dispatches := PassOver(registry);
      }
      keep := verdict != Gone;
    }

    method Gate(diff: nat) returns (verdict: Verdict)
      requires Valid()
      modifies this`scheduled, this`sinceLastExecution
      ensures Valid()
      ensures (View(), verdict) == TransactionState.Gate(old(View()), diff)
      ensures View().logs == old(View()).logs && TransactionState.WellFormed(old(View()))
    {
      hide WellFormed;
      hide TransactionState.Valid;
      hide CanDelete;
      GateIsValid(View(), diff);
      if flagged {
        if scheduled {
          return Gone;
        }
        var canDelete := CheckDeletion();
        if canDelete {
          scheduled := true;
          return Gone;
        }
      }
      sinceLastExecution := (sinceLastExecution + diff) % U64;
      if pendingCallables == 0 && sinceLastExecution < executeEvery {
        return Closed;
      }
      sinceLastExecution := 0;
      return Open;
    }

    /** The deletion check of a flagged object. The id before the first one wraps around
        and is never found. */
    method CheckDeletion() returns (canDelete: bool)
      requires Valid()
      ensures canDelete == CanDelete(View())
    {
      hide TransactionState.Valid;
      hide WellFormed;
      hide Settled;
      DeletionByOrder(View());
      for k := 0 to |order|
        invariant forall j :: 0 <= j < k ==> Settled(View().logs[order[j]])
      {
        var settled := IsSettled(collections[order[k]]);
        if !settled {
          return false;
        }
      }
      return true;
    }

    method PassOver(registry: map<nat, Transaction>) returns (dispatches: seq<Dispatch>)
      requires Valid() && Known(registry)
      modifies this
      ensures Valid() && Known(registry)
      ensures (View(), dispatches) == PassFrom(old(View()), 0, old(EnvOf(registry, View().logs.Keys)))
    {
      hide PassFrom;
      hide Scan;
      hide Take;
      hide Then;
      hide TransactionState.Valid;
      hide WellFormed;
      hide PeersOf;
      ghost var env := EnvOf(registry, View().logs.Keys);
      assert Agrees(registry, env);
      ValidIsWellFormed(View());
      ghost var whole := PassFrom(View(), 0, env);
      dispatches := [];
      var k := 0;
      ThenNothing(whole);
      while k < |order|
        invariant Valid() && WellFormed(View()) && Known(registry) && Agrees(registry, env)
        invariant 0 <= k <= |order| && View().logs.Keys <= env.Keys
        invariant whole == Then(dispatches, PassFrom(View(), k, env))
      {
        var c := order[k];
        DeletionByOrder(View());
        ghost var before := View();
        ValidLog(before, c);
        PassStep(before, k, env, dispatches);
        if collections[c].firstId == collections[c].currentId {
          k := k + 1;
          continue;
        }
        var ids, hasNonCallable := GetPendingOperations(c, registry, env);
        assert View() == Take(before, c, env[c]);
        ValidIsWellFormed(View());
        if ids == [] {
          ThenLast(dispatches, View());
          return;
        }
        dispatches := dispatches + [Dispatch(c, ids, if hasNonCallable then Writes else Calls)];
        k := k + 1;
      }
      PassEnds(View(), k, env);
      ThenLast(dispatches, View());
    }

    method StoreBatch(c: nat, info: CollectionInfo, called: nat, ghost log: Log, ghost registry: map<nat, Transaction>,
        ghost env: map<nat, Peers>)
      requires Dense() && c in collections && info.Dense() && info.Contents() == log
      requires Known(registry) && Agrees(registry, env) && SameFlags(View().logs, View().logs[c := log])
      modifies this`collections, this`pendingCallables
      ensures Dense() && Known(registry) && Agrees(registry, env)
      ensures View() == old(View()).(logs := old(View()).logs[c := log],
              callables := Wrap8(old(pendingCallables) - called))
    {
      ghost var views := Views(registry);
      LogsUpdate(collections, c, info);
      collections := collections[c := info];
      pendingCallables := Wrap8(pendingCallables - called);
      hide SameFlags;
      PeersKept(views, Views(registry));
    }
  }

  method IsSettled(info: CollectionInfo) returns (settled: bool)
    requires info.Dense()
    ensures settled == Settled(info.Contents())
  {
    if info.firstId != info.currentId {
      return false;
    }
    var last := if info.currentId == 0 then U64 - 1 else info.currentId - 1;
    return !(last in info.transactions && !info.transactions[last].done);
  }

  /** Peers are kept if no `done` flag changes. */
  lemma PeersKept(before: map<nat, map<nat, Log>>, after: map<nat, map<nat, Log>>)
    requires before.Keys == after.Keys
    requires forall o :: o in before ==> before[o] == after[o] || SameFlags(before[o], after[o])
    ensures forall d :: PeersIn(before, d) == PeersIn(after, d)
  {
  }

  lemma TakeIs(tx: Tx, c: nat, peers: Peers)
    requires c in tx.logs && tx.logs[c].first <= |tx.logs[c].slots|
    ensures var sweep := Scan(tx.logs[c], peers);
            Take(tx, c, peers) == tx.(logs := tx.logs[c := Advance(tx.logs[c], sweep)],
                callables := Wrap8(tx.callables - CallsOf(sweep)))
  {
    hide Scan;
  }

  lemma TakeKeepsFlags(tx: Tx, c: nat, peers: Peers)
    requires WellFormed(tx) && c in tx.logs
    ensures SameFlags(tx.logs, Take(tx, c, peers).logs)
  {
    AdvanceStaysUntouched(tx.logs[c], peers);
  }

  lemma DeletionByOrder(tx: Tx)
    requires TransactionState.Valid(tx)
    ensures forall j :: 0 <= j < |tx.order| ==> tx.order[j] in tx.logs
    ensures CanDelete(tx) <==> forall j :: 0 <= j < |tx.order| ==> Settled(tx.logs[tx.order[j]])
  {
  }

  lemma GateIsValid(tx: Tx, diff: nat)
    requires TransactionState.Valid(tx)
    ensures TransactionState.Valid(TransactionState.Gate(tx, diff).0) && WellFormed(tx)
  {
  }

  lemma ThenNothing(r: (Tx, seq<Dispatch>))
    ensures Then([], r) == r
  {
    assert [] + r.1 == r.1;
  }

  lemma ThenLast(dispatches: seq<Dispatch>, tx: Tx)
    ensures Then(dispatches, (tx, [])) == (tx, dispatches)
  {
    assert dispatches + [] == dispatches;
  }

  lemma PassEnds(tx: Tx, k: nat, env: map<nat, Peers>)
    requires WellFormed(tx) && k == |tx.order| && tx.logs.Keys <= env.Keys
    ensures PassFrom(tx, k, env) == (tx, [])
  {
  }

  ghost predicate SameFlags(before: map<nat, Log>, after: map<nat, Log>) {
    && before.Keys == after.Keys
    && forall c :: c in before ==> DoneFlags(before[c].slots) == DoneFlags(after[c].slots)
  }

  /** The scan over one collection record, which stands for the record the program
      updates through a pointer. `called` is how often the callable counter went down. */
  method CollectBatch(c: nat, collection: CollectionInfo, registry: map<nat, Transaction>)
    returns (info: CollectionInfo, ids: seq<nat>, hasNonCallable: bool, called: nat)
    requires collection.Dense() && Untouched(collection.Contents()) && Known(registry)
    ensures info.Dense()
    ensures info.Contents() == Advance(collection.Contents(), Scan(collection.Contents(), PeersOf(registry, c)))
    ensures ids == Scan(collection.Contents(), PeersOf(registry, c)).ids
    ensures hasNonCallable <==> Scan(collection.Contents(), PeersOf(registry, c)).run == Writes
    ensures called == CallsOf(Scan(collection.Contents(), PeersOf(registry, c)))
  {
    hide Scanning;
    ghost var log := collection.Contents();
    ghost var peers := PeersOf(registry, c);
    info, ids, hasNonCallable, called := collection, [], false, 0;
    var hasCallable := false;
    var id := info.firstId;
    StartScan(collection, peers);
    while id != info.currentId
      invariant info.Dense() && id <= info.currentId == |log.slots|
      invariant Scanning(log, info, id, ids, called, hasCallable, hasNonCallable, peers)
      decreases info.currentId - id
    {
      var slot := info.transactions[id];
      StepScan(log, info, id, ids, called, hasCallable, hasNonCallable, peers);
      if slot.pending {
        break;
      }
      if slot.done {
        id := id + 1;
        continue;
      }
      if slot.work.Depends? {
        if !DependencyMet(c, slot.work.owner, slot.work.id, registry) {
          break;
        }
        id := id + 1;
        continue;
      }
      if slot.work.Call? {
        if hasNonCallable {
          break;
        }
        hasCallable := true;
        called := called + 1;
      } else {
        if hasCallable {
          break;
        }
        hasNonCallable := true;
      }
      info := info.Mark(id);
      ids := ids + [id];
      id := id + 1;
    }
    EndScan(log, info, id, ids, called, hasCallable, hasNonCallable, peers);
    info := info.(firstId := id);
  }

  /** The state of the scan in front of slot `id`. */
  ghost predicate Scanning(log: Log, info: CollectionInfo, id: nat, ids: seq<nat>, called: nat,
                           hasCallable: bool, hasNonCallable: bool, peers: Peers)
  {
    && log.first <= id <= |log.slots|
    && info.Dense() && info.Slots() == Mark(log.slots, ids)
    && (forall k :: 0 <= k < |ids| ==> ids[k] < id)
    && Collecting(ids, called, hasCallable, hasNonCallable)
    && ResumesAs(Scan(log, peers), log.slots, id, ids, RunOf(hasCallable, hasNonCallable), peers)
  }

  /** The scan ends in front of slot `id`. */
  predicate StopsAt(slots: seq<Slot>, id: nat, run: Run, peers: Peers)
    requires id <= |slots|
  {
    id == |slots| || slots[id].pending || (!slots[id].done && Stops(slots, id, run, peers))
  }

  lemma StartScan(collection: CollectionInfo, peers: Peers)
    requires collection.Dense() && Untouched(collection.Contents())
    ensures Scanning(collection.Contents(), collection, collection.firstId, [], 0, false, false, peers)
  {
    assert collection.Slots() == Mark(collection.Slots(), []);
  }

  lemma StepScan(log: Log, info: CollectionInfo, id: nat, ids: seq<nat>, called: nat,
                 hasCallable: bool, hasNonCallable: bool, peers: Peers)
    requires Scanning(log, info, id, ids, called, hasCallable, hasNonCallable, peers) && id < |log.slots|
    ensures id in info.transactions && info.transactions[id] == log.slots[id]
    ensures !(hasCallable && hasNonCallable)
    ensures var slot := log.slots[id];
            !StopsAt(log.slots, id, RunOf(hasCallable, hasNonCallable), peers) ==>
              if slot.done || slot.work.Depends? then
                Scanning(log, info, id + 1, ids, called, hasCallable, hasNonCallable, peers)
              else
                Scanning(log, info.Mark(id), id + 1, ids + [id], called + if slot.work.Call? then 1 else 0,
                         slot.work.Call?, slot.work.Write?, peers)
  {
    var slot := log.slots[id];
    var run := RunOf(hasCallable, hasNonCallable);
    MarkStep(info, log.slots, ids, id);
    if !StopsAt(log.slots, id, run, peers) && !slot.done && !slot.work.Depends? {
      ResumeTake(Scan(log, peers), log.slots, id, ids, run, peers);
    }
  }

  lemma EndScan(log: Log, info: CollectionInfo, id: nat, ids: seq<nat>, called: nat,
                hasCallable: bool, hasNonCallable: bool, peers: Peers)
    requires Scanning(log, info, id, ids, called, hasCallable, hasNonCallable, peers)
    requires id <= |log.slots| && StopsAt(log.slots, id, RunOf(hasCallable, hasNonCallable), peers)
    requires log.first <= |log.slots|
    ensures info.(firstId := id).Dense()
    ensures info.(firstId := id).Contents() == Advance(log, Scan(log, peers))
    ensures Scan(log, peers) == Sweep(id, ids, RunOf(hasCallable, hasNonCallable))
    ensures called == CallsOf(Scan(log, peers)) && !(hasCallable && hasNonCallable)
  {
  }

  /** The two flags of the scan are never both set, and one is set once there is a batch. */
  predicate Collecting(ids: seq<nat>, called: nat, hasCallable: bool, hasNonCallable: bool) {
    && !(hasCallable && hasNonCallable) && (ids == [] <==> !hasCallable && !hasNonCallable)
    && called == if hasCallable then |ids| else 0
  }

  function RunOf(hasCallable: bool, hasNonCallable: bool): Run {
    if hasCallable then Calls else if hasNonCallable then Writes else Neither
  }

  /** What a scan has collected so far, continued from `id`, is the whole scan. */
  ghost predicate ResumesAs(all: Sweep, slots: seq<Slot>, id: nat, ids: seq<nat>, run: Run, peers: Peers)
    requires id <= |slots|
  {
    var rest := ScanFrom(slots, id, run, peers);
    all == rest.(ids := ids + rest.ids)
  }

  lemma MarkStep(info: CollectionInfo, slots: seq<Slot>, ids: seq<nat>, id: nat)
    requires info.Dense() && info.Slots() == Mark(slots, ids) && id < |slots|
    requires forall k :: 0 <= k < |ids| ==> ids[k] < id
    ensures id in info.transactions && info.transactions[id] == slots[id] && info.Mark(id).Dense()
    ensures info.Mark(id).Slots() == Mark(slots, ids + [id])
  {
    assert info.transactions[id] == Mark(slots, ids)[id];
  }

  lemma ResumeTake(all: Sweep, slots: seq<Slot>, id: nat, ids: seq<nat>, run: Run, peers: Peers)
    requires id < |slots| && ResumesAs(all, slots, id, ids, run, peers)
    requires !slots[id].pending && !slots[id].done && !slots[id].work.Depends? && !Stops(slots, id, run, peers)
    ensures ResumesAs(all, slots, id + 1, ids + [id], KindOf(slots[id].work), peers)
  {
    var rest := ScanFrom(slots, id + 1, KindOf(slots[id].work), peers);
    assert ids + ([id] + rest.ids) == ids + [id] + rest.ids;
  }

  ghost predicate Known(registry: map<nat, Transaction>)
    reads registry.Values`collections
  {
    forall o :: o in registry ==> AllDense(registry[o].collections)
  }

  /** What the getter can see. */
  ghost function Views(registry: map<nat, Transaction>): map<nat, map<nat, Log>>
    reads registry.Values`collections
    requires Known(registry)
  {
    map o | o in registry :: LogsOf(registry[o].collections)
  }

  /** Every object in `views` that has collection `c`. */
  ghost function PeersIn(views: map<nat, map<nat, Log>>, c: nat): Peers {
    map o | o in views && c in views[o] :: DoneFlags(views[o][c].slots)
  }

  ghost function PeersOf(registry: map<nat, Transaction>, c: nat): Peers
    reads registry.Values`collections
    requires Known(registry)
  {
    PeersIn(Views(registry), c)
  }

  ghost predicate Agrees(registry: map<nat, Transaction>, env: map<nat, Peers>)
    reads registry.Values`collections
    requires Known(registry)
  {
    forall c :: c in env ==> env[c] == PeersOf(registry, c)
  }

  /** The peers of every collection in `keys`. */
  ghost function EnvOf(registry: map<nat, Transaction>, keys: set<nat>): map<nat, Peers>
    reads registry.Values`collections
    requires Known(registry)
  {
    map c | c in keys :: PeersOf(registry, c)
  }

  ghost function Then(dispatches: seq<Dispatch>, rest: (Tx, seq<Dispatch>)): (Tx, seq<Dispatch>) {
    (rest.0, dispatches + rest.1)
  }

  lemma BatchHasKind(log: Log, peers: Peers)
    requires Untouched(log)
    ensures Scan(log, peers).ids != [] ==> Scan(log, peers).run != Neither
  {
    ScanIsSweep(log.slots, log.first, Neither, peers);
  }

  /** One turn of the pass, by what the scan of the collection at position `k` finds. */
  lemma PassStep(tx: Tx, k: nat, env: map<nat, Peers>, sent: seq<Dispatch>)
    requires WellFormed(tx) && k < |tx.order| && tx.logs.Keys <= env.Keys
    ensures var c := tx.order[k]; var log := tx.logs[c]; var sweep := Scan(log, env[c]);
            && WellFormed(Take(tx, c, env[c])) && Take(tx, c, env[c]).order == tx.order
            && Take(tx, c, env[c]).logs.Keys <= env.Keys
            && (log.first == |log.slots| ==> PassFrom(tx, k, env) == PassFrom(tx, k + 1, env))
            && (log.first != |log.slots| && sweep.ids == [] ==> PassFrom(tx, k, env) == (Take(tx, c, env[c]), []))
            && (log.first != |log.slots| && sweep.ids != [] ==>
                 Then(sent, PassFrom(tx, k, env)) ==
                 Then(sent + [Dispatch(c, sweep.ids, if sweep.run == Writes then Writes else Calls)],
                      PassFrom(Take(tx, c, env[c]), k + 1, env)))
  {
    hide PassFrom;
    hide Scan;
    var c := tx.order[k];
    PassTurn(tx, k, env);
    BatchHasKind(tx.logs[c], env[c]);
    var sweep := Scan(tx.logs[c], env[c]);
    if tx.logs[c].first != |tx.logs[c].slots| && sweep.ids != [] {
      var d := Dispatch(c, sweep.ids, sweep.run);
      var rest := PassFrom(Take(tx, c, env[c]), k + 1, env).1;
      assert sent + ([d] + rest) == sent + [d] + rest;
    }
  }

  /** A dependency on slot `id` of `owner`, looked up through the getter `registry`. */
  predicate DependencyMet(c: nat, owner: nat, id: nat, registry: map<nat, Transaction>): (met: bool)
    reads registry.Values`collections
    requires Known(registry)
    ensures met == Met(PeersOf(registry, c), owner, id)
    ensures !met <==> owner in registry && Unfinished(PeersOf(registry, c), owner, id)
  {
    owner in registry ==>
      var found := registry[owner].GetTransaction(c, id);
      found.Some? ==> found.value.done
  }
}
