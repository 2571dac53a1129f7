/** Many transaction objects and one asynchronous pool, as a state machine. Any object may
    push, cut a batch or pass its gate at any time, and any batch in flight may make its
    next step at any time: the interleavings of the program are among these runs. */
module Scheduler {
  import opened TransactionLog
  import opened TransactionState

  /** A slot of an object. */
  datatype Ref = Ref(owner: nat, collection: nat, id: nat)

  /** A batch that was handed to the pool. The first `effected` of its slots have taken
      effect and the first `flagged` have been marked done; it is in flight until all are. */
  datatype Flight = Flight(owner: nat, collection: nat, ids: seq<nat>, run: Run, effected: nat, flagged: nat)

  /** Dependency slot `waiter` was passed when its target `target` could be found. */
  datatype Honour = Honour(waiter: Ref, target: Ref)

  /** `flights` keeps every batch ever dispatched, in dispatch order; `trace` is the order
      in which slots took effect and `pushes` the order in which they were pushed. */
  datatype State = State(
    objects: map<nat, Tx>,
    flights: seq<Flight>,
    trace: seq<Ref>,
    pushes: seq<Ref>,
    honoured: set<Honour>)

  datatype Step =
    | Create(owner: nat, order: seq<nat>, every: nat)
    | PushWork(owner: nat, collection: nat, work: Work)
    | PassGate(owner: nat, diff: nat)
    | CutBatch(owner: nat, collection: nat, known: set<nat>)
    | Execute(flight: nat)
    | Finish(flight: nat)
    | Flag(owner: nat)
    | Unflag(owner: nat)

  const Initial := State(map[], [], [], [], {})

  predicate Exists(objects: map<nat, Tx>, ref: Ref) {
    && ref.owner in objects && ref.collection in objects[ref.owner].logs
    && ref.id < |objects[ref.owner].logs[ref.collection].slots|
  }

  function SlotOf(objects: map<nat, Tx>, ref: Ref): Slot
    requires Exists(objects, ref)
  {
    objects[ref.owner].logs[ref.collection].slots[ref.id]
  }

  /** What a getter that knows the objects in `known` shows of collection `c`. */
  function PeersOf(objects: map<nat, Tx>, known: set<nat>, c: nat): Peers {
    map o | o in objects && o in known && c in objects[o].logs :: DoneFlags(objects[o].logs[c].slots)
  }

  predicate HasLog(objects: map<nat, Tx>, owner: nat, c: nat) {
    owner in objects && c in objects[owner].logs
  }

  /** A batch of writes takes effect at once, when the bulk operation is executed; a batch
      of callables one by one, each marked done before the next is called. */
  predicate MayExecute(f: Flight) {
    if f.run == Writes then f.effected == 0 else f.effected == f.flagged && f.effected < |f.ids|
  }

  function Executed(f: Flight): Flight {
    f.(effected := if f.run == Writes then |f.ids| else f.effected + 1)
  }

  function RefsOf(f: Flight, lo: nat, hi: nat): (refs: seq<Ref>)
    requires lo <= hi <= |f.ids|
    ensures |refs| == hi - lo
    ensures forall k :: 0 <= k < hi - lo ==> refs[k] == Ref(f.owner, f.collection, f.ids[lo + k])
  {
    seq(hi - lo, k requires 0 <= k < hi - lo => Ref(f.owner, f.collection, f.ids[lo + k]))
  }

  ghost predicate Enabled(s: State, step: Step) {
    match step
    case Create(owner, order, every) => owner !in s.objects && Distinct(order) && every < U64
    case PushWork(owner, c, _) => HasLog(s.objects, owner, c)
    case PassGate(owner, _) => owner in s.objects
    case CutBatch(owner, c, _) => HasLog(s.objects, owner, c) &&
        s.objects[owner].logs[c].first <= |s.objects[owner].logs[c].slots|
    case Execute(k) => k < |s.flights| && MayExecute(s.flights[k]) &&
        Executed(s.flights[k]).effected <= |s.flights[k].ids|
    case Finish(k) =>
      && k < |s.flights| && s.flights[k].flagged < s.flights[k].effected <= |s.flights[k].ids|
      && Exists(s.objects, Ref(s.flights[k].owner, s.flights[k].collection, s.flights[k].ids[s.flights[k].flagged]))
    case Flag(owner) => owner in s.objects
    case Unflag(owner) => owner in s.objects
  }

  /** The dependencies that a sweep passes although their target can be found. */
  function NewHonours(objects: map<nat, Tx>, owner: nat, c: nat, stop: nat, known: set<nat>): set<Honour>
    requires HasLog(objects, owner, c) && objects[owner].logs[c].first <= stop <= |objects[owner].logs[c].slots|
  {
    var log := objects[owner].logs[c];
    set i | log.first <= i < stop && log.slots[i].work.Depends? && log.slots[i].work.owner in known
            && Exists(objects, Ref(log.slots[i].work.owner, c, log.slots[i].work.id))
          :: Honour(Ref(owner, c, i), Ref(log.slots[i].work.owner, c, log.slots[i].work.id))
  }

  ghost function Cut(s: State, owner: nat, c: nat, known: set<nat>): State
    requires Enabled(s, CutBatch(owner, c, known))
  {
    var peers := PeersOf(s.objects, known, c);
    var log := s.objects[owner].logs[c];
    var sweep := Scan(log, peers);
    State(
      s.objects[owner := Take(s.objects[owner], c, peers)],
      if sweep.ids == [] then s.flights else s.flights + [Flight(owner, c, sweep.ids, sweep.run, 0, 0)],
      s.trace,
      s.pushes,
      s.honoured + if log.first <= sweep.stop <= |log.slots| then NewHonours(s.objects, owner, c, sweep.stop, known)
          else {})
  }

  ghost function Next(s: State, step: Step): State
    requires Enabled(s, step)
  {
    match step
    case Create(owner, order, every) => s.(objects := s.objects[owner := Init(order, every)])
    case PushWork(owner, c, work) =>
      s.(objects := s.objects[owner := PushTo(s.objects[owner], c, work)],
         pushes := s.pushes + [Ref(owner, c, |s.objects[owner].logs[c].slots|)])
    case PassGate(owner, diff) => s.(objects := s.objects[owner := Gate(s.objects[owner], diff).0])
    case CutBatch(owner, c, known) => Cut(s, owner, c, known)
    case Execute(k) =>
      var f := s.flights[k];
      s.(flights := s.flights[k := Executed(f)], trace := s.trace + RefsOf(f, f.effected, Executed(f).effected))
    case Finish(k) =>
      var f := s.flights[k];
      s.(objects := s.objects[f.owner := Complete(s.objects[f.owner], f.collection, f.ids[f.flagged])],
         flights := s.flights[k := f.(flagged := f.flagged + 1)])
    case Flag(owner) => s.(objects := s.objects[owner := s.objects[owner].(flagged := true)])
    case Unflag(owner) => s.(objects := s.objects[owner := s.objects[owner].(flagged := false, scheduled := false)])
  }

  /** `states` is a run of the system that takes `steps`. */
  ghost predicate IsRun(states: seq<State>, steps: seq<Step>) {
    && |states| == |steps| + 1 && states[0] == Initial
    && forall i :: 0 <= i < |steps| ==> Enabled(states[i], steps[i]) && states[i + 1] == Next(states[i], steps[i])
  }

  // ---------------------------------------------------------------- projections

  predicate OfLog(ref: Ref, owner: nat, c: nat) {
    ref.owner == owner && ref.collection == c
  }

  predicate ForLog(f: Flight, owner: nat, c: nat) {
    f.owner == owner && f.collection == c
  }

  /** The slots of one log among `refs`, in the order of `refs`. */
  function IdsOf(refs: seq<Ref>, owner: nat, c: nat): seq<nat> {
    if refs == [] then []
    else
      var n := |refs| - 1;
      IdsOf(refs[..n], owner, c) + if OfLog(refs[n], owner, c) then [refs[n].id] else []
  }

  /** All batches of one log, concatenated in dispatch order. */
  function History(flights: seq<Flight>, owner: nat, c: nat): seq<nat> {
    if flights == [] then []
    else
      var n := |flights| - 1;
      History(flights[..n], owner, c) + if ForLog(flights[n], owner, c) then flights[n].ids else []
  }

  // ---------------------------------------------------------------- the invariant

  ghost predicate ObjectsValid(s: State) {
    forall o :: o in s.objects ==> Valid(s.objects[o])
  }

  /** A batch agrees with the slots it was cut from. */
  ghost predicate FlightValid(objects: map<nat, Tx>, f: Flight) {
    && HasLog(objects, f.owner, f.collection)
    && f.ids != [] && f.flagged <= f.effected <= |f.ids| && f.run != Neither
    && (f.run == Calls ==> f.effected <= f.flagged + 1)
    && (f.run == Writes ==> f.effected == 0 || f.effected == |f.ids|)
    && var log := objects[f.owner].logs[f.collection];
       forall j :: 0 <= j < |f.ids| ==>
         && f.ids[j] < log.first && f.ids[j] < |log.slots|
         && (0 < j ==> f.ids[j - 1] < f.ids[j])
         && var slot := log.slots[f.ids[j]];
            && !slot.work.Depends? && KindOf(slot.work) == f.run
            && slot.done == (j < f.flagged) && slot.pending == (j >= f.flagged)
  }

  ghost predicate FlightsValid(s: State) {
    forall k :: 0 <= k < |s.flights| ==> FlightValid(s.objects, s.flights[k])
  }

  /** Exactly-once FIFO dispatch: the batches of every log, in dispatch order, are the jobs
      its cursor has passed, in push order and each once. */
  ghost predicate HistoryIsPassedJobs(s: State) {
    forall o, c :: HasLog(s.objects, o, c) ==> PassedJobs(s.objects[o].logs[c], History(s.flights, o, c))
  }

  ghost predicate PassedJobs(log: Log, ids: seq<nat>) {
    log.first <= |log.slots| && ids == Jobs(log.slots, 0, log.first)
  }

  /** A slot is in the trace exactly if its batch has effected it, and then once. */
  ghost predicate TraceValid(s: State) {
    && (forall k, j :: 0 <= k < |s.flights| && 0 <= j < |s.flights[k].ids| ==>
          (RefAt(s.flights[k], j) in s.trace <==> j < s.flights[k].effected))
    && (forall p, q :: 0 <= p < q < |s.trace| ==> s.trace[p] != s.trace[q])
    && (forall p :: 0 <= p < |s.trace| ==> Dispatched(s.flights, s.trace[p]))
  }

  function RefAt(f: Flight, j: nat): Ref
    requires j < |f.ids|
  {
    Ref(f.owner, f.collection, f.ids[j])
  }

  ghost predicate Dispatched(flights: seq<Flight>, ref: Ref) {
    exists k :: 0 <= k < |flights| && ForLog(flights[k], ref.owner, ref.collection) && ref.id in flights[k].ids
  }

  /** Every slot was pushed, once, and the slots of one log in the order of their ids. */
  ghost predicate PushesValid(s: State) {
    && (forall p :: 0 <= p < |s.pushes| ==> Exists(s.objects, s.pushes[p]))
    && (forall ref: Ref :: Exists(s.objects, ref) ==> ref in s.pushes)
    && (forall p, q :: 0 <= p < q < |s.pushes| && OfLog(s.pushes[p], s.pushes[q].owner, s.pushes[q].collection) ==>
          s.pushes[p].id < s.pushes[q].id)
  }

  /** In `trace`, every occurrence of `ref` comes after one of `target`. */
  ghost predicate Precedes(trace: seq<Ref>, target: Ref, ref: Ref) {
    forall p :: 0 <= p < |trace| && trace[p] == ref ==> target in trace[..p]
  }

  /** Cross-object ordering: the target of a dependency that was passed while it could be
      found has taken effect, before anything behind the dependency. */
  ghost predicate HonoursHold(s: State) {
    forall h :: h in s.honoured ==>
      && h.target in s.trace
      && HasLog(s.objects, h.waiter.owner, h.waiter.collection)
      && forall id :: id > h.waiter.id ==> Precedes(s.trace, h.target, h.waiter.(id := id))
  }

  ghost predicate Inv(s: State) {
    && ObjectsValid(s)
    && FlightsValid(s)
    && HistoryIsPassedJobs(s)
    && TraceValid(s)
    && PushesValid(s)
    && HonoursHold(s)
  }
}
