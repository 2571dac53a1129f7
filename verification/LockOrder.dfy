/** The locks of the network plugin and what they guard, one lock, unlock or access at a time:
    packet tasks, ticks and disconnect requests, any number of them, interleaved in any way. */
module LockOrder {

  datatype Lock = DisconnectLock | Local(id: nat) | SharedLock

  /** What threads share: the endpoints and inputs of a shard, the registry with the new
      endpoints, and the disconnect requests. */
  datatype Shared = Shard(id: nat) | Registry | Requests

  /** A peek asks whether something is empty without its lock; every other use is an access. */
  datatype Instruction = Acquire(lock: Lock) | Release(lock: Lock) | Access(what: Shared) | Peek(what: Shared)

  function Guard(what: Shared): Lock {
    match what
    case Shard(i) => Local(i)
    case Registry => SharedLock
    case Requests => DisconnectLock
  }

  /** A thread with the locks it holds and what it has still to do. */
  datatype Thread = Thread(held: set<Lock>, rest: seq<Instruction>)

  /** disconnect < local[0] < local[1] < ... < shared. */
  predicate Below(a: Lock, b: Lock) {
    match (a, b)
    case (DisconnectLock, DisconnectLock) => false
    case (DisconnectLock, _) => true
    case (Local(i), Local(j)) => i < j
    case (Local(_), SharedLock) => true
    case _ => false
  }

  // ---------------------------------------------------------------- what the plugin does

  /** A packet task: the shared lock only when the endpoint is new to the shard. */
  function PacketTask(id: nat, isNew: bool): seq<Instruction> {
    [Acquire(Local(id)), Access(Shard(id))]
    + (if isNew then Use(Registry) else [])
    + [Access(Shard(id)), Release(Local(id))]
  }

  /** One access under its lock. */
  function Use(what: Shared): seq<Instruction> {
    [Acquire(Guard(what)), Access(what), Release(Guard(what))]
  }

  function Disconnect(): seq<Instruction> {
    Use(Requests)
  }

  /** Collecting the first `n` shards, leaving out those with nothing pending. */
  function CollectShards(n: nat, empty: set<nat>): seq<Instruction> {
    if n == 0 then []
    else CollectShards(n - 1, empty) + CollectShard(n - 1, n - 1 in empty)
  }

  function CollectShard(i: nat, isEmpty: bool): seq<Instruction> {
    [Peek(Shard(i))] + if isEmpty then [] else Use(Shard(i))
  }

  function AcquireLocals(n: nat): seq<Instruction> {
    if n == 0 then [] else AcquireLocals(n - 1) + [Acquire(Local(n - 1))]
  }

  function ClearLocals(n: nat): seq<Instruction> {
    if n == 0 then [] else ClearLocals(n - 1) + [Access(Shard(n - 1)), Release(Local(n - 1))]
  }

  function Teardown(n: nat): seq<Instruction> {
    [Access(Requests)] + AcquireLocals(n) + Use(Registry) + ClearLocals(n)
  }

  function Teardowns(n: nat, count: nat): seq<Instruction> {
    if count == 0 then [] else Teardowns(n, count - 1) + Teardown(n)
  }

  /** A tick over `n` shards with `count` teardowns. */
  function Tick(n: nat, anyNew: bool, empty: set<nat>, count: nat): seq<Instruction> {
    CreateClients(anyNew) + CollectShards(n, empty) + Close(n, count)
  }

  function CreateClients(anyNew: bool): seq<Instruction> {
    [Peek(Registry)] + if anyNew then Use(Registry) else []
  }

  function Close(n: nat, count: nat): seq<Instruction> {
    [Peek(Requests)] + if count == 0 then [] else
      [Acquire(DisconnectLock)] + Teardowns(n, count) + [Access(Requests), Release(DisconnectLock)]
  }

  // ---------------------------------------------------------------- the discipline

  /** From `held`, the instructions acquire only locks above every lock held, release only
      locks held, access only what a lock held guards, and end holding `end`. */
  ghost predicate Ordered(held: set<Lock>, rest: seq<Instruction>, end: set<Lock>)
    decreases |rest|
  {
    if rest == [] then held == end
    else match rest[0]
      case Acquire(lock) => (forall l :: l in held ==> Below(l, lock)) && Ordered(held + {lock}, rest[1..], end)
      case Release(lock) => lock in held && Ordered(held - {lock}, rest[1..], end)
      case Access(what) => Guard(what) in held && Ordered(held, rest[1..], end)
      case Peek(_) => Ordered(held, rest[1..], end)
  }

  function HeldAfter(held: set<Lock>, instruction: Instruction): set<Lock> {
    match instruction
    case Acquire(lock) => held + {lock}
    case Release(lock) => held - {lock}
    case _ => held
  }

  lemma {:induction false} OrderedConcat(held: set<Lock>, a: seq<Instruction>, middle: set<Lock>,
      b: seq<Instruction>, end: set<Lock>)
    requires Ordered(held, a, middle) && Ordered(middle, b, end)
    ensures Ordered(held, a + b, end)
    decreases |a|
  {
    if a == [] {
      assert a + b == b;
    } else {
      OrderedConcat(HeldAfter(held, a[0]), a[1..], middle, b, end);
      assert (a + b)[1..] == a[1..] + b;
    }
  }

  lemma One(held: set<Lock>, instruction: Instruction)
    requires instruction.Acquire? ==> forall l :: l in held ==> Below(l, instruction.lock)
    requires instruction.Release? ==> instruction.lock in held
    requires instruction.Access? ==> Guard(instruction.what) in held
    ensures Ordered(held, [instruction], HeldAfter(held, instruction))
  {
    assert [instruction][1..] == [] && Ordered(HeldAfter(held, instruction), [], HeldAfter(held, instruction));
  }

  /** One access under a lock above everything held. */
  lemma UseOrdered(held: set<Lock>, what: Shared)
    requires forall l :: l in held ==> Below(l, Guard(what))
    ensures Ordered(held, Use(what), held)
  {
    var lock := Guard(what);
    assert !Below(lock, lock) && held + {lock} - {lock} == held;
    One(held, Acquire(lock));
    One(held + {lock}, Access(what));
    One(held + {lock}, Release(lock));
    OrderedConcat(held, [Acquire(lock)], held + {lock}, [Access(what)], held + {lock});
    OrderedConcat(held, [Acquire(lock)] + [Access(what)], held + {lock}, [Release(lock)], held);
    assert [Acquire(lock)] + [Access(what)] + [Release(lock)] == Use(what);
  }

  lemma PeekOrdered(held: set<Lock>, what: Shared, rest: seq<Instruction>, end: set<Lock>)
    requires Ordered(held, rest, end)
    ensures Ordered(held, [Peek(what)] + rest, end)
  {
    One(held, Peek(what));
    OrderedConcat(held, [Peek(what)], held, rest, end);
  }

  /** An access and a release of its lock. */
  lemma AccessRelease(held: set<Lock>, what: Shared)
    requires Guard(what) in held
    ensures Ordered(held, [Access(what), Release(Guard(what))], held - {Guard(what)})
  {
    One(held, Access(what));
    One(held, Release(Guard(what)));
    OrderedConcat(held, [Access(what)], held, [Release(Guard(what))], held - {Guard(what)});
    assert [Access(what)] + [Release(Guard(what))] == [Access(what), Release(Guard(what))];
  }

  function Locals(from: nat, to: nat): set<Lock> {
    set i | from <= i < to :: Local(i)
  }

  lemma {:induction false} AcquireLocalsOrdered(n: nat)
    ensures Ordered({DisconnectLock}, AcquireLocals(n), {DisconnectLock} + Locals(0, n))
  {
    if n == 0 {
      assert {DisconnectLock} + Locals(0, 0) == {DisconnectLock};
    } else {
      AcquireLocalsOrdered(n - 1);
      var held := {DisconnectLock} + Locals(0, n - 1);
      assert held + {Local(n - 1)} == {DisconnectLock} + Locals(0, n);
      One(held, Acquire(Local(n - 1)));
      OrderedConcat({DisconnectLock}, AcquireLocals(n - 1), held, [Acquire(Local(n - 1))],
          {DisconnectLock} + Locals(0, n));
    }
  }

  lemma {:induction false} ClearLocalsOrdered(k: nat, n: nat)
    requires k <= n
    ensures Ordered({DisconnectLock} + Locals(0, n), ClearLocals(k), {DisconnectLock} + Locals(k, n))
  {
    if k > 0 {
      ClearLocalsOrdered(k - 1, n);
      var held := {DisconnectLock} + Locals(k - 1, n);
      assert held - {Local(k - 1)} == {DisconnectLock} + Locals(k, n);
      AccessRelease(held, Shard(k - 1));
      OrderedConcat({DisconnectLock} + Locals(0, n), ClearLocals(k - 1), held,
          [Access(Shard(k - 1)), Release(Local(k - 1))], {DisconnectLock} + Locals(k, n));
    }
  }

  lemma TeardownOrdered(n: nat)
    ensures Ordered({DisconnectLock}, Teardown(n), {DisconnectLock})
  {
    var one, all := {DisconnectLock}, {DisconnectLock} + Locals(0, n);
    One(one, Access(Requests));
    AcquireLocalsOrdered(n);
    UseOrdered(all, Registry);
    ClearLocalsOrdered(n, n);
    assert {DisconnectLock} + Locals(n, n) == one;
    OrderedConcat(one, [Access(Requests)], one, AcquireLocals(n), all);
    OrderedConcat(one, [Access(Requests)] + AcquireLocals(n), all, Use(Registry), all);
    OrderedConcat(one, [Access(Requests)] + AcquireLocals(n) + Use(Registry), all, ClearLocals(n), one);
  }

  lemma {:induction false} TeardownsOrdered(n: nat, count: nat)
    ensures Ordered({DisconnectLock}, Teardowns(n, count), {DisconnectLock})
  {
    if count > 0 {
      TeardownsOrdered(n, count - 1);
      TeardownOrdered(n);
      OrderedConcat({DisconnectLock}, Teardowns(n, count - 1), {DisconnectLock}, Teardown(n), {DisconnectLock});
    }
  }

  lemma {:induction false} CollectShardsOrdered(n: nat, empty: set<nat>)
    ensures Ordered({}, CollectShards(n, empty), {})
  {
    if n > 0 {
      CollectShardsOrdered(n - 1, empty);
      UseOrdered({}, Shard(n - 1));
      assert Ordered({}, [], {});
      PeekOrdered({}, Shard(n - 1), if n - 1 in empty then [] else Use(Shard(n - 1)), {});
      OrderedConcat({}, CollectShards(n - 1, empty), {}, CollectShard(n - 1, n - 1 in empty), {});
    }
  }

  lemma CreateClientsOrdered(anyNew: bool)
    ensures Ordered({}, CreateClients(anyNew), {})
  {
    UseOrdered({}, Registry);
    assert Ordered({}, [], {});
    PeekOrdered({}, Registry, if anyNew then Use(Registry) else [], {});
  }

  lemma CloseOrdered(n: nat, count: nat)
    ensures Ordered({}, Close(n, count), {})
  {
    var one := {DisconnectLock};
    var closing := [Acquire(DisconnectLock)] + Teardowns(n, count) + [Access(Requests), Release(DisconnectLock)];
    One({}, Acquire(DisconnectLock));
    TeardownsOrdered(n, count);
    AccessRelease(one, Requests);
    assert HeldAfter({}, Acquire(DisconnectLock)) == one && one - {DisconnectLock} == {};
    OrderedConcat({}, [Acquire(DisconnectLock)], one, Teardowns(n, count), one);
    OrderedConcat({}, [Acquire(DisconnectLock)] + Teardowns(n, count), one,
        [Access(Requests), Release(DisconnectLock)], {});
    assert Ordered({}, [], {});
    PeekOrdered({}, Requests, if count == 0 then [] else closing, {});
  }

  /** Every acquisition of a tick respects the order and every access has its lock, whatever
      the tick finds to do, and the tick ends with every lock given back. */
  lemma TickOrdered(n: nat, anyNew: bool, empty: set<nat>, count: nat)
    ensures Ordered({}, Tick(n, anyNew, empty, count), {})
  {
    CreateClientsOrdered(anyNew);
    CollectShardsOrdered(n, empty);
    CloseOrdered(n, count);
    OrderedConcat({}, CreateClients(anyNew), {}, CollectShards(n, empty), {});
    OrderedConcat({}, CreateClients(anyNew) + CollectShards(n, empty), {}, Close(n, count), {});
  }

  lemma PacketTaskOrdered(id: nat, isNew: bool)
    ensures Ordered({}, PacketTask(id, isNew), {})
  {
    var one := {Local(id)};
    One({}, Acquire(Local(id)));
    One(one, Access(Shard(id)));
    assert HeldAfter({}, Acquire(Local(id))) == one && one - {Local(id)} == {};
    OrderedConcat({}, [Acquire(Local(id))], one, [Access(Shard(id))], one);
    var front := [Acquire(Local(id)), Access(Shard(id))];
    assert [Acquire(Local(id))] + [Access(Shard(id))] == front;
    UseOrdered(one, Registry);
    assert Ordered(one, [], one);
    var inner := if isNew then Use(Registry) else [];
    AccessRelease(one, Shard(id));
    OrderedConcat({}, front, one, inner, one);
    OrderedConcat({}, front + inner, one, [Access(Shard(id)), Release(Local(id))], {});
  }

  lemma DisconnectOrdered()
    ensures Ordered({}, Disconnect(), {})
  {
    UseOrdered({}, Requests);
  }

  // ---------------------------------------------------------------- threads

  datatype Task =
    | Packet(id: nat, isNew: bool)
    | Request
    | Ticking(anyNew: bool, empty: set<nat>, count: nat)

  function Program(shards: nat, task: Task): seq<Instruction> {
    match task
    case Packet(id, isNew) => PacketTask(id, isNew)
    case Request => Disconnect()
    case Ticking(anyNew, empty, count) => Tick(shards, anyNew, empty, count)
  }

  /** Any number of tasks, none started. */
  function Start(shards: nat, tasks: seq<Task>): seq<Thread> {
    seq(|tasks|, t requires 0 <= t < |tasks| => Thread({}, Program(shards, tasks[t])))
  }

  predicate Free(threads: seq<Thread>, lock: Lock) {
    forall t :: 0 <= t < |threads| ==> lock !in threads[t].held
  }

  /** Thread `t` can take its next step: a lock it wants is free. */
  predicate CanStep(threads: seq<Thread>, t: nat) {
    && t < |threads| && threads[t].rest != []
    && (threads[t].rest[0].Acquire? ==> Free(threads, threads[t].rest[0].lock))
  }

  function StepOf(threads: seq<Thread>, t: nat): seq<Thread>
    requires CanStep(threads, t)
  {
    var thread := threads[t];
    threads[t := Thread(HeldAfter(thread.held, thread.rest[0]), thread.rest[1..])]
  }

  ghost predicate IsRun(shards: nat, tasks: seq<Task>, states: seq<seq<Thread>>, chosen: seq<nat>) {
    && |states| == |chosen| + 1 && states[0] == Start(shards, tasks)
    && forall i :: 0 <= i < |chosen| ==> CanStep(states[i], chosen[i]) && states[i + 1] == StepOf(states[i], chosen[i])
  }

  /** No lock has two owners, and every thread keeps to the order. */
  ghost predicate Orderly(threads: seq<Thread>) {
    && (forall t, u :: 0 <= t < u < |threads| ==> threads[t].held !! threads[u].held)
    && (forall t :: 0 <= t < |threads| ==> Ordered(threads[t].held, threads[t].rest, {}))
  }

  lemma StartOrderly(shards: nat, tasks: seq<Task>)
    ensures Orderly(Start(shards, tasks))
  {
    forall t | 0 <= t < |tasks|
      ensures Ordered({}, Program(shards, tasks[t]), {})
    {
      match tasks[t]
      case Packet(id, isNew) => PacketTaskOrdered(id, isNew);
      case Request => DisconnectOrdered();
      case Ticking(anyNew, empty, count) => TickOrdered(shards, anyNew, empty, count);
    }
  }

  lemma StepOrderly(threads: seq<Thread>, t: nat)
    requires Orderly(threads) && CanStep(threads, t)
    ensures Orderly(StepOf(threads, t))
  {
  }

  /** Mutual exclusion and lock order, in every reachable state. */
  lemma {:induction false} RunOrderly(shards: nat, tasks: seq<Task>, states: seq<seq<Thread>>, chosen: seq<nat>, i: nat)
    requires IsRun(shards, tasks, states, chosen) && i <= |chosen|
    ensures Orderly(states[i]) && |states[i]| == |tasks|
  {
    if i == 0 {
      StartOrderly(shards, tasks);
    } else {
      RunOrderly(shards, tasks, states, chosen, i - 1);
      StepOrderly(states[i - 1], chosen[i - 1]);
    }
  }

  // ---------------------------------------------------------------- no race

  /** Thread `t` is about to use `what`. */
  predicate Touches(threads: seq<Thread>, t: nat, what: Shared) {
    t < |threads| && threads[t].rest != [] && (threads[t].rest[0] == Access(what) || threads[t].rest[0] == Peek(what))
  }

  /** Only ticks peek. */
  ghost predicate PeeksInTicks(threads: seq<Thread>, tasks: seq<Task>) {
    |threads| == |tasks| && forall t, k ::
      0 <= t < |threads| && 0 <= k < |threads[t].rest| && threads[t].rest[k].Peek? ==> tasks[t].Ticking?
  }

  lemma {:induction false} RunPeeksInTicks(shards: nat, tasks: seq<Task>,
      states: seq<seq<Thread>>, chosen: seq<nat>, i: nat)
    requires IsRun(shards, tasks, states, chosen) && i <= |chosen|
    ensures PeeksInTicks(states[i], tasks)
  {
    hide PeeksInTicks;
    if i > 0 {
      RunPeeksInTicks(shards, tasks, states, chosen, i - 1);
      StepPeeksInTicks(states[i - 1], tasks, chosen[i - 1]);
    } else {
      StartPeeksInTicks(shards, tasks);
    }
  }

  lemma StepPeeksInTicks(threads: seq<Thread>, tasks: seq<Task>, t: nat)
    requires PeeksInTicks(threads, tasks) && CanStep(threads, t)
    ensures PeeksInTicks(StepOf(threads, t), tasks)
  {
  }

  lemma StartPeeksInTicks(shards: nat, tasks: seq<Task>)
    ensures PeeksInTicks(Start(shards, tasks), tasks)
  {
    forall t | 0 <= t < |tasks| && !tasks[t].Ticking?
      ensures forall k :: 0 <= k < |Program(shards, tasks[t])| ==> !Program(shards, tasks[t])[k].Peek?
    {
    }
    hide Program;
  }

  /** Freedom from races, but for the peeks: in every reachable state, if two threads are about
      to use the same thing, one of them is a tick that asks without the lock whether it is
      empty. */
  lemma OnlyPeeksRace(shards: nat, tasks: seq<Task>, states: seq<seq<Thread>>, chosen: seq<nat>, i: nat,
      t: nat, u: nat, what: Shared)
    requires IsRun(shards, tasks, states, chosen) && i <= |chosen|
    requires t != u && Touches(states[i], t, what) && Touches(states[i], u, what)
    ensures exists v :: (v == t || v == u) && states[i][v].rest[0] == Peek(what) && v < |tasks| && tasks[v].Ticking?
  {
    RunOrderly(shards, tasks, states, chosen, i);
    RunPeeksInTicks(shards, tasks, states, chosen, i);
    var threads := states[i];
    assert Ordered(threads[t].held, threads[t].rest, {}) && Ordered(threads[u].held, threads[u].rest, {});
    assert threads[t].held !! threads[u].held;
    assert threads[t].rest[0] == Access(what) ==> Guard(what) in threads[t].held;
    assert threads[u].rest[0] == Access(what) ==> Guard(what) !in threads[t].held;
    var v := if threads[t].rest[0] == Peek(what) then t else u;
    assert threads[v].rest[0].Peek?;
  }

  /** And that happens: a tick peeks at the new endpoints while a packet task adds one. */
  lemma PeekRaces() returns (tasks: seq<Task>, states: seq<seq<Thread>>, chosen: seq<nat>)
    ensures IsRun(1, tasks, states, chosen)
    ensures Touches(states[|chosen|], 0, Registry) && states[|chosen|][0].rest[0].Peek?
    ensures Touches(states[|chosen|], 1, Registry) && states[|chosen|][1].rest[0].Access?
  {
    tasks := [Ticking(true, {}, 0), Packet(0, true)];
    var s0 := Start(1, tasks);
    assert s0[1].rest[0] == Acquire(Local(0)) && s0[1].rest[1] == Access(Shard(0));
    assert s0[1].rest[2] == Acquire(SharedLock) && s0[1].rest[3] == Access(Registry);
    assert Free(s0, Local(0));
    var s1 := StepOf(s0, 1);
    assert s1[1].rest == s0[1].rest[1..];
    var s2 := StepOf(s1, 1);
    assert s2[1].rest == s0[1].rest[2..];
    assert s2[1].rest[0] == Acquire(SharedLock) && Free(s2, SharedLock);
    var s3 := StepOf(s2, 1);
    assert s3[1].rest == s0[1].rest[3..];
    states, chosen := [s0, s1, s2, s3], [1, 1, 1];
    assert s3[0] == s0[0] && s0[0].rest[0] == Peek(Registry);
  }

  // ---------------------------------------------------------------- a teardown is one section

  /** A thread that holds the disconnect lock uses the registry only with every shard locked,
      and shard `k` only with this and all later ones locked. */
  ghost predicate Covers(shards: nat, held: set<Lock>, rest: seq<Instruction>)
    decreases |rest|
  {
    rest != [] ==>
      && (rest[0].Access? && DisconnectLock in held ==>
           && (rest[0].what.Registry? ==> Locals(0, shards) <= held)
           && (rest[0].what.Shard? ==> Locals(rest[0].what.id, shards) <= held))
      && Covers(shards, HeldAfter(held, rest[0]), rest[1..])
  }

  lemma {:induction false} CoversConcat(shards: nat, held: set<Lock>, a: seq<Instruction>, middle: set<Lock>,
      b: seq<Instruction>)
    requires Ordered(held, a, middle) && Covers(shards, held, a) && Covers(shards, middle, b)
    ensures Covers(shards, held, a + b)
    decreases |a|
  {
    if a == [] {
      assert a + b == b;
    } else {
      CoversConcat(shards, HeldAfter(held, a[0]), a[1..], middle, b);
      assert (a + b)[1..] == a[1..] + b;
    }
  }

  /** Where the disconnect lock is neither held nor taken there is nothing to cover. */
  lemma {:induction false} Uncovered(shards: nat, held: set<Lock>, rest: seq<Instruction>)
    requires DisconnectLock !in held && Acquire(DisconnectLock) !in rest
    ensures Covers(shards, held, rest)
    decreases |rest|
  {
    if rest != [] {
      Uncovered(shards, HeldAfter(held, rest[0]), rest[1..]);
    }
  }

  lemma {:induction false} AcquireLocalsCovers(shards: nat, n: nat)
    ensures Covers(shards, {DisconnectLock}, AcquireLocals(n))
  {
    if n > 0 {
      AcquireLocalsCovers(shards, n - 1);
      AcquireLocalsOrdered(n - 1);
      assert [Acquire(Local(n - 1))][1..] == [];
      CoversConcat(shards, {DisconnectLock}, AcquireLocals(n - 1), {DisconnectLock} + Locals(0, n - 1),
          [Acquire(Local(n - 1))]);
    }
  }

  lemma {:induction false} ClearLocalsCovers(shards: nat, k: nat)
    requires k <= shards
    ensures Covers(shards, {DisconnectLock} + Locals(0, shards), ClearLocals(k))
  {
    if k > 0 {
      ClearLocalsCovers(shards, k - 1);
      ClearLocalsOrdered(k - 1, shards);
      var held, last := {DisconnectLock} + Locals(k - 1, shards), [Access(Shard(k - 1)), Release(Local(k - 1))];
      assert last[1..] == [Release(Local(k - 1))] && last[1..][1..] == [];
      assert Covers(shards, held, last);
      CoversConcat(shards, {DisconnectLock} + Locals(0, shards), ClearLocals(k - 1), held, last);
    }
  }

  lemma TeardownCovers(n: nat)
    ensures Covers(n, {DisconnectLock}, Teardown(n))
  {
    var one, all := {DisconnectLock}, {DisconnectLock} + Locals(0, n);
    assert [Access(Requests)][1..] == [];
    assert Covers(n, one, [Access(Requests)]);
    One(one, Access(Requests));
    AcquireLocalsCovers(n, n);
    AcquireLocalsOrdered(n);
    UseCovers(n, all);
    UseOrdered(all, Registry);
    ClearLocalsCovers(n, n);
    CoversConcat(n, all, Use(Registry), all, ClearLocals(n));
    OrderedConcat(one, [Access(Requests)], one, AcquireLocals(n), all);
    CoversConcat(n, one, [Access(Requests)], one, AcquireLocals(n));
    CoversConcat(n, one, [Access(Requests)] + AcquireLocals(n), all, Use(Registry) + ClearLocals(n));
    assert [Access(Requests)] + AcquireLocals(n) + (Use(Registry) + ClearLocals(n)) == Teardown(n);
  }

  lemma UseCovers(n: nat, held: set<Lock>)
    requires Locals(0, n) <= held
    ensures Covers(n, held, Use(Registry))
  {
    assert Use(Registry)[1..] == [Access(Registry), Release(SharedLock)];
    assert Use(Registry)[1..][1..] == [Release(SharedLock)] && Use(Registry)[1..][1..][1..] == [];
  }

  lemma {:induction false} TeardownsCover(n: nat, count: nat)
    ensures Covers(n, {DisconnectLock}, Teardowns(n, count))
  {
    if count > 0 {
      TeardownsCover(n, count - 1);
      TeardownsOrdered(n, count - 1);
      TeardownCovers(n);
      CoversConcat(n, {DisconnectLock}, Teardowns(n, count - 1), {DisconnectLock}, Teardown(n));
    }
  }

  lemma {:induction false} CollectsNoDisconnect(n: nat, empty: set<nat>)
    ensures Acquire(DisconnectLock) !in CollectShards(n, empty)
  {
    if n > 0 {
      CollectsNoDisconnect(n - 1, empty);
    }
  }

  /** A tick up to its peek at the requests. */
  function Opening(n: nat, anyNew: bool, empty: set<nat>): seq<Instruction> {
    CreateClients(anyNew) + CollectShards(n, empty) + [Peek(Requests)]
  }

  lemma OpeningOrdered(n: nat, anyNew: bool, empty: set<nat>)
    ensures Ordered({}, Opening(n, anyNew, empty), {})
  {
    CreateClientsOrdered(anyNew);
    CollectShardsOrdered(n, empty);
    One({}, Peek(Requests));
    OrderedConcat({}, CreateClients(anyNew), {}, CollectShards(n, empty), {});
    OrderedConcat({}, CreateClients(anyNew) + CollectShards(n, empty), {}, [Peek(Requests)], {});
  }

  lemma OpeningCovers(n: nat, anyNew: bool, empty: set<nat>)
    ensures Covers(n, {}, Opening(n, anyNew, empty))
  {
    CollectsNoDisconnect(n, empty);
    hide CollectShards;
    Uncovered(n, {}, Opening(n, anyNew, empty));
  }

  lemma TickCovers(n: nat, anyNew: bool, empty: set<nat>, count: nat)
    ensures Covers(n, {}, Tick(n, anyNew, empty, count))
  {
    hide CollectShards;
    hide CreateClients;
    hide Ordered;
    hide Covers;
    OpeningOrdered(n, anyNew, empty);
    OpeningCovers(n, anyNew, empty);
    var front := Opening(n, anyNew, empty);
    if count == 0 {
      assert Tick(n, anyNew, empty, count) == front;
    } else {
      ClosingCovers(n, count);
      var closing := [Acquire(DisconnectLock)] + Teardowns(n, count) + [Access(Requests), Release(DisconnectLock)];
      CoversConcat(n, {}, front, {}, closing);
      assert Tick(n, anyNew, empty, count) == front + closing;
    }
  }

  lemma ClosingCovers(n: nat, count: nat)
    ensures Covers(n, {}, [Acquire(DisconnectLock)] + Teardowns(n, count) + [Access(Requests), Release(DisconnectLock)])
  {
    var one, last := {DisconnectLock}, [Access(Requests), Release(DisconnectLock)];
    assert last[1..] == [Release(DisconnectLock)] && last[1..][1..] == [];
    assert Covers(n, one, last);
    TeardownsCover(n, count);
    TeardownsOrdered(n, count);
    CoversConcat(n, one, Teardowns(n, count), one, last);
    assert [Acquire(DisconnectLock)][1..] == [] && HeldAfter({}, Acquire(DisconnectLock)) == one;
    assert Covers(n, {}, [Acquire(DisconnectLock)]);
    One({}, Acquire(DisconnectLock));
    CoversConcat(n, {}, [Acquire(DisconnectLock)], one, Teardowns(n, count) + last);
    assert [Acquire(DisconnectLock)] + (Teardowns(n, count) + last) ==
           [Acquire(DisconnectLock)] + Teardowns(n, count) + last;
  }

  lemma ProgramCovers(shards: nat, task: Task)
    ensures Covers(shards, {}, Program(shards, task))
  {
    match task
    case Packet(id, isNew) => Uncovered(shards, {}, PacketTask(id, isNew));
    case Request =>
      assert Use(Requests)[1..] == [Access(Requests), Release(DisconnectLock)];
      assert Use(Requests)[1..][1..] == [Release(DisconnectLock)] && Use(Requests)[1..][1..][1..] == [];
    case Ticking(anyNew, empty, count) => TickCovers(shards, anyNew, empty, count);
  }

  lemma {:induction false} RunCovers(shards: nat, tasks: seq<Task>,
      states: seq<seq<Thread>>, chosen: seq<nat>, i: nat, t: nat)
    requires IsRun(shards, tasks, states, chosen) && i <= |chosen| && t < |states[i]|
    ensures Covers(shards, states[i][t].held, states[i][t].rest)
  {
    if i == 0 {
      ProgramCovers(shards, tasks[t]);
    } else {
      RunCovers(shards, tasks, states, chosen, i - 1, t);
    }
  }

  /** A teardown is one section for the packet tasks: in every reachable state, while a tick
      that holds the disconnect lock is about to use the registry, no other thread is in a
      section of any shard, and while it is about to clear shard `k`, none is in a section of
      that shard or a later one. */
  lemma TeardownIsOneSection(shards: nat, tasks: seq<Task>, states: seq<seq<Thread>>, chosen: seq<nat>, i: nat,
      t: nat, u: nat, j: nat)
    requires IsRun(shards, tasks, states, chosen) && i <= |chosen|
    requires t < |states[i]| && u < |states[i]| && t != u && j < shards
    requires DisconnectLock in states[i][t].held && states[i][t].rest != []
    requires states[i][t].rest[0] == Access(Registry) ||
             exists k: nat :: k <= j && states[i][t].rest[0] == Access(Shard(k))
    ensures Local(j) !in states[i][u].held
    ensures states[i][u].rest != [] ==> states[i][u].rest[0] != Access(Shard(j))
  {
    RunCovers(shards, tasks, states, chosen, i, t);
    RunOrderly(shards, tasks, states, chosen, i);
    var threads := states[i];
    assert Local(j) in threads[t].held;
    assert threads[t].held !! threads[u].held;
    assert Ordered(threads[u].held, threads[u].rest, {});
  }

  // ---------------------------------------------------------------- no deadlock

  /** Thread `t` wants a lock that thread `u` holds. */
  predicate WaitsFor(threads: seq<Thread>, t: nat, u: nat) {
    && t < |threads| && u < |threads|
    && threads[t].rest != [] && threads[t].rest[0].Acquire? && threads[t].rest[0].lock in threads[u].held
  }

  ghost predicate IsWaitPath(threads: seq<Thread>, path: seq<nat>) {
    && |path| >= 2 && (forall k :: 0 <= k < |path| ==> path[k] < |threads|)
    && forall k :: 0 <= k < |path| - 1 ==> WaitsFor(threads, path[k], path[k + 1])
  }

  lemma Wants(threads: seq<Thread>, t: nat, u: nat)
    requires Orderly(threads) && WaitsFor(threads, t, u) && threads[u].rest != [] && threads[u].rest[0].Acquire?
    ensures Below(threads[t].rest[0].lock, threads[u].rest[0].lock)
  {
    assert Ordered(threads[u].held, threads[u].rest, {});
  }

  /** Along a path of waiting threads the wanted locks only go up. */
  lemma {:induction false} WantsRise(threads: seq<Thread>, path: seq<nat>)
    requires Orderly(threads) && IsWaitPath(threads, path)
    requires threads[path[|path| - 1]].rest != [] && threads[path[|path| - 1]].rest[0].Acquire?
    ensures threads[path[0]].rest != [] && threads[path[0]].rest[0].Acquire?
    ensures Below(threads[path[0]].rest[0].lock, threads[path[|path| - 1]].rest[0].lock)
  {
    assert WaitsFor(threads, path[0], path[1]);
    if |path| > 2 {
      assert WaitsFor(threads, path[1], path[2]);
    }
    Wants(threads, path[0], path[1]);
    if |path| > 2 {
      assert forall k :: 0 <= k < |path| - 2 ==> WaitsFor(threads, path[1..][k], path[1..][k + 1]);
      WantsRise(threads, path[1..]);
    }
  }

  /** In every reachable state the wait-for graph is acyclic. */
  lemma NoWaitCycle(shards: nat, tasks: seq<Task>, states: seq<seq<Thread>>, chosen: seq<nat>, i: nat, path: seq<nat>)
    requires IsRun(shards, tasks, states, chosen) && i <= |chosen| && IsWaitPath(states[i], path)
    ensures path[0] != path[|path| - 1]
  {
    RunOrderly(shards, tasks, states, chosen, i);
    assert WaitsFor(states[i], path[0], path[1]);
    if path[0] == path[|path| - 1] {
      WantsRise(states[i], path);
    }
  }

  /** The end of a chain of waiting threads can move. Starting from a lock holder, the chain
      passes through lock holders only. */
  lemma {:induction false} HolderMoves(threads: seq<Thread>, t: nat, above: set<Lock>) returns (u: nat)
    requires Orderly(threads) && t < |threads| && threads[t].held != {}
    requires forall l :: l in above <==>
             (exists v :: 0 <= v < |threads| && l in threads[v].held) && forall h :: h in threads[t].held ==>
             Below(h, l)
    ensures CanStep(threads, u) && threads[u].held != {}
    decreases above
  {
    assert Ordered(threads[t].held, threads[t].rest, {});
    if CanStep(threads, t) {
      u := t;
    } else {
      var lock := threads[t].rest[0].lock;
      var v :| 0 <= v < |threads| && lock in threads[v].held;
      var higher := set l | l in above && forall h :: h in threads[v].held ==> Below(h, l);
      forall l | exists w :: 0 <= w < |threads| && l in threads[w].held
        ensures (forall h :: h in threads[v].held ==> Below(h, l)) ==> l in above
      {
        if forall h :: h in threads[v].held ==> Below(h, l) {
          assert Below(lock, l);
        }
      }
      assert lock in above && lock !in higher;
      u := HolderMoves(threads, v, higher);
    }
  }

  /** Deadlock freedom: in every reachable state, if some lock is held then some holder of a
      lock can step, and if some task is unfinished then some task can. */
  lemma SomeoneMoves(shards: nat, tasks: seq<Task>, states: seq<seq<Thread>>, chosen: seq<nat>, i: nat, t: nat)
      returns (u: nat)
    requires IsRun(shards, tasks, states, chosen) && i <= |chosen|
    requires t < |states[i]| && states[i][t].rest != []
    ensures CanStep(states[i], u)
    ensures (exists v :: 0 <= v < |states[i]| && states[i][v].held != {}) ==> states[i][u].held != {}
  {
    RunOrderly(shards, tasks, states, chosen, i);
    var threads := states[i];
    if v :| 0 <= v < |threads| && threads[v].held != {} {
      var owned := set w, l | 0 <= w < |threads| && l in threads[w].held :: l;
      u := HolderMoves(threads, v, set l | l in owned && forall h :: h in threads[v].held ==> Below(h, l));
    } else {
      assert Ordered(threads[t].held, threads[t].rest, {});
      u := t;
    }
  }

  // ---------------------------------------------------------------- every task finishes

  function Remaining(threads: seq<Thread>): nat {
    if threads == [] then 0 else Remaining(threads[..|threads| - 1]) + |threads[|threads| - 1].rest|
  }

  lemma {:induction false} StepRemains(threads: seq<Thread>, t: nat, thread: Thread)
    requires t < |threads| && |thread.rest| == |threads[t].rest| - 1
    ensures Remaining(threads[t := thread]) == Remaining(threads) - 1
  {
    var n := |threads| - 1;
    if t < n {
      StepRemains(threads[..n], t, thread);
      assert threads[t := thread][..n] == threads[..n][t := thread];
    } else {
      assert threads[t := thread][..n] == threads[..n];
    }
  }

  lemma {:induction false} NothingRemains(threads: seq<Thread>)
    ensures Remaining(threads) == 0 <==> forall t :: 0 <= t < |threads| ==> threads[t].rest == []
  {
    if threads != [] {
      NothingRemains(threads[..|threads| - 1]);
    }
  }

  /** However the threads are scheduled, after exactly as many steps as there are instructions
      every task is done; and a run that stops before has a thread that can go on. */
  lemma {:induction false} EveryScheduleFinishes(shards: nat, tasks: seq<Task>,
      states: seq<seq<Thread>>, chosen: seq<nat>)
    requires IsRun(shards, tasks, states, chosen)
    ensures |chosen| + Remaining(states[|chosen|]) == Remaining(Start(shards, tasks))
    ensures |chosen| == Remaining(Start(shards, tasks)) <==>
            forall t :: 0 <= t < |states[|chosen|]| ==> states[|chosen|][t].rest == []
  {
    var n := |chosen|;
    if n > 0 {
      assert IsRun(shards, tasks, states[..n], chosen[..n - 1]);
      EveryScheduleFinishes(shards, tasks, states[..n], chosen[..n - 1]);
      StepRemains(states[n - 1], chosen[n - 1], states[n][chosen[n - 1]]);
    }
    NothingRemains(states[n]);
  }
}
