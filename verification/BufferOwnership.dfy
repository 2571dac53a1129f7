/** Where every pooled object is, over whole runs: receives, packet tasks, the plugin with
    all its interleavings, and users that release what they were handed. */
module BufferOwnership {
  import opened EndpointState
  import opened CoreLoop
  import EndpointProtocol
  import EndpointInvariant

  /** A datagram as the socket delivered it. */
  datatype Received = Received(id: nat, address: nat, payload: Payload)

  /** `finishing` are the endpoint objects of packet tasks that have stored their buffer;
      `users` and `dropped` are the buffers handed to the client of an endpoint and not
      released, and those its teardowns dropped. `received` is the log of all datagrams and
      `filled` names the last one received into each buffer. */
  datatype State = State(
    loop: Loop,
    finishing: seq<nat>,
    protocol: EndpointProtocol.State,
    users: map<nat, seq<nat>>,
    dropped: map<nat, seq<nat>>,
    received: seq<Received>,
    filled: map<nat, nat>)

  datatype Step =
    | ArmReceive(id: nat, choice: nat, other: nat)
    | DatagramArrives(id: nat, address: nat, payload: Payload)
    | ReceiveFails(id: nat)
    | RunTask(index: nat)
    | ReleaseEndpoint(index: nat)
    | PluginStep(step: EndpointProtocol.Step)
    | UserReleases(endpoint: nat, index: nat)

  function Initial(shards: nat): State {
    State(Loop(Pool([], 0), Pool([], 0), map[], [], map[], map[]), [], EndpointProtocol.Initial(shards),
        map[], map[], [], map[])
  }

  function Buffers(inputs: seq<Input>): seq<nat> {
    seq(|inputs|, k requires 0 <= k < |inputs| => inputs[k].buffer)
  }

  /** The protocol's step of the packet task `task`, which reads the sender's address from
      its endpoint object. */
  function PacketOf(l: Loop, task: Task): EndpointProtocol.Step {
    var address := if task.endpoint in l.addresses then l.addresses[task.endpoint] else 0;
    EndpointProtocol.PacketTask(task.id, address, task.buffer)
  }

  predicate Enabled(s: State, step: Step) {
    match step
    case ArmReceive(i, _, _) => i !in s.loop.armed && i < |s.protocol.plugin.locals|
    case DatagramArrives(i, _, _) => i in s.loop.armed
    case ReceiveFails(i) => i in s.loop.armed
    case RunTask(k) => k < |s.loop.tasks| && EndpointProtocol.Enabled(s.protocol, PacketOf(s.loop, s.loop.tasks[k]))
    case ReleaseEndpoint(k) => k < |s.finishing|
    case PluginStep(step) => !step.PacketTask? && EndpointProtocol.Enabled(s.protocol, step)
    case UserReleases(e, k) => k < |At(s.users, e)|
  }

  function Next(s: State, step: Step): State
    requires Enabled(s, step)
  {
    var l := s.loop;
    match step
    case ArmReceive(i, choice, other) => s.(loop := Arm(l, i, choice, other))
    case DatagramArrives(i, address, payload) =>
      s.(loop := Receive(l, i, address, payload), received := s.received + [Received(i, address, payload)],
         filled := s.filled[l.armed[i].buffer := |s.received|])
    case ReceiveFails(i) => s.(loop := Fail(l, i))
    case RunTask(k) =>
      s.(loop := l.(tasks := Removed(l.tasks, k)), finishing := s.finishing + [l.tasks[k].endpoint],
         protocol := EndpointProtocol.Next(s.protocol, PacketOf(l, l.tasks[k])))
    case ReleaseEndpoint(k) =>
      s.(finishing := Removed(s.finishing, k), loop := l.(objects := Returned(l.objects, s.finishing[k])))
    case PluginStep(step) =>
      s.(protocol := EndpointProtocol.Next(s.protocol, step), users := UsersAfter(s, step),
          dropped := DroppedAfter(s, step))
    case UserReleases(e, k) =>
      s.(users := s.users[e := Removed(s.users[e], k)], loop := l.(buffers := Returned(l.buffers, s.users[e][k])))
  }

  /** Delivery hands every client its list. */
  function UsersAfter(s: State, step: EndpointProtocol.Step): map<nat, seq<nat>> {
    if step.DeliverInputs? then
      map e | e in s.users.Keys + s.protocol.plugin.data.Keys :: At(s.users, e) + Buffers(At(s.protocol.plugin.data, e))
    else s.users
  }

  /** A teardown drops what the client and the shards still hold. */
  function DroppedAfter(s: State, step: EndpointProtocol.Step): map<nat, seq<nat>>
    requires EndpointProtocol.Enabled(s.protocol, step)
  {
    var p := s.protocol.plugin;
    if step.EraseClient? then
      var e := p.disconnects[s.protocol.phase.index];
      Appended(s.dropped, e, Buffers(At(p.data, e)))
    else if step.ClearShard? then
      var e := p.disconnects[s.protocol.phase.index];
      Appended(s.dropped, e, Buffers(At(p.pending[s.protocol.phase.stage.shard], e)))
    else s.dropped
  }

  function Appended(m: map<nat, seq<nat>>, e: nat, more: seq<nat>): map<nat, seq<nat>> {
    m[e := At(m, e) + more]
  }

  ghost predicate IsRun(shards: nat, states: seq<State>, steps: seq<Step>) {
    && |states| == |steps| + 1 && states[0] == Initial(shards)
    && forall i :: 0 <= i < |steps| ==> Enabled(states[i], steps[i]) && states[i + 1] == Next(states[i], steps[i])
  }

  // ---------------------------------------------------------------- places

  datatype Place =
    | FreeBuffers | ArmedBuffer(id: nat) | TaskBuffers
    | PendingList(id: nat, endpoint: nat) | ClientList(endpoint: nat)
    | UserList(endpoint: nat) | DroppedList(endpoint: nat)
    | FreeObjects | ArmedObject(id: nat) | TaskObjects | FinishingObjects

  datatype Kind = NetworkBuffer | EndpointObject

  function KindOf(p: Place): Kind {
    if p.FreeObjects? || p.ArmedObject? || p.TaskObjects? || p.FinishingObjects? then EndpointObject else NetworkBuffer
  }

  function BuffersOf(tasks: seq<Task>): (list: seq<nat>)
    ensures |list| == |tasks| && forall k :: 0 <= k < |tasks| ==> list[k] == tasks[k].buffer
  {
    seq(|tasks|, k requires 0 <= k < |tasks| => tasks[k].buffer)
  }

  function ObjectsOf(tasks: seq<Task>): (list: seq<nat>)
    ensures |list| == |tasks| && forall k :: 0 <= k < |tasks| ==> list[k] == tasks[k].endpoint
  {
    seq(|tasks|, k requires 0 <= k < |tasks| => tasks[k].endpoint)
  }

  lemma TasksRemoved(tasks: seq<Task>, k: nat)
    requires k < |tasks|
    ensures BuffersOf(Removed(tasks, k)) == Removed(BuffersOf(tasks), k)
    ensures ObjectsOf(Removed(tasks, k)) == Removed(ObjectsOf(tasks), k)
  {
  }

  lemma TasksAppended(tasks: seq<Task>, task: Task)
    ensures BuffersOf(tasks + [task]) == BuffersOf(tasks) + [task.buffer]
    ensures ObjectsOf(tasks + [task]) == ObjectsOf(tasks) + [task.endpoint]
  {
  }

  /** The objects at a place. */
  function ListAt(s: State, p: Place): seq<nat> {
    var l, plugin := s.loop, s.protocol.plugin;
    match p
    case FreeBuffers => l.buffers.free
    case ArmedBuffer(i) => if i in l.armed then [l.armed[i].buffer] else []
    case TaskBuffers => BuffersOf(l.tasks)
    case PendingList(i, e) => if i < |plugin.pending| then Buffers(At(plugin.pending[i], e)) else []
    case ClientList(e) => Buffers(At(plugin.data, e))
    case UserList(e) => At(s.users, e)
    case DroppedList(e) => At(s.dropped, e)
    case FreeObjects => l.objects.free
    case ArmedObject(i) => if i in l.armed then [l.armed[i].endpoint] else []
    case TaskObjects => ObjectsOf(l.tasks)
    case FinishingObjects => s.finishing
  }

  function Allocated(s: State, kind: Kind): nat {
    if kind.NetworkBuffer? then s.loop.buffers.made else s.loop.objects.made
  }

  predicate NoDup(s: seq<nat>) {
    forall j, k :: 0 <= j < k < |s| ==> s[j] != s[k]
  }

  /** `home` gives every object ever made its place: it is there once, and nowhere else. */
  ghost predicate Housed(s: State, kind: Kind, home: map<nat, Place>) {
    && (forall b: nat :: b in home <==> b < Allocated(s, kind))
    && (forall b :: b in home ==> KindOf(home[b]) == kind)
    && (forall p :: KindOf(p) == kind ==> Houses(ListAt(s, p), p, home))
  }

  ghost predicate Houses(list: seq<nat>, p: Place, home: map<nat, Place>) {
    NoDup(list) && forall b: nat :: b in list <==> b in home && home[b] == p
  }

  // ---------------------------------------------------------------- moving between places

  lemma Unmoved(s: State, t: State, kind: Kind, home: map<nat, Place>)
    requires Housed(s, kind, home) && Allocated(t, kind) == Allocated(s, kind)
    requires forall p :: KindOf(p) == kind ==> ListAt(t, p) == ListAt(s, p)
    ensures Housed(t, kind, home)
  {
  }

  lemma RemovedIs(list: seq<nat>, k: nat)
    requires k < |list| && NoDup(list)
    ensures NoDup(Removed(list, k))
    ensures forall b :: b in Removed(list, k) <==> b in list && b != list[k]
  {
    forall b | b in list && b != list[k]
      ensures b in Removed(list, k)
    {
      var j :| 0 <= j < |list| && list[j] == b;
      assert Removed(list, k)[if j < k then j else j - 1] == b;
    }
  }

  /** The object at position `k` of one place moves to the end of another. */
  lemma Moved(s: State, t: State, kind: Kind, home: map<nat, Place>, from: Place, k: nat, to: Place)
    requires Housed(s, kind, home) && Allocated(t, kind) == Allocated(s, kind)
    requires from != to && KindOf(from) == kind == KindOf(to) && k < |ListAt(s, from)|
    requires ListAt(t, from) == Removed(ListAt(s, from), k)
    requires ListAt(t, to) == ListAt(s, to) + [ListAt(s, from)[k]]
    requires forall p :: KindOf(p) == kind && p != from && p != to ==> ListAt(t, p) == ListAt(s, p)
    ensures Housed(t, kind, home[ListAt(s, from)[k] := to])
  {
    var b := ListAt(s, from)[k];
    hide ListAt;
    hide Allocated;
    hide Removed;
    hide Houses;
    assert Houses(ListAt(s, from), from, home);
    TakenFrom(ListAt(s, from), k, from, home, to);
    forall p | KindOf(p) == kind
      ensures Houses(ListAt(t, p), p, home[b := to])
    {
      assert Houses(ListAt(s, p), p, home);
      if p == to {
        PutAt(ListAt(s, to), to, home, b);
      } else if p != from {
        Elsewhere(ListAt(s, p), p, home, b, to);
      }
    }
  }

  lemma TakenFrom(list: seq<nat>, k: nat, p: Place, home: map<nat, Place>, to: Place)
    requires Houses(list, p, home) && k < |list| && p != to
    ensures list[k] in home && home[list[k]] == p && Houses(Removed(list, k), p, home[list[k] := to])
  {
    RemovedIs(list, k);
    assert list[k] in list;
    hide Removed;
  }

  lemma PutAt(list: seq<nat>, p: Place, home: map<nat, Place>, b: nat)
    requires Houses(list, p, home) && (b in home ==> home[b] != p)
    ensures Houses(list + [b], p, home[b := p])
  {
    assert b !in list;
  }

  lemma Elsewhere(list: seq<nat>, p: Place, home: map<nat, Place>, b: nat, to: Place)
    requires Houses(list, p, home) && (b in home ==> home[b] != p) && p != to
    ensures Houses(list, p, home[b := to])
  {
  }

  /** A new object appears at a place. */
  lemma Appeared(s: State, t: State, kind: Kind, home: map<nat, Place>, to: Place)
    requires Housed(s, kind, home) && Allocated(t, kind) == Allocated(s, kind) + 1 && KindOf(to) == kind
    requires ListAt(t, to) == ListAt(s, to) + [Allocated(s, kind)]
    requires forall p :: KindOf(p) == kind && p != to ==> ListAt(t, p) == ListAt(s, p)
    ensures Housed(t, kind, home[Allocated(s, kind) := to])
  {
    hide ListAt;
    hide Allocated;
    hide Houses;
    var b := Allocated(s, kind);
    assert b !in home;
    forall p | KindOf(p) == kind
      ensures Houses(ListAt(t, p), p, home[b := to])
    {
      assert Houses(ListAt(s, p), p, home);
      if p == to {
        PutAt(ListAt(s, to), to, home, b);
      } else {
        Elsewhere(ListAt(s, p), p, home, b, to);
      }
    }
  }

  lemma Joined(a: seq<nat>, p: Place, b: seq<nat>, q: Place, home: map<nat, Place>)
    requires Houses(a, p, home) && Houses(b, q, home) && p != q
    ensures NoDup(a + b)
    ensures forall x: nat :: x in a + b <==> x in home && (home[x] == p || home[x] == q)
  {
    forall j, k | 0 <= j < k < |a + b|
      ensures (a + b)[j] != (a + b)[k]
    {
      if j < |a| <= k {
        assert a[j] in a && b[k - |a|] in b;
      }
    }
  }

  /** Into which place a step of the plugin pours all that is at `p`; `p` itself if none. */
  function Target(s: State, step: EndpointProtocol.Step, p: Place): Place {
    var plugin, phase := s.protocol.plugin, s.protocol.phase;
    if step.CollectShard? && phase.Collecting? && p.PendingList? && p.id == phase.shard &&
        p.endpoint in plugin.data then
      ClientList(p.endpoint)
    else if step.DeliverInputs? && p.ClientList? && p.endpoint in plugin.data then UserList(p.endpoint)
    else if phase.Closing? && phase.index < |plugin.disconnects| then
      var e := plugin.disconnects[phase.index];
      if step.EraseClient? && p == ClientList(e) then DroppedList(e)
      else if step.ClearShard? && phase.stage.Clearing? && p == PendingList(phase.stage.shard, e) then DroppedList(e)
      else p
    else p
  }

  lemma TargetIsOneToOne(s: State, step: EndpointProtocol.Step, p: Place, q: Place)
    requires Target(s, step, p) != p
    ensures Target(s, step, Target(s, step, p)) == Target(s, step, p)
    ensures KindOf(p) == NetworkBuffer == KindOf(Target(s, step, p)) && Target(s, step, p).endpoint == p.endpoint
    ensures p != q && Target(s, step, q) != q ==> Target(s, step, p) != Target(s, step, q)
  {
  }

  ghost function Rehomed(s: State, step: EndpointProtocol.Step, home: map<nat, Place>): map<nat, Place> {
    map b | b in home :: Target(s, step, home[b])
  }

  /** What becomes of the list at `p`. */
  ghost predicate Pours(s: State, t: State, step: EndpointProtocol.Step, p: Place) {
    && (Target(s, step, p) != p ==> ListAt(t, p) == [])
    && (forall q :: q != p && Target(s, step, q) == p ==> ListAt(t, p) == ListAt(s, p) + ListAt(s, q))
    && ((forall q :: Target(s, step, q) == p ==> q == p) && Target(s, step, p) == p ==> ListAt(t, p) == ListAt(s, p))
  }

  lemma PouredInto(s: State, t: State, step: EndpointProtocol.Step, home: map<nat, Place>, p: Place, q: Place)
    requires Houses(ListAt(s, p), p, home) && Houses(ListAt(s, q), q, home)
    requires Pours(s, t, step, p) && q != p && Target(s, step, q) == p
    ensures Houses(ListAt(t, p), p, Rehomed(s, step, home))
  {
    hide ListAt;
    hide Target;
    var after := Rehomed(s, step, home);
    TargetIsOneToOne(s, step, q, q);
    Joined(ListAt(s, p), p, ListAt(s, q), q, home);
    forall b | b in after && after[b] == p
      ensures home[b] == p || home[b] == q
    {
      TargetIsOneToOne(s, step, q, home[b]);
    }
  }

  lemma PouredOut(s: State, t: State, step: EndpointProtocol.Step, home: map<nat, Place>, p: Place)
    requires Pours(s, t, step, p) && Target(s, step, p) != p && forall q :: Target(s, step, q) == p ==> q == p
    ensures Houses(ListAt(t, p), p, Rehomed(s, step, home))
  {
    hide ListAt;
    hide Target;
  }

  lemma PouredPast(s: State, t: State, step: EndpointProtocol.Step, home: map<nat, Place>, p: Place)
    requires Houses(ListAt(s, p), p, home)
    requires Pours(s, t, step, p) && Target(s, step, p) == p && forall q :: Target(s, step, q) == p ==> q == p
    ensures Houses(ListAt(t, p), p, Rehomed(s, step, home))
  {
    hide ListAt;
    hide Target;
  }

  lemma PouredAt(s: State, t: State, step: EndpointProtocol.Step, home: map<nat, Place>, p: Place)
    requires forall q :: KindOf(q) == NetworkBuffer ==> Houses(ListAt(s, q), q, home)
    requires Pours(s, t, step, p) && KindOf(p) == NetworkBuffer
    ensures Houses(ListAt(t, p), p, Rehomed(s, step, home))
  {
    hide ListAt;
    hide Target;
    hide Houses;
    hide Pours;
    hide Rehomed;
    if q :| q != p && Target(s, step, q) == p {
      TargetIsOneToOne(s, step, q, q);
      PouredInto(s, t, step, home, p, q);
    } else if Target(s, step, p) != p {
      PouredOut(s, t, step, home, p);
    } else {
      PouredPast(s, t, step, home, p);
    }
  }

  /** Pouring leaves every object at one place, once. */
  lemma Poured(s: State, t: State, step: EndpointProtocol.Step, home: map<nat, Place>)
    requires Housed(s, NetworkBuffer, home) && Allocated(t, NetworkBuffer) == Allocated(s, NetworkBuffer)
    requires forall p :: KindOf(p) == NetworkBuffer ==> Pours(s, t, step, p)
    ensures Housed(t, NetworkBuffer, Rehomed(s, step, home))
  {
    hide ListAt;
    hide Allocated;
    hide Target;
    hide Houses;
    hide Pours;
    var after := Rehomed(s, step, home);
    forall b | b in after
      ensures KindOf(after[b]) == NetworkBuffer
    {
      if after[b] != home[b] {
        TargetIsOneToOne(s, step, home[b], home[b]);
      }
    }
    forall p | KindOf(p) == NetworkBuffer
      ensures Houses(ListAt(t, p), p, after)
    {
      PouredAt(s, t, step, home, p);
    }
  }

  // ---------------------------------------------------------------- every step

  /** Every shard has a list exactly for the endpoints it knows. */
  ghost predicate Paired(p: Plugin) {
    && WellFormed(p)
    && forall i, e :: 0 <= i < |p.locals| ==> (e in p.locals[i] <==> e in p.pending[i])
  }

  lemma ProtocolPaired(s: EndpointProtocol.State, step: EndpointProtocol.Step)
    requires Paired(s.plugin) && EndpointProtocol.Enabled(s, step)
    ensures Paired(EndpointProtocol.Next(s, step).plugin)
  {
  }

  lemma StepPaired(s: State, step: Step)
    requires Paired(s.protocol.plugin) && Enabled(s, step)
    ensures Paired(Next(s, step).protocol.plugin)
  {
    hide Paired;
    match step
    case RunTask(k) => ProtocolPaired(s.protocol, PacketOf(s.loop, s.loop.tasks[k]));
    case PluginStep(inner) => ProtocolPaired(s.protocol, inner);
    case _ =>
  }

  lemma PopOnly(b: nat)
    ensures Removed([b], 0) == [] && [] + [b] == [b]
  {
  }

  lemma ArmBuffers(s: State, step: Step, home: map<nat, Place>) returns (next: map<nat, Place>)
    requires Housed(s, NetworkBuffer, home) && Enabled(s, step) && step.ArmReceive?
    ensures Housed(Next(s, step), NetworkBuffer, next)
  {
    hide Housed;
    var t := Next(s, step);
    var to := ArmedBuffer(step.id);
    PopOnly(t.loop.armed[step.id].buffer);
    if step.choice < |s.loop.buffers.free| {
      Moved(s, t, NetworkBuffer, home, FreeBuffers, step.choice, to);
      next := home[ListAt(s, FreeBuffers)[step.choice] := to];
    } else {
      Appeared(s, t, NetworkBuffer, home, to);
      next := home[Allocated(s, NetworkBuffer) := to];
    }
  }

  lemma ArmObjects(s: State, step: Step, home: map<nat, Place>) returns (next: map<nat, Place>)
    requires Housed(s, EndpointObject, home) && Enabled(s, step) && step.ArmReceive?
    ensures Housed(Next(s, step), EndpointObject, next)
  {
    hide Housed;
    var t := Next(s, step);
    var to := ArmedObject(step.id);
    PopOnly(t.loop.armed[step.id].endpoint);
    if step.other < |s.loop.objects.free| {
      Moved(s, t, EndpointObject, home, FreeObjects, step.other, to);
      next := home[ListAt(s, FreeObjects)[step.other] := to];
    } else {
      Appeared(s, t, EndpointObject, home, to);
      next := home[Allocated(s, EndpointObject) := to];
    }
  }

  lemma CompletionMoves(s: State, step: Step, home: map<nat, Place>, kind: Kind) returns (next: map<nat, Place>)
    requires Housed(s, kind, home) && Enabled(s, step) && (step.DatagramArrives? || step.ReceiveFails?)
    ensures Housed(Next(s, step), kind, next)
  {
    hide Housed;
    var t := Next(s, step);
    var a := s.loop.armed[step.id];
    PopOnly(a.buffer);
    PopOnly(a.endpoint);
    TasksAppended(s.loop.tasks, Task(step.id, a.endpoint, a.buffer));
    var from, to := ArmedObject(step.id), if step.ReceiveFails? then FreeObjects else TaskObjects;
    if kind.NetworkBuffer? {
      from, to := ArmedBuffer(step.id), if step.ReceiveFails? then FreeBuffers else TaskBuffers;
    }
    Moved(s, t, kind, home, from, 0, to);
    next := home[ListAt(s, from)[0] := to];
  }

  lemma BuffersSnoc(inputs: seq<Input>, input: Input)
    ensures Buffers(inputs + [input]) == Buffers(inputs) + [input.buffer]
  {
  }

  lemma BuffersConcat(a: seq<Input>, b: seq<Input>)
    ensures Buffers(a + b) == Buffers(a) + Buffers(b)
  {
  }

  /** The plugin after a packet task, of which the rest is not needed. */
  lemma TaskPlugin(s: State, k: nat)
    requires Enabled(s, RunTask(k))
    ensures var task := s.loop.tasks[k]; var t := Next(s, RunTask(k));
            && t.protocol.plugin == EndpointState.Packet(s.protocol.plugin, task.id,
                PacketOf(s.loop, task).endpoint, task.buffer)
            && t.loop.tasks == Removed(s.loop.tasks, k) && t.users == s.users && t.dropped == s.dropped
            && t.loop.buffers == s.loop.buffers && t.loop.armed == s.loop.armed
  {
  }

  lemma TaskStoresPending(s: State, k: nat, p: Place)
    requires Paired(s.protocol.plugin) && Enabled(s, RunTask(k)) && p.PendingList?
    ensures var task := s.loop.tasks[k]; var t := Next(s, RunTask(k));
            ListAt(t, p) ==
              if p == PendingList(task.id, PacketOf(s.loop, task).endpoint) then ListAt(s, p) + [task.buffer]
              else ListAt(s, p)
  {
    var task := s.loop.tasks[k];
    var e := PacketOf(s.loop, task).endpoint;
    TaskPlugin(s, k);
    hide Next;
    hide EndpointState.Packet;
    EndpointInvariant.PacketAt(s.protocol.plugin, task.id, e, task.buffer, task.id, e);
    if p.id < |s.protocol.plugin.pending| {
      EndpointInvariant.PacketAt(s.protocol.plugin, task.id, e, task.buffer, p.id, p.endpoint);
      BuffersSnoc(At(s.protocol.plugin.pending[p.id], p.endpoint), Input(task.id, task.buffer));
    }
  }

  lemma TaskStoresElsewhere(s: State, k: nat, p: Place)
    requires Paired(s.protocol.plugin) && Enabled(s, RunTask(k)) && KindOf(p) == NetworkBuffer && !p.PendingList?
    ensures ListAt(Next(s, RunTask(k)), p) == if p == TaskBuffers then Removed(ListAt(s, p), k) else ListAt(s, p)
  {
    var task := s.loop.tasks[k];
    var e := PacketOf(s.loop, task).endpoint;
    TaskPlugin(s, k);
    hide Next;
    hide EndpointState.Packet;
    EndpointInvariant.PacketAt(s.protocol.plugin, task.id, e, task.buffer, task.id, e);
    TasksRemoved(s.loop.tasks, k);
    hide BuffersOf;
    hide ObjectsOf;
    hide Removed;
  }

  /** A packet task stores its buffer in the list its shard has for the sender. */
  lemma TaskStores(s: State, k: nat, p: Place)
    requires Paired(s.protocol.plugin) && Enabled(s, RunTask(k)) && KindOf(p) == NetworkBuffer
    ensures var task := s.loop.tasks[k]; var t := Next(s, RunTask(k));
            ListAt(t, p) ==
              if p == TaskBuffers then Removed(ListAt(s, p), k)
              else if p == PendingList(task.id, PacketOf(s.loop, task).endpoint) then ListAt(s, p) + [task.buffer]
              else ListAt(s, p)
  {
    hide Next;
    hide Paired;
    hide ListAt;
    if p.PendingList? {
      TaskStoresPending(s, k, p);
    } else {
      TaskStoresElsewhere(s, k, p);
    }
  }

  lemma TaskMovesBuffer(s: State, k: nat, home: map<nat, Place>) returns (next: map<nat, Place>)
    requires Paired(s.protocol.plugin) && Housed(s, NetworkBuffer, home) && Enabled(s, RunTask(k))
    ensures Housed(Next(s, RunTask(k)), NetworkBuffer, next)
  {
    var t := Next(s, RunTask(k));
    var to := PendingList(s.loop.tasks[k].id, PacketOf(s.loop, s.loop.tasks[k]).endpoint);
    assert ListAt(s, TaskBuffers)[k] == s.loop.tasks[k].buffer;
    hide Housed;
    hide Paired;
    hide ListAt;
    forall p | KindOf(p) == NetworkBuffer
      ensures ListAt(t, p) == if p == TaskBuffers then Removed(ListAt(s, p), k)
                              else if p == to then ListAt(s, p) + [s.loop.tasks[k].buffer] else ListAt(s, p)
    {
      TaskStores(s, k, p);
    }
    Moved(s, t, NetworkBuffer, home, TaskBuffers, k, to);
    next := home[ListAt(s, TaskBuffers)[k] := to];
  }

  lemma TaskMovesObject(s: State, step: Step, home: map<nat, Place>) returns (next: map<nat, Place>)
    requires Housed(s, EndpointObject, home) && Enabled(s, step) && (step.RunTask? || step.ReleaseEndpoint?)
    ensures Housed(Next(s, step), EndpointObject, next)
  {
    hide Housed;
    var t := Next(s, step);
    var from, to := TaskObjects, FinishingObjects;
    if step.RunTask? {
      TasksRemoved(s.loop.tasks, step.index);
    }
    if step.ReleaseEndpoint? {
      from, to := FinishingObjects, FreeObjects;
    }
    Moved(s, t, EndpointObject, home, from, step.index, to);
    next := home[ListAt(s, from)[step.index] := to];
  }

  lemma UserMoves(s: State, step: Step, home: map<nat, Place>) returns (next: map<nat, Place>)
    requires Housed(s, NetworkBuffer, home) && Enabled(s, step) && step.UserReleases?
    ensures Housed(Next(s, step), NetworkBuffer, next)
  {
    hide Housed;
    Moved(s, Next(s, step), NetworkBuffer, home, UserList(step.endpoint), step.index, FreeBuffers);
    next := home[ListAt(s, UserList(step.endpoint))[step.index] := FreeBuffers];
  }

  lemma CollectPending(s: State, p: Place)
    requires Paired(s.protocol.plugin) && Enabled(s, PluginStep(EndpointProtocol.CollectShard)) && p.PendingList?
    ensures ListAt(Next(s, PluginStep(EndpointProtocol.CollectShard)), p) ==
              if p.id == s.protocol.phase.shard && p.endpoint in s.protocol.plugin.data then [] else ListAt(s, p)
  {
    var j, plugin := s.protocol.phase.shard, s.protocol.plugin;
    hide Collect;
    EndpointInvariant.CollectAt(plugin, j, j, 0);
    if p.id < |plugin.pending| {
      EndpointInvariant.CollectAt(plugin, j, p.id, p.endpoint);
    }
  }

  lemma CollectClient(s: State, p: Place)
    requires Paired(s.protocol.plugin) && Enabled(s, PluginStep(EndpointProtocol.CollectShard)) && p.ClientList?
    ensures ListAt(Next(s, PluginStep(EndpointProtocol.CollectShard)), p) ==
              if p.endpoint in s.protocol.plugin.data then ListAt(s, p) +
                  ListAt(s, PendingList(s.protocol.phase.shard, p.endpoint))
              else ListAt(s, p)
  {
    var j, plugin := s.protocol.phase.shard, s.protocol.plugin;
    hide Collect;
    EndpointInvariant.CollectAt(plugin, j, j, p.endpoint);
    BuffersConcat(At(plugin.data, p.endpoint), At(plugin.pending[j], p.endpoint));
  }

  lemma CollectLists(s: State, p: Place)
    requires Paired(s.protocol.plugin) && Enabled(s, PluginStep(EndpointProtocol.CollectShard)) &&
             KindOf(p) == NetworkBuffer
    ensures var j, data := s.protocol.phase.shard, s.protocol.plugin.data;
            ListAt(Next(s, PluginStep(EndpointProtocol.CollectShard)), p) ==
              if p.PendingList? && p.id == j && p.endpoint in data then []
              else if p.ClientList? && p.endpoint in data then ListAt(s, p) + ListAt(s, PendingList(j, p.endpoint))
              else ListAt(s, p)
  {
    hide Collect;
    hide Paired;
    if p.PendingList? {
      CollectPending(s, p);
    } else if p.ClientList? {
      CollectClient(s, p);
    }
  }

  lemma CollectPours(s: State, p: Place)
    requires Paired(s.protocol.plugin) && Enabled(s, PluginStep(EndpointProtocol.CollectShard)) &&
             KindOf(p) == NetworkBuffer
    ensures Pours(s, Next(s, PluginStep(EndpointProtocol.CollectShard)), EndpointProtocol.CollectShard, p)
  {
    CollectLists(s, p);
    hide ListAt;
    hide Next;
    assert p.ClientList? && p.endpoint in s.protocol.plugin.data ==>
             Target(s, EndpointProtocol.CollectShard, PendingList(s.protocol.phase.shard, p.endpoint)) == p;
  }

  lemma DeliverLists(s: State, p: Place)
    requires Enabled(s, PluginStep(EndpointProtocol.DeliverInputs)) && KindOf(p) == NetworkBuffer
    ensures var data := s.protocol.plugin.data;
            ListAt(Next(s, PluginStep(EndpointProtocol.DeliverInputs)), p) ==
              if p.ClientList? then []
              else if p.UserList? && p.endpoint in data then ListAt(s, p) + ListAt(s, ClientList(p.endpoint))
              else ListAt(s, p)
  {
    if p.ClientList? {
      EndpointInvariant.DeliverAt(s.protocol.plugin, p.endpoint);
    } else if p.UserList? {
      assert At(s.users, p.endpoint) + [] == At(s.users, p.endpoint);
    }
  }

  lemma DeliverPours(s: State, p: Place)
    requires Enabled(s, PluginStep(EndpointProtocol.DeliverInputs)) && KindOf(p) == NetworkBuffer
    ensures Pours(s, Next(s, PluginStep(EndpointProtocol.DeliverInputs)), EndpointProtocol.DeliverInputs, p)
  {
    DeliverLists(s, p);
    hide Next;
    assert p.UserList? && p.endpoint in s.protocol.plugin.data ==>
             Target(s, EndpointProtocol.DeliverInputs, ClientList(p.endpoint)) == p;
  }

  lemma ErasePours(s: State, p: Place)
    requires Enabled(s, PluginStep(EndpointProtocol.EraseClient)) && KindOf(p) == NetworkBuffer
    ensures Pours(s, Next(s, PluginStep(EndpointProtocol.EraseClient)), EndpointProtocol.EraseClient, p)
  {
    var e := s.protocol.plugin.disconnects[s.protocol.phase.index];
    assert Target(s, EndpointProtocol.EraseClient, ClientList(e)) == DroppedList(e);
  }

  lemma ClearPours(s: State, p: Place)
    requires Paired(s.protocol.plugin) && Enabled(s, PluginStep(EndpointProtocol.ClearShard)) &&
             KindOf(p) == NetworkBuffer
    ensures Pours(s, Next(s, PluginStep(EndpointProtocol.ClearShard)), EndpointProtocol.ClearShard, p)
  {
    var e, j := s.protocol.plugin.disconnects[s.protocol.phase.index], s.protocol.phase.stage.shard;
    assert Target(s, EndpointProtocol.ClearShard, PendingList(j, e)) == DroppedList(e);
    ClearAt(s.protocol.plugin, j, e,
        if p.PendingList? && p.id < |s.protocol.plugin.pending| then p.id else j,
        if p.PendingList? then p.endpoint else e);
    hide ClearLocal;
  }

  lemma ClearAt(p: Plugin, j: nat, e: nat, i: nat, d: nat)
    requires Paired(p) && j < |p.locals| && i < |p.locals|
    ensures var q := ClearLocal(p, j, e);
            && |q.pending| == |p.pending| && q.data == p.data
            && At(q.pending[i], d) == if i == j && d == e then [] else At(p.pending[i], d)
  {
  }

  lemma OtherPours(s: State, step: EndpointProtocol.Step, p: Place)
    requires Enabled(s, PluginStep(step)) && KindOf(p) == NetworkBuffer
    requires !step.CollectShard? && !step.DeliverInputs? && !step.EraseClient? && !step.ClearShard?
    ensures Pours(s, Next(s, PluginStep(step)), step, p)
  {
    if step.StartTick? && p.ClientList? {
      EndpointInvariant.CreateAt(s.protocol.plugin, p.endpoint);
    }
  }

  lemma StepPours(s: State, step: EndpointProtocol.Step, p: Place)
    requires Paired(s.protocol.plugin) && Enabled(s, PluginStep(step)) && KindOf(p) == NetworkBuffer
    ensures Pours(s, Next(s, PluginStep(step)), step, p)
  {
    hide Pours;
    hide Paired;
    hide Next;
    match step
    case CollectShard => CollectPours(s, p);
    case DeliverInputs => DeliverPours(s, p);
    case EraseClient => ErasePours(s, p);
    case ClearShard => ClearPours(s, p);
    case _ => OtherPours(s, step, p);
  }

  lemma PluginMoves(s: State, step: EndpointProtocol.Step, home: map<nat, Place>) returns (next: map<nat, Place>)
    requires Paired(s.protocol.plugin) && Housed(s, NetworkBuffer, home) && Enabled(s, PluginStep(step))
    ensures Housed(Next(s, PluginStep(step)), NetworkBuffer, next)
  {
    var t := Next(s, PluginStep(step));
    assert Allocated(t, NetworkBuffer) == Allocated(s, NetworkBuffer);
    hide Housed;
    hide Paired;
    hide Pours;
    hide Next;
    hide Enabled;
    hide Allocated;
    forall p | KindOf(p) == NetworkBuffer
      ensures Pours(s, t, step, p)
    {
      StepPours(s, step, p);
    }
    Poured(s, t, step, home);
    next := Rehomed(s, step, home);
  }

  lemma StepBuffers(s: State, step: Step, home: map<nat, Place>) returns (next: map<nat, Place>)
    requires Paired(s.protocol.plugin) && Housed(s, NetworkBuffer, home) && Enabled(s, step)
    ensures Housed(Next(s, step), NetworkBuffer, next)
  {
    hide Paired;
    hide Housed;
    match step
    case ArmReceive(_, _, _) => next := ArmBuffers(s, step, home);
    case DatagramArrives(_, _, _) => next := CompletionMoves(s, step, home, NetworkBuffer);
    case ReceiveFails(_) => next := CompletionMoves(s, step, home, NetworkBuffer);
    case RunTask(k) => next := TaskMovesBuffer(s, k, home);
    case PluginStep(inner) => next := PluginMoves(s, inner, home);
    case UserReleases(_, _) => next := UserMoves(s, step, home);
    case ReleaseEndpoint(_) =>
      Unmoved(s, Next(s, step), NetworkBuffer, home);
      next := home;
  }

  lemma StepObjects(s: State, step: Step, home: map<nat, Place>) returns (next: map<nat, Place>)
    requires Housed(s, EndpointObject, home) && Enabled(s, step)
    ensures Housed(Next(s, step), EndpointObject, next)
  {
    hide Housed;
    match step
    case ArmReceive(_, _, _) => next := ArmObjects(s, step, home);
    case DatagramArrives(_, _, _) => next := CompletionMoves(s, step, home, EndpointObject);
    case ReceiveFails(_) => next := CompletionMoves(s, step, home, EndpointObject);
    case RunTask(_) => next := TaskMovesObject(s, step, home);
    case ReleaseEndpoint(_) => next := TaskMovesObject(s, step, home);
    case _ =>
      Unmoved(s, Next(s, step), EndpointObject, home);
      next := home;
  }
}
