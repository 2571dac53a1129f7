/** Single ownership of pooled objects in every run, and what it is good for: recycling
    never disturbs a datagram on its way to the client of its sender. */
module BufferTheorems {
  import opened EndpointState
  import opened CoreLoop
  import opened BufferOwnership
  import EndpointProtocol

  // ---------------------------------------------------------------- ownership

  ghost predicate Owned(s: State) {
    && Paired(s.protocol.plugin)
    && (exists home :: Housed(s, NetworkBuffer, home))
    && (exists home :: Housed(s, EndpointObject, home))
  }

  lemma InitialOwned(shards: nat)
    ensures Owned(Initial(shards))
  {
    assert Housed(Initial(shards), NetworkBuffer, map[]);
    assert Housed(Initial(shards), EndpointObject, map[]);
  }

  lemma StepOwns(s: State, step: Step)
    requires Owned(s) && Enabled(s, step)
    ensures Owned(Next(s, step))
  {
    var home :| Housed(s, NetworkBuffer, home);
    var other :| Housed(s, EndpointObject, other);
    hide Housed;
    hide Paired;
    hide Next;
    StepPaired(s, step);
    var next := StepBuffers(s, step, home);
    next := StepObjects(s, step, other);
  }

  lemma {:induction false} RunOwns(shards: nat, states: seq<State>, steps: seq<Step>, n: nat)
    requires IsRun(shards, states, steps) && n <= |steps|
    ensures Owned(states[n])
  {
    hide Owned;
    hide Next;
    hide Enabled;
    if n == 0 {
      InitialOwned(shards);
    } else {
      RunOwns(shards, states, steps, n - 1);
      StepOwns(states[n - 1], steps[n - 1]);
    }
  }

  /** Single ownership: in every reachable state every object a pool ever made is at exactly
      one place, and once there: free, armed with one receive, with one packet task, in one
      list of a shard, with one client, with one user, or dropped. Callers of `disconnect`
      need keep to nothing for this. */
  lemma SingleOwner(shards: nat, states: seq<State>, steps: seq<Step>, n: nat, kind: Kind, b: nat)
      returns (place: Place, k: nat)
    requires IsRun(shards, states, steps) && n <= |steps| && b < Allocated(states[n], kind)
    ensures KindOf(place) == kind && k < |ListAt(states[n], place)| && ListAt(states[n], place)[k] == b
    ensures forall p, j :: KindOf(p) == kind && 0 <= j < |ListAt(states[n], p)| && ListAt(states[n], p)[j] == b ==>
            p == place && j == k
  {
    hide Next;
    hide Enabled;
    hide ListAt;
    RunOwns(shards, states, steps, n);
    var s := states[n];
    hide IsRun;
    var home :| Housed(s, kind, home);
    assert b in home;
    place := home[b];
    HomeKind(s, kind, home, b);
    assert Houses(ListAt(s, place), place, home);
    k :| 0 <= k < |ListAt(s, place)| && ListAt(s, place)[k] == b;
    forall p, j | KindOf(p) == kind && 0 <= j < |ListAt(s, p)| && ListAt(s, p)[j] == b
      ensures p == place && j == k
    {
      assert Houses(ListAt(s, p), p, home);
      assert b in ListAt(s, p);
    }
  }

  // ---------------------------------------------------------------- attribution

  /** Buffers at these places carry a datagram. */
  predicate InUse(p: Place) {
    p.TaskBuffers? || p.PendingList? || p.ClientList? || p.UserList? || p.DroppedList?
  }

  /** The datagram belongs at the place: same sender, and same network id where it counts. */
  predicate Belongs(p: Place, r: Received) {
    match p
    case PendingList(i, e) => r.id == i && r.address == e
    case ClientList(e) => r.address == e
    case UserList(e) => r.address == e
    case DroppedList(e) => r.address == e
    case _ => true
  }

  /** Buffer `b` holds, unchanged, the datagram last received into it. */
  ghost predicate Holds(s: State, p: Place, b: nat) {
    && b in s.filled && s.filled[b] < |s.received| && b in s.loop.contents
    && s.loop.contents[b] == s.received[s.filled[b]].payload && Belongs(p, s.received[s.filled[b]])
  }

  /** The task's endpoint object still names the sender of the datagram in its buffer. */
  ghost predicate ReadsSender(s: State, task: Task) {
    && Holds(s, TaskBuffers, task.buffer)
    && task.endpoint in s.loop.addresses
    && s.received[s.filled[task.buffer]].address == s.loop.addresses[task.endpoint]
    && s.received[s.filled[task.buffer]].id == task.id
  }

  ghost predicate Tickets(s: State) {
    && (forall b :: b in s.filled ==> s.filled[b] < |s.received|)
    && (forall b, c :: b in s.filled && c in s.filled && b != c ==> s.filled[b] != s.filled[c])
  }

  ghost predicate Attributed(s: State) {
    && Tickets(s)
    && (forall p, b :: InUse(p) && b in ListAt(s, p) ==> Holds(s, p, b))
    && (forall k :: 0 <= k < |s.loop.tasks| ==> ReadsSender(s, s.loop.tasks[k]))
  }

  // ---------------------------------------------------------------- attribution, step by step

  lemma HomeKind(s: State, kind: Kind, home: map<nat, Place>, b: nat)
    requires Housed(s, kind, home) && b in home
    ensures KindOf(home[b]) == kind
  {
  }

  /** Nothing is at two places, and nothing is anywhere before it is allocated. */
  lemma Apart(s: State, p: Place, q: Place, b: nat)
    requires Owned(s) && KindOf(p) == KindOf(q) && p != q && b in ListAt(s, p)
    ensures b !in ListAt(s, q) && b < Allocated(s, KindOf(p))
  {
    hide ListAt;
    hide Allocated;
    hide Paired;
    var kind := KindOf(p);
    var home :| Housed(s, kind, home);
    assert Houses(ListAt(s, p), p, home) && Houses(ListAt(s, q), q, home);
  }

  lemma TaskPlaces(s: State, k: nat)
    requires k < |s.loop.tasks|
    ensures s.loop.tasks[k].buffer in ListAt(s, TaskBuffers) && s.loop.tasks[k].endpoint in ListAt(s, TaskObjects)
  {
    assert ListAt(s, TaskBuffers)[k] == s.loop.tasks[k].buffer;
    assert ListAt(s, TaskObjects)[k] == s.loop.tasks[k].endpoint;
  }

  /** Contents and addresses of what is in use, the log and the tickets stay; so does what
      belongs where. */
  lemma HoldsOn(s: State, t: State, p: Place, b: nat)
    requires Holds(s, p, b) && s.received <= t.received
    requires b in t.filled && t.filled[b] == s.filled[b]
    requires b in t.loop.contents && t.loop.contents[b] == s.loop.contents[b]
    ensures Holds(t, p, b)
  {
  }

  lemma ArmAttributed(s: State, step: Step)
    requires Owned(s) && Attributed(s) && Enabled(s, step) && step.ArmReceive?
    ensures Attributed(Next(s, step))
  {
    var t := Next(s, step);
    var a := t.loop.armed[step.id];
    hide Owned;
    ArmLeaves(s, step);
    NewlyArmed(s, step);
    hide Next;
    hide ListAt;
    hide Enabled;
    forall p, b | InUse(p) && b in ListAt(t, p)
      ensures Holds(t, p, b)
    {
      HoldsOn(s, t, p, b);
    }
    forall k | 0 <= k < |t.loop.tasks|
      ensures ReadsSender(t, t.loop.tasks[k])
    {
      TaskPlaces(s, k);
      assert ReadsSender(s, s.loop.tasks[k]);
      HoldsOn(s, t, TaskBuffers, t.loop.tasks[k].buffer);
    }
  }

  /** Arming touches nothing in use, and of contents and addresses only what it arms. */
  lemma ArmLeaves(s: State, step: Step)
    requires Enabled(s, step) && step.ArmReceive?
    ensures var t := Next(s, step);
            && step.id in t.loop.armed
            && t.loop.contents == s.loop.contents - {t.loop.armed[step.id].buffer}
            && t.loop.addresses == s.loop.addresses - {t.loop.armed[step.id].endpoint}
            && t.loop.tasks == s.loop.tasks && t.received == s.received && t.filled == s.filled
            && forall p :: InUse(p) ==> ListAt(t, p) == ListAt(s, p)
  {
  }

  /** What a pool hands out was free or is new. */
  lemma NewlyArmed(s: State, step: Step)
    requires Owned(s) && Enabled(s, step) && step.ArmReceive?
    ensures var a := Next(s, step).loop.armed[step.id];
            && (forall p :: InUse(p) ==> a.buffer !in ListAt(s, p))
            && a.endpoint !in ListAt(s, TaskObjects)
  {
    var a := Next(s, step).loop.armed[step.id];
    hide Owned;
    var buffers, objects := s.loop.buffers, s.loop.objects;
    assert step.choice < |buffers.free| ==> a.buffer in ListAt(s, FreeBuffers);
    assert step.choice >= |buffers.free| ==> a.buffer == Allocated(s, NetworkBuffer);
    assert step.other < |objects.free| ==> a.endpoint in ListAt(s, FreeObjects);
    assert step.other >= |objects.free| ==> a.endpoint == Allocated(s, EndpointObject);
    hide ListAt;
    hide Next;
    forall p | InUse(p)
      ensures a.buffer !in ListAt(s, p)
    {
      if a.buffer in ListAt(s, p) {
        Apart(s, p, FreeBuffers, a.buffer);
      }
    }
    if a.endpoint in ListAt(s, TaskObjects) {
      Apart(s, TaskObjects, FreeObjects, a.endpoint);
    }
  }

  lemma ArrivalHolds(s: State, step: Step, p: Place, b: nat)
    requires Owned(s) && Attributed(s) && Enabled(s, step) && step.DatagramArrives?
    requires InUse(p) && b in ListAt(Next(s, step), p)
    ensures Holds(Next(s, step), p, b)
  {
    var t := Next(s, step);
    hide Owned;
    ArrivalLeaves(s, step, p);
    if b in ListAt(s, p) {
      hide Next;
      hide ListAt;
      Apart(s, p, ArmedBuffer(step.id), b);
      HoldsOn(s, t, p, b);
    } else {
      hide Attributed;
      hide ListAt;
      NewHolds(s, step);
    }
  }

  lemma ArrivalLeaves(s: State, step: Step, p: Place)
    requires Enabled(s, step) && step.DatagramArrives?
    ensures var t := Next(s, step); var a := s.loop.armed[step.id];
            && a.buffer in ListAt(s, ArmedBuffer(step.id))
            && (InUse(p) ==> ListAt(t, p) == if p == TaskBuffers then ListAt(s, p) + [a.buffer] else ListAt(s, p))
            && s.received <= t.received
            && t.filled == s.filled[a.buffer := |s.received|] && a.buffer in t.loop.contents
            && t.loop.contents == s.loop.contents[a.buffer := t.loop.contents[a.buffer]]
  {
    TasksAppended(s.loop.tasks, Task(step.id, s.loop.armed[step.id].endpoint, s.loop.armed[step.id].buffer));
  }

  lemma NewHolds(s: State, step: Step)
    requires Enabled(s, step) && step.DatagramArrives?
    ensures Holds(Next(s, step), TaskBuffers, s.loop.armed[step.id].buffer)
  {
  }

  lemma ArrivalReadsNew(s: State, step: Step)
    requires Tickets(s) && Enabled(s, step) && step.DatagramArrives?
    ensures ReadsSender(Next(s, step), Next(s, step).loop.tasks[|s.loop.tasks|])
  {
  }

  lemma ArrivalReadsOld(s: State, step: Step, task: Task)
    requires ReadsSender(s, task) && Enabled(s, step) && step.DatagramArrives?
    requires task.buffer != s.loop.armed[step.id].buffer && task.endpoint != s.loop.armed[step.id].endpoint
    ensures ReadsSender(Next(s, step), task)
  {
  }

  lemma ArrivalTasks(s: State, step: Step)
    requires Enabled(s, step) && step.DatagramArrives?
    ensures |Next(s, step).loop.tasks| == |s.loop.tasks| + 1
    ensures forall k :: 0 <= k < |s.loop.tasks| ==> Next(s, step).loop.tasks[k] == s.loop.tasks[k]
    ensures var a := s.loop.armed[step.id];
            a.buffer in ListAt(s, ArmedBuffer(step.id)) && a.endpoint in ListAt(s, ArmedObject(step.id))
  {
  }

  lemma ArrivalReads(s: State, step: Step, k: nat)
    requires Owned(s) && Attributed(s) && Enabled(s, step) && step.DatagramArrives? && k <= |s.loop.tasks|
    ensures k < |Next(s, step).loop.tasks| && ReadsSender(Next(s, step), Next(s, step).loop.tasks[k])
  {
    ArrivalTasks(s, step);
    hide Owned;
    hide ListAt;
    hide Next;
    hide ReadsSender;
    if k < |s.loop.tasks| {
      var task := s.loop.tasks[k];
      assert ReadsSender(s, task);
      TaskPlaces(s, k);
      Apart(s, TaskBuffers, ArmedBuffer(step.id), task.buffer);
      Apart(s, TaskObjects, ArmedObject(step.id), task.endpoint);
      ArrivalReadsOld(s, step, task);
    } else {
      ArrivalReadsNew(s, step);
    }
  }

  lemma ArrivalTickets(s: State, step: Step)
    requires Tickets(s) && Enabled(s, step) && step.DatagramArrives?
    ensures Tickets(Next(s, step))
  {
  }

  lemma ArrivalAttributed(s: State, step: Step)
    requires Owned(s) && Attributed(s) && Enabled(s, step) && step.DatagramArrives?
    ensures Attributed(Next(s, step))
  {
    var t := Next(s, step);
    assert |t.loop.tasks| == |s.loop.tasks| + 1;
    ArrivalTickets(s, step);
    hide Owned;
    hide Next;
    hide ListAt;
    hide Enabled;
    forall p, b | InUse(p) && b in ListAt(t, p)
      ensures Holds(t, p, b)
    {
      ArrivalHolds(s, step, p, b);
    }
    forall k | 0 <= k < |t.loop.tasks|
      ensures ReadsSender(t, t.loop.tasks[k])
    {
      ArrivalReads(s, step, k);
    }
  }

  /** The other steps leave contents, addresses, log and tickets alone. */
  lemma MoveAttributed(s: State, t: State)
    requires Attributed(s)
    requires t.received == s.received && t.filled == s.filled
    requires t.loop.contents == s.loop.contents && t.loop.addresses == s.loop.addresses
    requires forall k :: 0 <= k < |t.loop.tasks| ==> t.loop.tasks[k] in s.loop.tasks
    requires forall p, b :: InUse(p) && b in ListAt(t, p) ==> Holds(s, p, b)
    ensures Attributed(t)
  {
    hide ListAt;
    forall p, b | InUse(p) && b in ListAt(t, p)
      ensures Holds(t, p, b)
    {
    }
  }

  lemma RemovedFrom<T>(list: seq<T>, k: nat)
    requires k < |list|
    ensures forall x :: x in Removed(list, k) ==> x in list
  {
  }

  lemma TaskAttributed(s: State, k: nat)
    requires Owned(s) && Attributed(s) && Enabled(s, RunTask(k))
    ensures Attributed(Next(s, RunTask(k)))
  {
    var t := Next(s, RunTask(k));
    var task := s.loop.tasks[k];
    RemovedFrom(s.loop.tasks, k);
    assert ReadsSender(s, task);
    assert PacketOf(s.loop, task).endpoint == s.received[s.filled[task.buffer]].address;
    assert t.received == s.received && t.filled == s.filled;
    assert t.loop.contents == s.loop.contents && t.loop.addresses == s.loop.addresses;
    forall p, b | InUse(p) && b in ListAt(t, p)
      ensures Holds(s, p, b)
    {
      hide Next;
      TaskStores(s, k, p);
      RemovedFrom(ListAt(s, TaskBuffers), k);
      hide ListAt;
      hide Paired;
      assert b in ListAt(s, p) || (p.PendingList? && b == task.buffer);
    }
    hide Next;
    hide ListAt;
    MoveAttributed(s, t);
  }

  lemma PluginAttributed(s: State, step: EndpointProtocol.Step)
    requires Owned(s) && Attributed(s) && Enabled(s, PluginStep(step))
    ensures Attributed(Next(s, PluginStep(step)))
  {
    var t := Next(s, PluginStep(step));
    assert t.received == s.received && t.filled == s.filled && t.loop == s.loop;
    hide Next;
    hide Enabled;
    hide ListAt;
    hide Paired;
    forall p, b | InUse(p) && b in ListAt(t, p)
      ensures Holds(s, p, b)
    {
      StepPours(s, step, p);
      PouredFrom(s, t, step, p, b);
    }
    MoveAttributed(s, t);
  }

  lemma PouredFrom(s: State, t: State, step: EndpointProtocol.Step, p: Place, b: nat)
    requires Attributed(s) && Pours(s, t, step, p) && InUse(p) && b in ListAt(t, p)
    ensures Holds(s, p, b)
  {
    hide ListAt;
    hide Target;
    if q :| q != p && Target(s, step, q) == p {
      TargetIsOneToOne(s, step, q, q);
      TargetInUse(s, step, q);
      assert b in ListAt(s, p) || b in ListAt(s, q);
    }
  }

  /** Only lists of the plugin are poured, and into lists of the same endpoint. */
  lemma TargetInUse(s: State, step: EndpointProtocol.Step, q: Place)
    requires Target(s, step, q) != q
    ensures q.PendingList? || q.ClientList?
    ensures var p := Target(s, step, q); (p.ClientList? || p.UserList? || p.DroppedList?) && p.endpoint == q.endpoint
  {
  }

  lemma RestAttributed(s: State, step: Step)
    requires Attributed(s) && Enabled(s, step) && (step.ReceiveFails? || step.ReleaseEndpoint? || step.UserReleases?)
    ensures Attributed(Next(s, step))
  {
    var t := Next(s, step);
    forall p, b | InUse(p) && b in ListAt(t, p)
      ensures Holds(s, p, b)
    {
      if step.UserReleases? && p == UserList(step.endpoint) {
        RemovedFrom(s.users[step.endpoint], step.index);
      }
      assert b in ListAt(s, p);
    }
    MoveAttributed(s, t);
  }

  lemma StepAttributed(s: State, step: Step)
    requires Owned(s) && Attributed(s) && Enabled(s, step)
    ensures Attributed(Next(s, step))
  {
    hide Owned;
    hide Attributed;
    hide Next;
    match step
    case ArmReceive(_, _, _) => ArmAttributed(s, step);
    case DatagramArrives(_, _, _) => ArrivalAttributed(s, step);
    case RunTask(k) => TaskAttributed(s, k);
    case PluginStep(inner) => PluginAttributed(s, inner);
    case _ => RestAttributed(s, step);
  }

  lemma InitialAttributed(shards: nat)
    ensures Attributed(Initial(shards))
  {
    forall p, b | InUse(p) && b in ListAt(Initial(shards), p)
      ensures false
    {
    }
  }

  lemma {:induction false} RunAttributed(shards: nat, states: seq<State>, steps: seq<Step>, n: nat)
    requires IsRun(shards, states, steps) && n <= |steps|
    ensures Attributed(states[n])
  {
    hide Owned;
    hide Attributed;
    hide Next;
    hide Enabled;
    if n == 0 {
      InitialAttributed(shards);
    } else {
      RunOwns(shards, states, steps, n - 1);
      RunAttributed(shards, states, steps, n - 1);
      StepAttributed(states[n - 1], steps[n - 1]);
    }
  }

  // ---------------------------------------------------------------- what users see

  /** In every reachable state each buffer waiting for, or handed to, the client of `e` holds
      unchanged a datagram that `e` sent, and different buffers hold different datagrams: no
      recycling overwrites, misattributes or duplicates an input, until its user lets go. */
  lemma InputsIntact(shards: nat, states: seq<State>, steps: seq<Step>, n: nat, e: nat, b: nat, c: nat)
      returns (j: nat, k: nat)
    requires IsRun(shards, states, steps) && n <= |steps| && b != c
    requires b in ListAt(states[n], ClientList(e)) + ListAt(states[n], UserList(e))
    requires c in ListAt(states[n], ClientList(e)) + ListAt(states[n], UserList(e))
    ensures j != k && j < |states[n].received| && k < |states[n].received|
    ensures states[n].received[j].address == e == states[n].received[k].address
    ensures b in states[n].loop.contents && states[n].received[j].payload == states[n].loop.contents[b]
    ensures c in states[n].loop.contents && states[n].received[k].payload == states[n].loop.contents[c]
  {
    hide Next;
    hide Enabled;
    hide ListAt;
    RunAttributed(shards, states, steps, n);
    var s := states[n];
    assert Holds(s, ClientList(e), b) || Holds(s, UserList(e), b);
    assert Holds(s, ClientList(e), c) || Holds(s, UserList(e), c);
    j, k := s.filled[b], s.filled[c];
  }

  /** A packet task that runs files its buffer under the sender and the network id of the
      datagram in it, however long it waited and whatever was recycled meanwhile. */
  lemma TaskFilesUnderSender(shards: nat, states: seq<State>, steps: seq<Step>, n: nat) returns (j: nat)
    requires IsRun(shards, states, steps) && n < |steps| && steps[n].RunTask?
    ensures Enabled(states[n], steps[n]) && j < |states[n].received|
    ensures var s := states[n]; var task := s.loop.tasks[steps[n].index];
            && PacketOf(s.loop, task) == EndpointProtocol.PacketTask(s.received[j].id,
                s.received[j].address, task.buffer)
            && task.buffer in s.loop.contents && s.received[j].payload == s.loop.contents[task.buffer]
  {
    RunAttributed(shards, states, steps, n);
    hide Next;
    var s := states[n];
    var task := s.loop.tasks[steps[n].index];
    assert ReadsSender(s, task);
    j := s.filled[task.buffer];
  }
}
