/** Recycled objects: the pool, and the self re-arming receive of the main loop that takes
    buffers and endpoint objects from two of them. Objects are numbered as the allocator
    makes them. */
module CoreLoop {

  function Removed<T>(s: seq<T>, k: nat): seq<T>
    requires k < |s|
  {
    s[..k] + s[k + 1..]
  }

  // ---------------------------------------------------------------- the pool

  datatype Pool = Pool(free: seq<nat>, made: nat)

  /** The queue of free objects is concurrent: which one it yields, or that it yields none
      although there are some, is up to `choice`. Then the allocator makes a new one. */
  function Taken(p: Pool, choice: nat): (Pool, nat) {
    if choice < |p.free| then (p.(free := Removed(p.free, choice)), p.free[choice])
    else (p.(made := p.made + 1), p.made)
  }

  function Returned(p: Pool, item: nat): Pool {
    p.(free := p.free + [item])
  }

  class PerThreadPool {
    var freeObjects: seq<nat>
    var made: nat

    function View(): Pool
      reads this
    {
      Pool(freeObjects, made)
    }

    constructor ()
      ensures View() == Pool([], 0)
    {
      freeObjects, made := [], 0;
    }

    method Get(choice: nat) returns (item: nat)
      modifies this
      ensures (View(), item) == Taken(old(View()), choice)
    {
      if choice < |freeObjects| {
        item := freeObjects[choice];
        freeObjects := Removed(freeObjects, choice);
      } else {
        item := made;
        made := made + 1;
      }
    }

    method Release(item: nat)
      modifies this
      ensures View() == Returned(old(View()), item)
    {
      freeObjects := freeObjects + [item];
    }
  }

  // ---------------------------------------------------------------- receives

  type Payload = seq<bv8>

  datatype Armed = Armed(buffer: nat, endpoint: nat)

  /** A packet task waiting in the fiber pool. */
  datatype Task = Task(id: nat, endpoint: nat, buffer: nat)

  /** `contents` and `addresses` are what the buffers and endpoint objects hold. */
  datatype Loop = Loop(
    buffers: Pool,
    objects: Pool,
    armed: map<nat, Armed>,
    tasks: seq<Task>,
    contents: map<nat, Payload>,
    addresses: map<nat, nat>)

  /** Takes a buffer and an endpoint object and starts a receive for network id `i`. */
  function Arm(l: Loop, i: nat, choice: nat, other: nat): Loop {
    var (buffers, buffer) := Taken(l.buffers, choice);
    var (objects, item) := Taken(l.objects, other);
    l.(buffers := buffers, objects := objects, armed := l.armed[i := Armed(buffer, item)],
       contents := l.contents - {buffer}, addresses := l.addresses - {item})
  }

  /** The receive of `i` ends with a datagram, which becomes a packet task. */
  function Receive(l: Loop, i: nat, address: nat, payload: Payload): Loop
    requires i in l.armed
  {
    var a := l.armed[i];
    l.(armed := l.armed - {i}, tasks := l.tasks + [Task(i, a.endpoint, a.buffer)],
       contents := l.contents[a.buffer := payload], addresses := l.addresses[a.endpoint := address])
  }

  /** The receive of `i` ends with an error. */
  function Fail(l: Loop, i: nat): Loop
    requires i in l.armed
  {
    l.(armed := l.armed - {i}, buffers := Returned(l.buffers, l.armed[i].buffer),
        objects := Returned(l.objects, l.armed[i].endpoint))
  }

  datatype Outcome = Failed | Datagram(address: nat, payload: Payload)

  function Completed(l: Loop, i: nat, outcome: Outcome): Loop
    requires i in l.armed
  {
    match outcome
    case Failed => Fail(l, i)
    case Datagram(address, payload) => Receive(l, i, address, payload)
  }

  class CoreLoop {
    const dataMempool: PerThreadPool
    const endpointsMempool: PerThreadPool
    var armed: map<nat, Armed>
    var tasks: seq<Task>
    var contents: map<nat, Payload>
    var addresses: map<nat, nat>

    ghost predicate Valid()
      reads this
    {
      dataMempool != endpointsMempool
    }

    ghost function View(): Loop
      reads this, dataMempool, endpointsMempool
    {
      Loop(dataMempool.View(), endpointsMempool.View(), armed, tasks, contents, addresses)
    }

    constructor ()
      ensures Valid() && View() == Loop(Pool([], 0), Pool([], 0), map[], [], map[], map[])
      ensures fresh(dataMempool) && fresh(endpointsMempool)
    {
      dataMempool := new PerThreadPool();
      endpointsMempool := new PerThreadPool();
      armed, tasks, contents, addresses := map[], [], map[], map[];
    }

    method HandleConnections(id: nat, choice: nat, other: nat)
      requires Valid()
      modifies this, dataMempool, endpointsMempool
      ensures Valid() && View() == Arm(old(View()), id, choice, other)
    {
      var buffer := dataMempool.Get(choice);
      var endpoint := endpointsMempool.Get(other);
      contents, addresses := contents - {buffer}, addresses - {endpoint};
      armed := armed[id := Armed(buffer, endpoint)];
    }

    /** The completion of a receive: whatever its outcome, the next one is armed. */
    method OnReceived(id: nat, outcome: Outcome, choice: nat, other: nat)
      requires Valid() && id in armed
      modifies this, dataMempool, endpointsMempool
      ensures Valid() && View() == Arm(Completed(old(View()), id, outcome), id, choice, other)
    {
      ghost var before := View();
      var buffer, endpoint := armed[id].buffer, armed[id].endpoint;
      armed := armed - {id};
      match outcome {
        case Failed =>
          dataMempool.Release(buffer);
          endpointsMempool.Release(endpoint);
        case Datagram(address, payload) =>
          contents, addresses := contents[buffer := payload], addresses[endpoint := address];
          tasks := tasks + [Task(id, endpoint, buffer)];
      }
      assert View() == Completed(before, id, outcome);
      HandleConnections(id, choice, other);
    }

    method ReleaseNetworkBuffer(buffer: nat)
      requires Valid()
      modifies dataMempool
      ensures Valid() && View() == old(View()).(buffers := Returned(old(View()).buffers, buffer))
    {
      dataMempool.Release(buffer);
    }

    method ReleaseNetworkEndpoint(endpoint: nat)
      requires Valid()
      modifies endpointsMempool
      ensures Valid() && View() == old(View()).(objects := Returned(old(View()).objects, endpoint))
    {
      endpointsMempool.Release(endpoint);
    }
  }
}
