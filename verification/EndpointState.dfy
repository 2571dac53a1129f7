/** The shared state of the network plugin and what each of its critical sections does to
    it. Class `NetworkPlugin.NetworkPlugin` is proved against these functions; module
    `EndpointProtocol` interleaves them. */
module EndpointState {

  /** A received buffer, with the network id whose receive filled it. Endpoints are numbers. */
  datatype Input = Input(source: nat, buffer: nat)

  /** What happens to one endpoint: the three callbacks, and inputs dropped by a teardown. */
  datatype Event = NewClient | Inputs(inputs: seq<Input>) | Dropped(inputs: seq<Input>) | Disconnected

  /** `calls` is the history of every endpoint; the other fields are those of the plugin. */
  datatype Plugin = Plugin(
    locals: seq<set<nat>>,
    pending: seq<map<nat, seq<Input>>>,
    newcomers: set<nat>,
    endpoints: set<nat>,
    data: map<nat, seq<Input>>,
    disconnects: seq<nat>,
    calls: map<nat, seq<Event>>)

  function At<V>(m: map<nat, seq<V>>, e: nat): seq<V> {
    if e in m then m[e] else []
  }

  function Record<V>(m: map<nat, seq<V>>, e: nat, x: V): map<nat, seq<V>> {
    m[e := At(m, e) + [x]]
  }

  predicate WellFormed(p: Plugin) {
    |p.locals| == |p.pending|
  }

  /** A packet from `e` received under network id `i`. */
  function Packet(p: Plugin, i: nat, e: nat, buffer: nat): Plugin
    requires WellFormed(p) && i < |p.locals|
  {
    var q := if e in p.locals[i] then p else Register(p, i, e);
    q.(pending := q.pending[i := Record(q.pending[i], e, Input(i, buffer))])
  }

  /** The endpoint is new to shard `i`, and perhaps to the whole plugin. */
  function Register(p: Plugin, i: nat, e: nat): (q: Plugin)
    requires WellFormed(p) && i < |p.locals|
    ensures WellFormed(q) && |q.locals| == |p.locals|
  {
    p.(endpoints := p.endpoints + {e},
       newcomers := if e in p.endpoints then p.newcomers else p.newcomers + {e},
       locals := p.locals[i := p.locals[i] + {e}],
       pending := p.pending[i := if e in p.pending[i] then p.pending[i] else p.pending[i][e := []]])
  }

  /** The section of the packet task finds its endpoint where it asserts it to be. */
  predicate PacketAsserts(p: Plugin, i: nat, e: nat)
    requires WellFormed(p) && i < |p.locals|
  {
    e in p.locals[i] ==> e in p.pending[i]
  }

  function CreateClients(p: Plugin): Plugin {
    p.(data := map e | e in p.data.Keys + p.newcomers :: At(p.data, e),
       newcomers := {},
       calls := map e | e in p.calls.Keys + p.newcomers ::
         At(p.calls, e) + if e in p.newcomers then [NewClient] else [])
  }

  /** Moves what shard `i` holds for known clients to the clients. */
  function Collect(p: Plugin, i: nat): Plugin
    requires i < |p.pending|
  {
    p.(data := map e | e in p.data :: p.data[e] + At(p.pending[i], e),
       pending := p.pending[i := map e | e in p.pending[i] :: if e in p.data then [] else p.pending[i][e]])
  }

  /** Hands every client its inputs and clears them. */
  function Deliver(p: Plugin): Plugin {
    p.(data := map e | e in p.data :: [],
       calls := map e | e in p.calls.Keys + p.data.Keys ::
         At(p.calls, e) + if e in p.data then [Inputs(p.data[e])] else [])
  }

  function Disconnect(p: Plugin, e: nat): Plugin {
    p.(disconnects := p.disconnects + [e])
  }

  function EraseData(p: Plugin, e: nat): Plugin {
    p.(data := p.data - {e}, calls := Record(p.calls, e, Dropped(At(p.data, e))))
  }

  function Unregister(p: Plugin, e: nat): Plugin {
    p.(endpoints := p.endpoints - {e})
  }

  function ClearLocal(p: Plugin, i: nat, e: nat): Plugin
    requires WellFormed(p) && i < |p.locals|
  {
    if e in p.locals[i] then
      p.(locals := p.locals[i := p.locals[i] - {e}],
         pending := p.pending[i := p.pending[i] - {e}],
         calls := Record(p.calls, e, Dropped(At(p.pending[i], e))))
    else p
  }

  function Notify(p: Plugin, e: nat): Plugin {
    p.(calls := Record(p.calls, e, Disconnected))
  }

  function ForgetDisconnects(p: Plugin): Plugin {
    p.(disconnects := [])
  }
}
