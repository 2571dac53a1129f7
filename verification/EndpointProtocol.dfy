/** Packet tasks, the tick and `disconnect` as interleaved critical sections. A state
    records where the tick stands; packet tasks of any shard and disconnect requests may
    run between any two of its sections, unless a lock the tick holds keeps them out. */
module EndpointProtocol {
  import opened EndpointState

  /** Where the tick stands: between ticks, before collecting shard `shard`, past the
      delivery, or tearing down the endpoint at `index` of the disconnect list. */
  datatype Phase =
    | Idle
    | Collecting(shard: nat)
    | Delivered
    | Closing(index: nat, stage: Stage)

  /** Nothing done yet; its data erased; unregistered, and the shards below `shard`
      cleared and unlocked while the others are still locked. */
  datatype Stage = Untouched | Erased | Clearing(shard: nat)

  /** `stored` is all that packet tasks ever stored, by endpoint, and `started` what it was
      when the last tick started. `ok` is false once an assertion of the plugin failed. */
  datatype State = State(
    plugin: Plugin,
    phase: Phase,
    ok: bool,
    stored: map<nat, seq<Input>>,
    started: map<nat, seq<Input>>)

  datatype Step =
    | PacketTask(shard: nat, endpoint: nat, buffer: nat)
    | RequestDisconnect(endpoint: nat)
    | StartTick
    | CollectShard
    | DeliverInputs
    | LockDisconnects
    | EraseClient
    | UnregisterEndpoint
    | ClearShard
    | NotifyDisconnected
    | EndTick

  function Initial(shards: nat): State {
    State(Plugin(seq(shards, _ => {}), seq(shards, _ => map[]), {}, {}, map[], [], map[]), Idle, true, map[], map[])
  }

  /** The tick holds the lock of shard `i` while it tears an endpoint down. */
  predicate ShardLocked(phase: Phase, i: nat) {
    phase.Closing? && phase.stage.Clearing? && phase.stage.shard <= i
  }

  predicate Enabled(s: State, step: Step) {
    var p := s.plugin;
    && WellFormed(p)
    && match step
       case PacketTask(i, _, _) => i < |p.locals| && !ShardLocked(s.phase, i)
       case RequestDisconnect(_) => !s.phase.Closing?
       case StartTick => s.phase.Idle?
       case CollectShard => s.phase.Collecting? && s.phase.shard < |p.locals|
       case DeliverInputs => s.phase == Collecting(|p.locals|)
       case LockDisconnects => s.phase.Delivered?
       case EraseClient => s.phase.Closing? && s.phase.stage.Untouched? && s.phase.index < |p.disconnects|
       case UnregisterEndpoint => s.phase.Closing? && s.phase.stage.Erased? && s.phase.index < |p.disconnects|
       case ClearShard =>
         s.phase.Closing? && s.phase.stage.Clearing? && s.phase.index < |p.disconnects| &&
             s.phase.stage.shard < |p.locals|
       case NotifyDisconnected =>
         s.phase.Closing? && s.phase.stage == Clearing(|p.locals|) && s.phase.index < |p.disconnects|
       case EndTick => s.phase == Closing(|p.disconnects|, Untouched)
  }

  function Next(s: State, step: Step): State
    requires Enabled(s, step)
  {
    var p := s.plugin;
    match step
    case PacketTask(i, e, buffer) =>
      s.(plugin := Packet(p, i, e, buffer), ok := s.ok && PacketAsserts(p, i, e),
         stored := Record(s.stored, e, Input(i, buffer)))
    case RequestDisconnect(e) => s.(plugin := Disconnect(p, e))
    case StartTick => s.(plugin := CreateClients(p), phase := Collecting(0), started := s.stored)
    case CollectShard => s.(plugin := Collect(p, s.phase.shard), phase := Collecting(s.phase.shard + 1))
    case DeliverInputs => s.(plugin := Deliver(p), phase := Delivered)
    case LockDisconnects => s.(phase := Closing(0, Untouched))
    case EraseClient =>
      s.(plugin := EraseData(p, p.disconnects[s.phase.index]), phase := Closing(s.phase.index, Erased))
    case UnregisterEndpoint =>
      var e := p.disconnects[s.phase.index];
      s.(plugin := Unregister(p, e), ok := s.ok && e in p.endpoints, phase := Closing(s.phase.index, Clearing(0)))
    case ClearShard =>
      s.(plugin := ClearLocal(p, s.phase.stage.shard, p.disconnects[s.phase.index]),
         phase := Closing(s.phase.index, Clearing(s.phase.stage.shard + 1)))
    case NotifyDisconnected =>
      s.(plugin := Notify(p, p.disconnects[s.phase.index]), phase := Closing(s.phase.index + 1, Untouched))
    case EndTick => s.(plugin := ForgetDisconnects(p), phase := Idle)
  }

  ghost predicate IsRun(shards: nat, states: seq<State>, steps: seq<Step>) {
    && |states| == |steps| + 1 && states[0] == Initial(shards)
    && forall i :: 0 <= i < |steps| ==> Enabled(states[i], steps[i]) && states[i + 1] == Next(states[i], steps[i])
  }

  /** The discipline assumed of callers: `disconnect` is called once per connection, for an
      endpoint with a live client or one that the next tick to start will give one. */
  predicate Disciplined(s: State, step: Step) {
    step.RequestDisconnect? ==> MayDisconnect(s, step.endpoint)
  }

  predicate MayDisconnect(s: State, e: nat) {
    e !in s.plugin.disconnects && (e in s.plugin.data || (s.phase.Idle? && e in s.plugin.newcomers))
  }

  ghost predicate IsDisciplinedRun(shards: nat, states: seq<State>, steps: seq<Step>) {
    IsRun(shards, states, steps) && forall i :: 0 <= i < |steps| ==> Disciplined(states[i], steps[i])
  }

  // ---------------------------------------------------------------- the registry

  /** The endpoint being torn down, if its data is already erased. */
  predicate IsClosing(s: State, e: nat) {
    && s.phase.Closing? && !s.phase.stage.Untouched?
    && s.phase.index < |s.plugin.disconnects| && e == s.plugin.disconnects[s.phase.index]
  }

  /** How much of the disconnect list has been dealt with. */
  function Handled(phase: Phase): nat {
    if phase.Closing? then phase.index + if phase.stage.Untouched? then 0 else 1 else 0
  }

  /** Outside a teardown `endpoints` is the disjoint union of clients and new endpoints, and
      each shard knows the endpoints it has a list for, all of them registered. During the
      teardown of `e`, `e` alone may be registered without data, or known to a shard that
      is still locked without being registered. */
  ghost predicate Registry(s: State) {
    var p := s.plugin;
    && WellFormed(p)
    && (forall i, e :: 0 <= i < |p.locals| ==> (e in p.locals[i] <==> e in p.pending[i]))
    && p.newcomers !! p.data.Keys
    && (forall e :: e in p.endpoints <==>
        e in p.data || e in p.newcomers || (s.phase.Closing? && s.phase.stage.Erased? && IsClosing(s, e)))
    && (forall e :: IsClosing(s, e) ==> e !in p.data && (s.phase.stage.Erased? ==> e !in p.newcomers))
    && (forall i, e :: 0 <= i < |p.locals| && e in p.locals[i] ==>
          e in p.endpoints || (IsClosing(s, e) && ShardLocked(s.phase, i)))
  }

  /** What waits in the disconnect list are live clients, or will be with the next tick, each
      once. */
  ghost predicate Requests(s: State) {
    var p := s.plugin;
    && Handled(s.phase) <= |p.disconnects| 
    && (s.phase.Collecting? ==> s.phase.shard <= |p.locals|)
    && (s.phase.Closing? ==>
          && (s.phase.stage.Untouched? || s.phase.index < |p.disconnects|)
          && (s.phase.stage.Clearing? ==> s.phase.stage.shard <= |p.locals|))
    && (forall k :: Handled(s.phase) <= k < |p.disconnects| ==>
          p.disconnects[k] in p.data || (s.phase.Idle? && p.disconnects[k] in p.newcomers))
    && (forall j, k :: 0 <= j < k < |p.disconnects| ==> p.disconnects[j] != p.disconnects[k])
  }

  // ---------------------------------------------------------------- inputs

  /** The inputs received under network id `i`. */
  function From(inputs: seq<Input>, i: nat): seq<Input> {
    if inputs == [] then []
    else
      var n := |inputs| - 1;
      From(inputs[..n], i) + if inputs[n].source == i then [inputs[n]] else []
  }

  /** All inputs that have left the plugin for one endpoint, delivered or dropped. */
  function Gone(events: seq<Event>): seq<Input> {
    if events == [] then []
    else
      var n := |events| - 1;
      Gone(events[..n]) + Out(events[n])
  }

  function Out(event: Event): seq<Input> {
    if event.Inputs? || event.Dropped? then event.inputs else []
  }

  /** Conservation and order: for every endpoint and network id, what has left the plugin,
      then what the client holds, then what the shard holds, is exactly what was stored. */
  ghost predicate Conserved(s: State) {
    var p := s.plugin;
    && WellFormed(p)
    && (forall i, e :: 0 <= i < |p.pending| && e in p.pending[i] ==> AllFrom(p.pending[i][e], i))
    && (forall i, e :: 0 <= i < |p.pending| ==> Balanced(s, i, e))
  }

  predicate AllFrom(inputs: seq<Input>, i: nat) {
    forall k :: 0 <= k < |inputs| ==> inputs[k].source == i
  }

  ghost predicate Balanced(s: State, i: nat, e: nat)
    requires i < |s.plugin.pending|
  {
    var p := s.plugin;
    Balance(At(p.calls, e), At(p.data, e), At(p.pending[i], e), At(s.stored, e), i)
  }

  /** The account of one endpoint and network id. */
  ghost predicate Balance(events: seq<Event>, client: seq<Input>, shard: seq<Input>, stored: seq<Input>, i: nat) {
    From(Gone(events) + client, i) + shard == From(stored, i)
  }

  // ---------------------------------------------------------------- sessions

  datatype Session = Closed | Open | Broken

  function After(session: Session, event: Event): Session {
    match (session, event)
    case (Closed, NewClient) => Open
    case (Open, Inputs(_)) => Open
    case (Open, Dropped(_)) => Open
    case (Open, Disconnected) => Closed
    case _ => Broken
  }

  function SessionOf(events: seq<Event>): Session {
    if events == [] then Closed else After(SessionOf(events[..|events| - 1]), events[|events| - 1])
  }

  /** The session of an endpoint is open while it has a client or is being torn down. */
  ghost predicate Sessions(s: State) {
    forall e :: SessionOf(At(s.plugin.calls, e)) == if e in s.plugin.data || IsClosing(s, e) then Open else Closed
  }

  // ---------------------------------------------------------------- delivery

  /** Everything shard `i` had stored for `e` when the tick started has left the shard. */
  ghost predicate Moved(s: State, i: nat, e: nat) {
    From(At(s.started, e), i) <= From(Gone(At(s.plugin.calls, e)) + At(s.plugin.data, e), i)
  }

  /** The tick's progress: shards already collected have nothing left from before the tick,
      the others have it only for known clients; after the delivery it is all gone. */
  ghost predicate OnTime(s: State) {
    var p := s.plugin;
    && (forall e, i :: 0 <= i < |p.locals| ==> From(At(s.started, e), i) <= From(At(s.stored, e), i))
    && (s.phase.Collecting? ==>
          forall i, e :: 0 <= i < |p.locals| ==> (i < s.phase.shard || e !in p.data ==> Moved(s, i, e)))
    && (!s.phase.Collecting? ==>
          && (forall e :: e in p.data ==> p.data[e] == [])
          && forall i, e :: 0 <= i < |p.locals| ==> From(At(s.started, e), i) <= From(Gone(At(p.calls, e)), i))
  }

  ghost predicate Inv(s: State) {
    s.ok && Registry(s) && Requests(s) && Conserved(s) && Sessions(s) && OnTime(s)
  }
}
