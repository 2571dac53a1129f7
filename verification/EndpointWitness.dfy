/** The discipline assumed of `disconnect` cannot be dropped. */
module EndpointWitness {
  import opened EndpointState
  import opened EndpointProtocol

  lemma NoSteps(shards: nat)
    ensures IsRun(shards, [Initial(shards)], [])
  {
  }

  /** A run grown step by step. */
  lemma Extend(shards: nat, states: seq<State>, steps: seq<Step>, step: Step, s: State)
    returns (longer: seq<State>, more: seq<Step>)
    requires IsRun(shards, states, steps) && Enabled(states[|steps|], step) && s == Next(states[|steps|], step)
    ensures IsRun(shards, longer, more) && longer == states + [s] && more == steps + [step]
    ensures |longer| == |more| + 1 && longer[|more|] == s
  {
    longer, more := states + [s], steps + [step];
  }

  /** One endpoint with a live client. */
  function Live(e: nat, calls: seq<Event>, disconnects: seq<nat>): Plugin {
    Plugin([{e}], [map[e := []]], {}, {e}, map[e := []], disconnects, map[e := calls])
  }

  /** A client is created, then disconnected twice: the second teardown does not find the
      endpoint it asserts to be registered. Only the second request is undisciplined. */
  lemma DoubleDisconnect(e: nat, buffer: nat) returns (states: seq<State>, steps: seq<Step>)
    ensures IsRun(1, states, steps) && !states[|steps|].ok
    ensures exists k :: 0 <= k < |steps| && steps[k] == RequestDisconnect(e) && e in states[k].plugin.disconnects
                        && forall j :: 0 <= j < |steps| && j != k ==> Disciplined(states[j], steps[j])
  {
    states, steps := Connected(e, buffer);
    var stored := map[e := [Input(0, buffer)]];
    var calls := [NewClient, Inputs([Input(0, buffer)])];
    var s := states[4];
    assert s == State(Live(e, calls, []), Delivered, true, stored, stored);
    states, steps := Extend(1, states, steps, RequestDisconnect(e), s.(plugin := Live(e, calls, [e])));
    states, steps := Extend(1, states, steps, RequestDisconnect(e), s.(plugin := Live(e, calls, [e, e])));
    states, steps := Extend(1, states, steps, LockDisconnects,
        s.(plugin := Live(e, calls, [e, e]), phase := Closing(0, Untouched)));
    states, steps := TornDown(e, stored, calls, states, steps);
    assert steps[5] == RequestDisconnect(e) && e in states[5].plugin.disconnects;
    assert Disciplined(states[4], steps[4]);
  }

  /** Before its client is created, and after, with what the shard and the client hold. */
  function Known(e: nat, input: seq<Input>): State {
    State(Plugin([{e}], [map[e := input]], {e}, {e}, map[], [], map[]), Idle, true, map[e := input], map[])
  }

  function Serving(e: nat, input: seq<Input>, shard: seq<Input>, client: seq<Input>, phase: Phase): State {
    State(Plugin([{e}], [map[e := shard]], {}, {e}, map[e := client], [], map[e := [NewClient]]), phase, true,
        map[e := input], map[e := input])
  }

  lemma FirstPacket(e: nat, buffer: nat)
    ensures Enabled(Initial(1), PacketTask(0, e, buffer))
    ensures Next(Initial(1), PacketTask(0, e, buffer)) == Known(e, [Input(0, buffer)])
  {
    var p := Register(Initial(1).plugin, 0, e);
    assert p.locals[0] == {e} && p.pending[0] == map[e := []];
    var q := Packet(Initial(1).plugin, 0, e, buffer);
    assert At(p.pending[0], e) + [Input(0, buffer)] == [Input(0, buffer)];
    assert q.pending[0] == map[e := [Input(0, buffer)]];
    assert q.endpoints == {e} && q.newcomers == {e};
    assert q.locals == [{e}] && q.pending == [map[e := [Input(0, buffer)]]];
    assert Record(map[], e, Input(0, buffer)) == map[e := [Input(0, buffer)]];
  }

  lemma Created(e: nat, input: seq<Input>)
    ensures Next(Known(e, input), StartTick) == Serving(e, input, input, [], Collecting(0))
  {
    var q := CreateClients(Known(e, input).plugin);
    assert q.data == map[e := []];
    assert At(map[], e) + [NewClient] == [NewClient];
    assert q.calls == map[e := [NewClient]];
  }

  lemma Collected(e: nat, input: seq<Input>)
    ensures Next(Serving(e, input, input, [], Collecting(0)), CollectShard) ==
            Serving(e, input, [], input, Collecting(1))
  {
    var p := Serving(e, input, input, [], Collecting(0)).plugin;
    assert p.pending[0] == map[e := input];
    assert p.data[e] + At(p.pending[0], e) == input;
    var q := Collect(p, 0);
    assert q.data == map[e := input];
    assert q.pending[0] == map[e := []];
    assert q.pending == [map[e := []]];
  }

  lemma EnabledAlong(e: nat, input: seq<Input>)
    ensures Enabled(Known(e, input), StartTick)
    ensures Enabled(Serving(e, input, input, [], Collecting(0)), CollectShard)
    ensures Enabled(Serving(e, input, [], input, Collecting(1)), DeliverInputs)
  {
  }

  lemma GivenTo(e: nat, input: seq<Input>)
    ensures Next(Serving(e, input, [], input, Collecting(1)), DeliverInputs) ==
            State(Live(e, [NewClient, Inputs(input)], []), Delivered, true, map[e := input], map[e := input])
  {
    var p := Deliver(Serving(e, input, [], input, Collecting(1)).plugin);
    assert p.data == map[e := []];
    assert [NewClient] + [Inputs(input)] == [NewClient, Inputs(input)];
    assert At(map[e := [NewClient]], e) == [NewClient];
    assert p.calls == map[e := [NewClient, Inputs(input)]];
  }

  /** A packet comes, a tick creates the client and delivers. */
  lemma Connected(e: nat, buffer: nat) returns (states: seq<State>, steps: seq<Step>)
    ensures IsRun(1, states, steps) && |steps| == 4
    ensures forall j :: 0 <= j < 4 ==> !steps[j].RequestDisconnect?
    ensures var stored := map[e := [Input(0, buffer)]];
            states[4] == State(Live(e, [NewClient, Inputs([Input(0, buffer)])], []), Delivered, true, stored, stored)
  {
    hide IsRun;
    hide Next;
    hide Initial;
    hide Live;
    hide Known;
    hide Serving;
    hide Enabled;
    var input := [Input(0, buffer)];
    EnabledAlong(e, input);
    FirstPacket(e, buffer);
    Created(e, input);
    Collected(e, input);
    GivenTo(e, input);
    var last := Next(Serving(e, input, [], input, Collecting(1)), DeliverInputs);
    states, steps := [Initial(1)], [];
    NoSteps(1);
    states, steps := Extend(1, states, steps, PacketTask(0, e, buffer), Known(e, input));
    states, steps := Extend(1, states, steps, StartTick, Serving(e, input, input, [], Collecting(0)));
    states, steps := Extend(1, states, steps, CollectShard, Serving(e, input, [], input, Collecting(1)));
    states, steps := Extend(1, states, steps, DeliverInputs, last);
  }

  /** The two teardowns. */
  lemma TornDown(e: nat, stored: map<nat, seq<Input>>, calls: seq<Event>, states: seq<State>, steps: seq<Step>)
    returns (longer: seq<State>, more: seq<Step>)
    requires IsRun(1, states, steps)
    requires states[|steps|] == State(Live(e, calls, [e, e]), Closing(0, Untouched), true, stored, stored)
    ensures IsRun(1, longer, more) && !longer[|more|].ok
    ensures states <= longer && steps <= more && forall j :: |steps| <= j < |more| ==> !more[j].RequestDisconnect?
  {
    var s := states[|steps|];
    var s1 := Next(s, EraseClient);
    var s2 := Next(s1, UnregisterEndpoint);
    assert e !in s2.plugin.endpoints && s2.plugin.disconnects == [e, e];
    var s3 := Next(s2, ClearShard);
    var s4 := Next(s3, NotifyDisconnected);
    var s5 := Next(s4, EraseClient);
    var s6 := Next(s5, UnregisterEndpoint);
    assert Enabled(s5, UnregisterEndpoint) && !s6.ok;
    hide IsRun;
    hide Next;
    hide Enabled;
    longer, more := Extend(1, states, steps, EraseClient, s1);
    longer, more := Extend(1, longer, more, UnregisterEndpoint, s2);
    longer, more := Extend(1, longer, more, ClearShard, s3);
    longer, more := Extend(1, longer, more, NotifyDisconnected, s4);
    longer, more := Extend(1, longer, more, EraseClient, s5);
    longer, more := Extend(1, longer, more, UnregisterEndpoint, s6);
  }
}
