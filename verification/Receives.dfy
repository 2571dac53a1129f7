/** The completion of a receive: what becomes of the buffer and the endpoint object, in every
    reachable state of the system, and that it is two steps of that system. */
module Receives {
  import opened EndpointState
  import opened CoreLoop
  import opened BufferOwnership
  import opened BufferTheorems
  import EndpointProtocol

  /** A datagram adds one task with the buffer, the endpoint object and the network id of the
      receive, and gives neither object back; an error adds none and gives both back. Only
      then are objects taken for the next receive. */
  lemma CompletionMeans(l: Loop, i: nat, outcome: Outcome, choice: nat, other: nat)
    requires i in l.armed
    ensures var a := l.armed[i]; var t := Arm(Completed(l, i, outcome), i, choice, other);
            && i in t.armed && t.armed.Keys == l.armed.Keys
            && (forall j :: j in l.armed && j != i ==> t.armed[j] == l.armed[j])
            && t.tasks == l.tasks + (if outcome.Datagram? then [Task(i, a.endpoint, a.buffer)] else [])
            && (t.buffers, t.armed[i].buffer) ==
               Taken(if outcome.Failed? then Pool(l.buffers.free + [a.buffer], l.buffers.made) else l.buffers, choice)
            && (t.objects, t.armed[i].endpoint) ==
               Taken(if outcome.Failed? then Pool(l.objects.free + [a.endpoint], l.objects.made) else l.objects, other)
  {
  }

  // ---------------------------------------------------------------- in every run

  /** Receives are armed for network ids of the plugin only. */
  ghost predicate Ranged(s: State) {
    forall i :: i in s.loop.armed ==> i < |s.protocol.plugin.locals|
  }

  lemma StepRanged(s: State, step: Step)
    requires Ranged(s) && Paired(s.protocol.plugin) && Enabled(s, step)
    ensures Ranged(Next(s, step))
  {
    if step.PluginStep? {
      SameShards(s.protocol, step.step);
    } else if step.RunTask? {
      SameShards(s.protocol, PacketOf(s.loop, s.loop.tasks[step.index]));
    }
  }

  lemma SameShards(s: EndpointProtocol.State, step: EndpointProtocol.Step)
    requires EndpointProtocol.Enabled(s, step)
    ensures |EndpointProtocol.Next(s, step).plugin.locals| == |s.plugin.locals|
  {
  }

  lemma {:induction false} RunRanged(shards: nat, states: seq<State>, steps: seq<Step>, n: nat)
    requires IsRun(shards, states, steps) && n <= |steps|
    ensures Ranged(states[n])
  {
    hide Next;
    hide Enabled;
    hide Ranged;
    if n == 0 {
      assert Ranged(states[0]) by { InitialRanged(shards); }
    } else {
      RunRanged(shards, states, steps, n - 1);
      RunOwns(shards, states, steps, n - 1);
      StepRanged(states[n - 1], steps[n - 1]);
    }
  }

  lemma InitialRanged(shards: nat)
    ensures Ranged(Initial(shards))
  {
  }

  /** What an armed receive holds is in no free queue, and was made before. */
  lemma ArmedIsTaken(shards: nat, states: seq<State>, steps: seq<Step>, n: nat, i: nat)
    requires IsRun(shards, states, steps) && n <= |steps| && i in states[n].loop.armed
    ensures var l := states[n].loop; var a := l.armed[i];
            && a.buffer !in l.buffers.free && a.buffer < l.buffers.made
            && a.endpoint !in l.objects.free && a.endpoint < l.objects.made
  {
    RunOwns(shards, states, steps, n);
    hide IsRun;
    hide Owned;
    Apart(states[n], ArmedBuffer(i), FreeBuffers, states[n].loop.armed[i].buffer);
    Apart(states[n], ArmedObject(i), FreeObjects, states[n].loop.armed[i].endpoint);
  }

  /** The step that a completion is before the next receive is armed. */
  function CompletionStep(i: nat, outcome: Outcome): Step {
    if outcome.Failed? then ReceiveFails(i) else DatagramArrives(i, outcome.address, outcome.payload)
  }

  /** In every reachable state the completion of an armed receive is a path of two steps. A
      datagram ends up with exactly one new task, which has it unchanged in a buffer of its
      own with the sender's address beside it: the next receive is armed with other objects.
      After an error there is no new task, and both objects are free or armed again. */
  lemma OnReceivedIsPath(shards: nat, states: seq<State>, steps: seq<Step>, n: nat, i: nat,
      outcome: Outcome, choice: nat, other: nat)
    requires IsRun(shards, states, steps) && n <= |steps| && i in states[n].loop.armed
    ensures Enabled(states[n], CompletionStep(i, outcome))
    ensures var s := states[n]; var a := s.loop.armed[i]; var middle := Next(s, CompletionStep(i, outcome));
            && Enabled(middle, ArmReceive(i, choice, other))
            && var l := Next(middle, ArmReceive(i, choice, other)).loop;
               && l == Arm(Completed(s.loop, i, outcome), i, choice, other) && i in l.armed
               && (outcome.Datagram? ==>
                    && l.tasks == s.loop.tasks + [Task(i, a.endpoint, a.buffer)]
                    && a.buffer in l.contents && l.contents[a.buffer] == outcome.payload
                    && a.endpoint in l.addresses && l.addresses[a.endpoint] == outcome.address
                    && a.buffer != l.armed[i].buffer && a.buffer !in l.buffers.free
                    && a.endpoint != l.armed[i].endpoint && a.endpoint !in l.objects.free)
               && (outcome.Failed? ==>
                    && l.tasks == s.loop.tasks
                    && (a.buffer == l.armed[i].buffer || a.buffer in l.buffers.free)
                    && (a.endpoint == l.armed[i].endpoint || a.endpoint in l.objects.free))
  {
    RunRanged(shards, states, steps, n);
    ArmedIsTaken(shards, states, steps, n, i);
    hide IsRun;
    PairOf(states[n].loop, i, outcome, choice, other);
  }

  lemma PairOf(l: Loop, i: nat, outcome: Outcome, choice: nat, other: nat)
    requires i in l.armed
    requires l.armed[i].buffer !in l.buffers.free && l.armed[i].buffer < l.buffers.made
    requires l.armed[i].endpoint !in l.objects.free && l.armed[i].endpoint < l.objects.made
    ensures var a := l.armed[i]; var t := Arm(Completed(l, i, outcome), i, choice, other);
            && i in t.armed
            && (outcome.Datagram? ==>
                 && a.buffer != t.armed[i].buffer && a.buffer !in t.buffers.free
                 && a.endpoint != t.armed[i].endpoint && a.endpoint !in t.objects.free)
            && (outcome.Failed? ==>
                 && (a.buffer == t.armed[i].buffer || a.buffer in t.buffers.free)
                 && (a.endpoint == t.armed[i].endpoint || a.endpoint in t.objects.free))
  {
    if outcome.Datagram? {
      TakesAnother(l.buffers, choice, l.armed[i].buffer);
      TakesAnother(l.objects, other, l.armed[i].endpoint);
    } else {
      TakesOrLeaves(Returned(l.buffers, l.armed[i].buffer), choice, l.armed[i].buffer);
      TakesOrLeaves(Returned(l.objects, l.armed[i].endpoint), other, l.armed[i].endpoint);
    }
  }

  lemma TakesAnother(p: Pool, choice: nat, item: nat)
    requires item !in p.free && item < p.made
    ensures Taken(p, choice).1 != item && item !in Taken(p, choice).0.free
  {
  }

  lemma TakesOrLeaves(p: Pool, choice: nat, item: nat)
    requires item in p.free
    ensures Taken(p, choice).1 == item || item in Taken(p, choice).0.free
  {
    if choice < |p.free| {
      var k :| 0 <= k < |p.free| && p.free[k] == item;
      if k < choice {
        assert Removed(p.free, choice)[k] == item;
      } else if k > choice {
        assert Removed(p.free, choice)[k - 1] == item;
      }
    }
  }
}
