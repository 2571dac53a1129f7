/** Paths of the endpoint protocol, from any state, whose requests are disciplined. */
module EndpointPaths {
  import opened EndpointState
  import opened EndpointProtocol

  /** `steps` leads from `s` to `t`, and all its requests are disciplined. */
  ghost predicate Continues(s: State, steps: seq<Step>, t: State)
    decreases |steps|
  {
    if steps == [] then s == t
    else Enabled(s, steps[0]) && Disciplined(s, steps[0]) && Continues(Next(s, steps[0]), steps[1..], t)
  }

  lemma {:induction false} ContinuesOn(s: State, steps: seq<Step>, t: State, more: seq<Step>, u: State)
    requires Continues(s, steps, t) && Continues(t, more, u)
    ensures Continues(s, steps + more, u)
    decreases |steps|
  {
    hide Next;
    hide Enabled;
    hide Disciplined;
    if steps == [] {
      assert steps + more == more;
    } else {
      ContinuesOn(Next(s, steps[0]), steps[1..], t, more, u);
      assert (steps + more)[1..] == steps[1..] + more;
    }
  }

  lemma Nowhere(s: State)
    ensures Continues(s, [], s)
  {
  }

  lemma First(s: State, step: Step, steps: seq<Step>, t: State)
    requires Enabled(s, step) && Disciplined(s, step) && Continues(Next(s, step), steps, t)
    ensures Continues(s, [step] + steps, t)
  {
    assert ([step] + steps)[1..] == steps;
  }

  lemma AndThen(s: State, steps: seq<Step>, t: State, step: Step, u: State)
    requires Continues(s, steps, t) && Enabled(t, step) && Disciplined(t, step) && u == Next(t, step)
    ensures Continues(s, steps + [step], u)
  {
    assert [step][1..] == [] && Continues(Next(t, step), [], u);
    ContinuesOn(s, steps, t, [step], u);
  }
}
