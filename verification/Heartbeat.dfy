/** The pacing of the main loop: a running mean of the tick period steers how long the loop
    sleeps. Time is in whole milliseconds, sleeps are exact, and the mean is a real. */
module Heartbeat {

  function Ceil(r: real): int {
    -((-r).Floor)
  }

  /** What a turn costs: up to the sleep (`work`), and after it (`post`). */
  datatype Tick = Tick(work: nat, post: nat)

  /** `now` is when the last turn started, `mean` the running mean, `clock` the time. */
  datatype Pace = Pace(now: int, mean: real, clock: int)

  /** From the start of a turn to the start of the next, by the mean it computes. */
  function Period(heartBeat: nat, mean: real, t: Tick): int {
    (if t.work + (Ceil(mean) - heartBeat) < heartBeat then 2 * heartBeat - Ceil(mean) else t.work) + t.post
  }

  function NextMean(heartBeat: nat, mean: real, t: Tick): real {
    0.95 * mean + 0.05 * (Period(heartBeat, mean, t) as real)
  }

  function Turn(heartBeat: nat, p: Pace, t: Tick): Pace {
    var mean := 0.95 * p.mean + 0.05 * ((p.clock - p.now) as real);
    Pace(p.clock, mean, p.clock + Period(heartBeat, mean, t))
  }

  class CoreLoop {
    const heartBeat: nat
    var now: int
    var diffMean: real
    /** The reading of the clock. */
    var clock: int

    function View(): Pace
      reads this
    {
      Pace(now, diffMean, clock)
    }

    /** The mean is never negative, so taking it as unsigned loses nothing. */
    predicate Valid()
      reads this
    {
      now <= clock && diffMean >= 0.0
    }

    constructor (heartBeat: nat, created: int, started: int)
      requires created <= started
      ensures Valid() && this.heartBeat == heartBeat && View() == Pace(created, 0.0, started)
    {
      this.heartBeat := heartBeat;
      now, diffMean, clock := created, 0.0, started;
    }

    /** One turn of the loop. */
    method RunTick(t: Tick)
      requires Valid()
      modifies this
      ensures Valid() && View() == Turn(heartBeat, old(View()), t)
    {
      var lastTick := now;
      now := clock;
      var diff := now - lastTick;
      diffMean := 0.95 * diffMean + 0.05 * (diff as real);
      clock := clock + t.work;
      var mean := Ceil(diffMean);
      assert mean >= 0;
      var updateTime := (clock - now) + (mean - heartBeat);
      if updateTime < heartBeat {
        clock := clock + (heartBeat - updateTime);
      }
      clock := clock + t.post;
    }

    /** The loop, for as long as it runs. */
    method Run(ticks: seq<Tick>)
      requires Valid()
      modifies this
      ensures Valid() && View() == TurnAll(heartBeat, old(View()), ticks)
    {
      for k := 0 to |ticks|
        invariant Valid() && View() == TurnAll(heartBeat, old(View()), ticks[..k])
      {
        assert ticks[..k + 1][..k] == ticks[..k];
        RunTick(ticks[k]);
      }
      assert ticks[..|ticks|] == ticks;
    }
  }

  function TurnAll(heartBeat: nat, p: Pace, ticks: seq<Tick>): Pace {
    if ticks == [] then p
    else Turn(heartBeat, TurnAll(heartBeat, p, ticks[..|ticks| - 1]), ticks[|ticks| - 1])
  }

  /** The mean, turn by turn, from a turn that has computed `mean`. */
  function MeanAfter(heartBeat: nat, mean: real, ticks: seq<Tick>): real {
    if ticks == [] then mean
    else NextMean(heartBeat, MeanAfter(heartBeat, mean, ticks[..|ticks| - 1]), ticks[|ticks| - 1])
  }

  /** The loop's mean, seen `|ticks|` turns after a first one: each turn's period is only
      measured by the next. */
  lemma {:induction false} LoopFollowsMean(heartBeat: nat, p: Pace, first: Tick, ticks: seq<Tick>)
    ensures var q := Turn(heartBeat, p, first);
            TurnAll(heartBeat, q, ticks).mean == MeanAfter(heartBeat, q.mean, ([first] + ticks)[..|ticks|])
    ensures var q := TurnAll(heartBeat, Turn(heartBeat, p, first), ticks);
            q.clock - q.now == Period(heartBeat, q.mean, ([first] + ticks)[|ticks|])
  {
    if ticks != [] {
      var n := |ticks| - 1;
      LoopFollowsMean(heartBeat, p, first, ticks[..n]);
      var all := [first] + ticks;
      assert ([first] + ticks[..n])[..n] == all[..n + 1][..n] && ([first] + ticks[..n])[n] == all[..n + 1][n];
    }
  }

  // ---------------------------------------------------------------- contraction

  /** The turn leaves time to sleep. */
  predicate Unloaded(heartBeat: nat, mean: real, t: Tick) {
    t.work < 2 * heartBeat - Ceil(mean)
  }

  /** One turn shrinks the error of the mean to nine tenths, up to the rounding of the mean;
      from below whatever the load, from above with time to sleep. Time spent after the
      sleep adds a twentieth of itself. */
  lemma Contraction(heartBeat: nat, mean: real, t: Tick)
    ensures var e, next := mean - heartBeat as real, NextMean(heartBeat, mean, t) - heartBeat as real;
            && 0.9 * e - 0.05 < next
            && (Unloaded(heartBeat, mean, t) ==>
                0.9 * e - 0.05 + 0.05 * t.post as real < next <= 0.9 * e + 0.05 * t.post as real)
  {
    var c := Ceil(mean);
    assert mean <= c as real < mean + 1.0;
    assert Period(heartBeat, mean, t) >= 2 * heartBeat - c;
  }

  function Pow(x: real, n: nat): real {
    if n == 0 then 1.0 else x * Pow(x, n - 1)
  }

  lemma {:induction false} PowIn(x: real, n: nat)
    requires 0.0 < x < 1.0
    ensures 0.0 < Pow(x, n) <= 1.0
  {
    if n > 0 {
      PowIn(x, n - 1);
    }
  }

  ghost predicate UnloadedRun(heartBeat: nat, mean: real, ticks: seq<Tick>) {
    forall k :: 0 <= k < |ticks| ==> Unloaded(heartBeat, MeanAfter(heartBeat, mean, ticks[..k]), ticks[k])
  }

  /** The error after a while, at least and at most, when an error `e` has shrunk to the
      share `p` of itself. */
  function Lower(p: real, e: real): real {
    p * e - 0.5 * (1.0 - p)
  }

  function Upper(p: real, e: real, post: real): real {
    p * e + 0.5 * post * (1.0 - p)
  }

  lemma AtFirst(e: real, post: real)
    ensures Lower(Pow(0.9, 0), e) == e == Upper(Pow(0.9, 0), e, post)
  {
    assert Pow(0.9, 0) == 1.0;
    assert 0.5 * post * (1.0 - 1.0) == 0.0;
  }

  lemma {:induction false} LowerBound(heartBeat: nat, mean: real, ticks: seq<Tick>)
    ensures Lower(Pow(0.9, |ticks|), mean - heartBeat as real) <= MeanAfter(heartBeat, mean, ticks) - heartBeat as real
  {
    hide Lower;
    hide NextMean;
    hide Unloaded;
    if ticks == [] {
      AtFirst(mean - heartBeat as real, 0.0);
    } else {
      var n := |ticks| - 1;
      var before := MeanAfter(heartBeat, mean, ticks[..n]);
      LowerBound(heartBeat, mean, ticks[..n]);
      Contraction(heartBeat, before, ticks[n]);
      LowerStep(Pow(0.9, n), mean - heartBeat as real, before - heartBeat as real);
    }
  }

  lemma {:induction false} UpperBound(heartBeat: nat, mean: real, ticks: seq<Tick>, post: nat)
    requires forall k :: 0 <= k < |ticks| ==> ticks[k].post <= post
    requires UnloadedRun(heartBeat, mean, ticks)
    ensures MeanAfter(heartBeat, mean, ticks) - heartBeat as real <=
            Upper(Pow(0.9, |ticks|), mean - heartBeat as real, post as real)
  {
    hide Unloaded;
    hide Upper;
    hide Pow;
    hide NextMean;
    if ticks == [] {
      AtFirst(mean - heartBeat as real, post as real);
    } else {
      var n := |ticks| - 1;
      UnloadedFront(heartBeat, mean, ticks, n);
      UpperBound(heartBeat, mean, ticks[..n], post);
      assert Unloaded(heartBeat, MeanAfter(heartBeat, mean, ticks[..n]), ticks[n]);
      UpperTurn(heartBeat, MeanAfter(heartBeat, mean, ticks[..n]), ticks[n], mean - heartBeat as real, n, post);
    }
  }

  lemma UpperTurn(heartBeat: nat, before: real, t: Tick, e: real, n: nat, post: nat)
    requires before - heartBeat as real <= Upper(Pow(0.9, n), e, post as real)
    requires Unloaded(heartBeat, before, t) && t.post <= post
    ensures NextMean(heartBeat, before, t) - heartBeat as real <= Upper(Pow(0.9, n + 1), e, post as real)
  {
    hide Upper;
    hide NextMean;
    Contraction(heartBeat, before, t);
    UpperChain(Pow(0.9, n), Pow(0.9, n + 1), e, before - heartBeat as real, t.post as real, post as real,
               NextMean(heartBeat, before, t) - heartBeat as real);
  }

  /** After `n` turns the error is above nine tenths to the `n` of what it was, less at most
      a half; and, if there was always time to sleep, below that plus half of the longest
      time spent after a sleep. */
  lemma ErrorBounds(heartBeat: nat, mean: real, ticks: seq<Tick>, post: nat)
    requires forall k :: 0 <= k < |ticks| ==> ticks[k].post <= post
    ensures var e, last := mean - heartBeat as real, MeanAfter(heartBeat, mean, ticks) - heartBeat as real;
            && Lower(Pow(0.9, |ticks|), e) <= last
            && (UnloadedRun(heartBeat, mean, ticks) ==> last <= Upper(Pow(0.9, |ticks|), e, post as real))
  {
    hide Lower;
    hide Upper;
    hide UnloadedRun;
    hide MeanAfter;
    hide Pow;
    LowerBound(heartBeat, mean, ticks);
    if UnloadedRun(heartBeat, mean, ticks) {
      UpperBound(heartBeat, mean, ticks, post);
    }
  }

  lemma UnloadedFront(heartBeat: nat, mean: real, ticks: seq<Tick>, n: nat)
    requires UnloadedRun(heartBeat, mean, ticks) && n <= |ticks|
    ensures UnloadedRun(heartBeat, mean, ticks[..n])
  {
    hide Unloaded;
    forall k | 0 <= k < n
      ensures Unloaded(heartBeat, MeanAfter(heartBeat, mean, ticks[..n][..k]), ticks[..n][k])
    {
      assert ticks[..n][..k] == ticks[..k];
    }
  }

  lemma LowerStep(p: real, e: real, before: real)
    requires Lower(p, e) <= before
    ensures Lower(0.9 * p, e) <= 0.9 * before - 0.05
  {
    assert 0.9 * (p * e) == 0.9 * p * e;
  }

  lemma UpperChain(p: real, q: real, e: real, before: real, some: real, post: real, last: real)
    requires before <= Upper(p, e, post) && some <= post && last <= 0.9 * before + 0.05 * some && q == 0.9 * p
    ensures last <= Upper(q, e, post)
  {
    UpperStep(p, e, before, post);
  }

  lemma UpperStep(p: real, e: real, before: real, post: real)
    requires before <= Upper(p, e, post)
    ensures 0.9 * before + 0.05 * post <= Upper(0.9 * p, e, post)
  {
    assert 0.9 * (p * e) == 0.9 * p * e;
    assert 0.5 * post * (1.0 - p) == 0.5 * post - 0.5 * (post * p);
    assert 0.5 * post * (1.0 - 0.9 * p) == 0.5 * post - 0.45 * (post * p);
  }

  function Size(e: real): real {
    if e < 0.0 then 0.0 - e else e
  }

  function Band(p: real, e: real): real {
    p * Size(e)
  }

  /** The same without reference to the sign of the first error. */
  lemma ErrorBand(heartBeat: nat, mean: real, ticks: seq<Tick>)
    requires UnloadedRun(heartBeat, mean, ticks) && forall k :: 0 <= k < |ticks| ==> ticks[k].post == 0
    ensures var band := Band(Pow(0.9, |ticks|), mean - heartBeat as real);
            -0.5 - band <= MeanAfter(heartBeat, mean, ticks) - heartBeat as real <= band
  {
    hide Size;
    hide Lower;
    hide Upper;
    hide Band;
    hide Pow;
    hide MeanAfter;
    hide UnloadedRun;
    LowerBound(heartBeat, mean, ticks);
    UpperBound(heartBeat, mean, ticks, 0);
    PowIn(0.9, |ticks|);
    BandOf(Pow(0.9, |ticks|), mean - heartBeat as real, 0 as real);
  }

  lemma BandOf(p: real, e: real, post: real)
    requires 0.0 < p <= 1.0 && post == 0.0
    ensures -0.5 - Band(p, e) <= Lower(p, e) && Upper(p, e, post) <= Band(p, e)
  {
    Magnitude(p, e);
  }

  lemma Magnitude(p: real, e: real)
    requires 0.0 < p
    ensures 0.0 - Band(p, e) <= p * e <= Band(p, e)
  {
    if e < 0.0 {
      assert p * (0.0 - e) == 0.0 - p * e;
      assert p * e <= 0.0;
    } else {
      assert p * e >= 0.0;
    }
  }

  // ---------------------------------------------------------------- convergence

  /** Below the heart beat the error shrinks by at least a twentieth and never changes sign;
      above it, it falls by at least a twentieth of a millisecond. */
  lemma BothSides(heartBeat: nat, mean: real, t: Tick)
    requires Unloaded(heartBeat, mean, t) && t.post == 0
    ensures var e, next := mean - heartBeat as real, NextMean(heartBeat, mean, t) - heartBeat as real;
            if e <= 0.0 then 0.95 * e <= next <= 0.9 * e else -0.05 < next <= e - 0.05
  {
    var c := Ceil(mean);
    assert mean <= c as real < mean + 1.0;
    if mean <= heartBeat as real {
      assert c <= heartBeat;
    } else {
      assert c >= heartBeat + 1;
    }
  }

  ghost predicate Calm(heartBeat: nat, mean: real, ticks: seq<Tick>) {
    UnloadedRun(heartBeat, mean, ticks) && forall k :: 0 <= k < |ticks| ==> ticks[k].post == 0
  }

  lemma CalmFront(heartBeat: nat, mean: real, ticks: seq<Tick>, n: nat)
    requires Calm(heartBeat, mean, ticks) && n <= |ticks|
    ensures Calm(heartBeat, mean, ticks[..n])
  {
    UnloadedFront(heartBeat, mean, ticks, n);
  }

  /** What is left of an error `floor` after `n` turns below the heart beat. */
  function Faded(n: nat, floor: real): real {
    Pow(0.95, n) * floor
  }

  function Floor(e: real): real {
    if e < -0.05 then e else -0.05
  }

  /** Once there were enough turns for the descent from above, the error is no longer
      positive, and fades from then on. */
  lemma {:induction false} Approaches(heartBeat: nat, mean: real, ticks: seq<Tick>, settled: nat)
    requires Calm(heartBeat, mean, ticks) && settled <= |ticks|
    requires 20.0 * (mean - heartBeat as real) <= settled as real
    ensures Faded(|ticks| - settled, Floor(mean - heartBeat as real)) <=
            MeanAfter(heartBeat, mean, ticks) - heartBeat as real <= 0.0
    decreases |ticks|
  {
    if |ticks| == settled {
      Descends(heartBeat, mean, ticks);
    } else {
      var n := |ticks| - 1;
      var before := MeanAfter(heartBeat, mean, ticks[..n]);
      CalmFront(heartBeat, mean, ticks, n);
      Approaches(heartBeat, mean, ticks[..n], settled);
      assert Unloaded(heartBeat, MeanAfter(heartBeat, mean, ticks[..n]), ticks[n]);
      hide Unloaded;
      hide UnloadedRun;
      hide NextMean;
      hide Faded;
      BothSides(heartBeat, before, ticks[n]);
      Fades(n - settled, Floor(mean - heartBeat as real), before - heartBeat as real);
    }
  }

  lemma Fades(n: nat, floor: real, before: real)
    requires Faded(n, floor) <= before
    ensures Faded(n + 1, floor) <= 0.95 * before
  {
    assert 0.95 * (Pow(0.95, n) * floor) == 0.95 * Pow(0.95, n) * floor;
  }

  /** The descent: a positive error falls by 0.05 a turn, and what it falls to when it
      stops being positive is above -0.05. */
  lemma {:induction false} Descends(heartBeat: nat, mean: real, ticks: seq<Tick>)
    requires Calm(heartBeat, mean, ticks)
    ensures var e, last := mean - heartBeat as real, MeanAfter(heartBeat, mean, ticks) - heartBeat as real;
            && Floor(e) <= last
            && (last <= 0.0 || last <= e - 0.05 * |ticks| as real)
  {
    if ticks != [] {
      var n := |ticks| - 1;
      CalmFront(heartBeat, mean, ticks, n);
      Descends(heartBeat, mean, ticks[..n]);
      BothSides(heartBeat, MeanAfter(heartBeat, mean, ticks[..n]), ticks[n]);
    }
  }

  lemma {:induction false} PowVanishes(n: nat)
    ensures Pow(0.95, n) * (20.0 + n as real) <= 20.0
    ensures Pow(0.95, n) > 0.0
  {
    if n > 0 {
      PowVanishes(n - 1);
      var p := Pow(0.95, n - 1);
      assert 0.95 * p * (20.0 + n as real) == p * (19.0 + 0.95 * n as real);
      assert p * (19.0 + 0.95 * n as real) <= p * (20.0 + (n - 1) as real);
    }
  }

  /** Convergence: whatever the mean starts from and however close it shall come, there is a
      number of turns after which every calm run has brought it that close to the heart
      beat, for good, and no higher than the heart beat. */
  lemma Converges(heartBeat: nat, mean: real, close: real) returns (turns: nat)
    requires close > 0.0
    ensures forall ticks :: Calm(heartBeat, mean, ticks) && |ticks| >= turns ==>
              heartBeat as real - close <= MeanAfter(heartBeat, mean, ticks) <= heartBeat as real
  {
    var e := mean - heartBeat as real;
    var settled := if e <= 0.0 then 0 else Ceil(20.0 * e);
    turns := settled + Ceil(Needed(Floor(e), close));
    forall ticks | Calm(heartBeat, mean, ticks) && |ticks| >= turns
      ensures heartBeat as real - close <= MeanAfter(heartBeat, mean, ticks) <= heartBeat as real
    {
      ConvergesBy(heartBeat, mean, close, ticks, settled);
    }
  }

  /** How many turns it takes an error `floor` below the heart beat to come `close` to it. */
  function Needed(floor: real, close: real): real
    requires close > 0.0
  {
    20.0 * (0.0 - floor) / close
  }

  lemma ConvergesBy(heartBeat: nat, mean: real, close: real, ticks: seq<Tick>, settled: nat)
    requires close > 0.0 && Calm(heartBeat, mean, ticks) && settled <= |ticks|
    requires 20.0 * (mean - heartBeat as real) <= settled as real
    requires (|ticks| - settled) as real >= Needed(Floor(mean - heartBeat as real), close)
    ensures heartBeat as real - close <= MeanAfter(heartBeat, mean, ticks) <= heartBeat as real
  {
    hide MeanAfter;
    hide Calm;
    hide Needed;
    hide Faded;
    Approaches(heartBeat, mean, ticks, settled);
    FadesTo(|ticks| - settled, Floor(mean - heartBeat as real), close);
  }

  lemma FadesTo(n: nat, floor: real, close: real)
    requires close > 0.0 && floor < 0.0 && n as real >= Needed(floor, close)
    ensures 0.0 - close <= Faded(n, floor)
  {
    SmallEnough(n, 0.0 - floor, close);
    hide Pow;
    assert Pow(0.95, n) * (0.0 - floor) == 0.0 - Pow(0.95, n) * floor;
  }

  lemma SmallEnough(n: nat, size: real, close: real)
    requires close > 0.0 && size > 0.0 && n as real >= 20.0 * size / close
    ensures Pow(0.95, n) * size <= close
  {
    PowVanishes(n);
    hide Pow;
    var p, turns := Pow(0.95, n), n as real;
    Divided(20.0 * size, close, turns);
    assert p * turns <= 20.0 by { assert p * (20.0 + turns) == 20.0 * p + p * turns; }
    Scale(p * turns, 20.0, close);
    Scale(20.0 * size, turns * close, p);
    assert p * turns * close == turns * close * p;
    assert 20.0 * size * p == 20.0 * (p * size);
  }

  lemma Divided(a: real, b: real, q: real)
    requires b > 0.0 && q >= a / b
    ensures q * b >= a
  {
    Scale(a / b, q, b);
    assert a / b * b == a;
  }

  lemma Scale(a: real, b: real, c: real)
    requires a <= b && c >= 0.0
    ensures a * c <= b * c
  {
  }

  /** A caller can see to it that a run is calm: it is, if the mean starts at or below the
      heart beat, every turn works less than a heart beat, and nothing follows the sleep. */
  lemma {:induction false} LightWorkIsCalm(heartBeat: nat, mean: real, ticks: seq<Tick>)
    requires mean <= heartBeat as real
    requires forall k :: 0 <= k < |ticks| ==> ticks[k].work < heartBeat && ticks[k].post == 0
    ensures Calm(heartBeat, mean, ticks) && MeanAfter(heartBeat, mean, ticks) <= heartBeat as real
  {
    if ticks != [] {
      var n := |ticks| - 1;
      LightWorkIsCalm(heartBeat, mean, ticks[..n]);
      var before := MeanAfter(heartBeat, mean, ticks[..n]);
      assert Ceil(before) <= heartBeat;
      BothSides(heartBeat, before, ticks[n]);
      forall k | 0 <= k < |ticks|
        ensures Unloaded(heartBeat, MeanAfter(heartBeat, mean, ticks[..k]), ticks[k])
      {
        if k < n {
          assert ticks[..n][..k] == ticks[..k] && ticks[..n][k] == ticks[k];
        }
      }
    }
  }

  /** Every turn works less than a heart beat, and nothing follows its sleep. */
  predicate Light(heartBeat: nat, ticks: seq<Tick>) {
    forall k :: 0 <= k < |ticks| ==> ticks[k].work < heartBeat && ticks[k].post == 0
  }

  /** The mean that a loop in state `p` has computed by the start of the last of `ticks`. */
  function MeanAtLast(heartBeat: nat, p: Pace, ticks: seq<Tick>): real {
    TurnAll(heartBeat, p, ticks).mean
  }

  /** A loop started within twenty heart beats of its creation, all of whose turns are
      light, has a mean period that comes as close to the heart beat as one likes, and
      never exceeds it. */
  lemma SettlesFromStart(heartBeat: nat, p: Pace, close: real) returns (turns: nat)
    requires p.mean == 0.0 && 0 <= p.clock - p.now <= 20 * heartBeat && close > 0.0
    ensures forall ticks :: ticks != [] && Light(heartBeat, ticks) ==>
              MeanAtLast(heartBeat, p, ticks) <= heartBeat as real
    ensures forall ticks :: |ticks| > turns && Light(heartBeat, ticks) ==>
              heartBeat as real - close <= MeanAtLast(heartBeat, p, ticks)
  {
    hide MeanAfter;
    hide MeanAtLast;
    hide Calm;
    var start := 0.95 * p.mean + 0.05 * ((p.clock - p.now) as real);
    turns := Converges(heartBeat, start, close);
    forall ticks | ticks != [] && Light(heartBeat, ticks)
      ensures MeanAtLast(heartBeat, p, ticks) == MeanAfter(heartBeat, start, ticks[..|ticks| - 1])
      ensures MeanAtLast(heartBeat, p, ticks) <= heartBeat as real && Calm(heartBeat, start, ticks[..|ticks| - 1])
    {
      FromFirst(heartBeat, p, ticks);
      LightWorkIsCalm(heartBeat, start, ticks[..|ticks| - 1]);
    }
  }

  lemma {:induction false} TurnAllFirst(heartBeat: nat, p: Pace, ticks: seq<Tick>)
    requires ticks != []
    ensures TurnAll(heartBeat, p, ticks) == TurnAll(heartBeat, Turn(heartBeat, p, ticks[0]), ticks[1..])
    decreases |ticks|
  {
    hide Turn;
    var n := |ticks| - 1;
    if n == 0 {
      assert ticks[..0] == [];
    } else {
      TurnAllFirst(heartBeat, p, ticks[..n]);
      assert ticks[..n][1..] == ticks[1..][..n - 1];
    }
  }

  lemma FromFirst(heartBeat: nat, p: Pace, ticks: seq<Tick>)
    requires ticks != []
    ensures MeanAtLast(heartBeat, p, ticks) ==
            MeanAfter(heartBeat, 0.95 * p.mean + 0.05 * ((p.clock - p.now) as real), ticks[..|ticks| - 1])
  {
    TurnAllFirst(heartBeat, p, ticks);
    LoopFollowsMean(heartBeat, p, ticks[0], ticks[1..]);
    assert [ticks[0]] + ticks[1..] == ticks;
  }

  // ---------------------------------------------------------------- every load

  /** How long a turn lasts. With no time to sleep it does not sleep. Otherwise it makes up for
      the lag of the mean: up to the end of the sleep it takes twice the heart beat less the
      mean, rounded down, which leaves it longer than its work. */
  lemma TurnLasts(heartBeat: nat, p: Pace, t: Tick)
    ensures var q := Turn(heartBeat, p, t); var lasts := q.clock - q.now - t.post;
            && q.now == p.clock
            && (!Unloaded(heartBeat, q.mean, t) ==> lasts == t.work)
            && (Unloaded(heartBeat, q.mean, t) ==>
                 && t.work < lasts
                 && lasts as real <= (2 * heartBeat) as real - q.mean < lasts as real + 1.0)
  {
    var q := Turn(heartBeat, p, t);
    assert q.mean <= Ceil(q.mean) as real < q.mean + 1.0;
  }

  function Max(a: real, b: real): real {
    if a >= b then a else b
  }

  /** One turn of any load keeps the mean between what shrinks towards the time it takes and
      what shrinks towards the longer of that and the heart beat. */
  lemma LoadTurn(heartBeat: nat, mean: real, t: Tick)
    ensures var next := NextMean(heartBeat, mean, t);
            var ceiling := Max(heartBeat as real, t.work as real) + t.post as real;
            && 0.95 * mean + 0.05 * (t.work + t.post) as real <= next
            && next <= ceiling + 0.95 * Max(mean - ceiling, 0.0)
            && (mean > heartBeat as real && t.work >= heartBeat ==>
                 next == 0.95 * mean + 0.05 * (t.work + t.post) as real)
  {
    var c := Ceil(mean);
    assert mean <= c as real < mean + 1.0;
    if mean > heartBeat as real {
      assert c > heartBeat;
    } else {
      assert c <= heartBeat;
    }
  }

  /** Every turn takes at least `least`, works at most `work`, and takes at most `post` after
      its sleep. */
  predicate Within(ticks: seq<Tick>, least: nat, work: nat, post: nat) {
    forall k :: 0 <= k < |ticks| ==>
      least <= ticks[k].work + ticks[k].post && ticks[k].work <= work && ticks[k].post <= post
  }

  /** The mean at least, and at most, when the share `p` of the first distance is left. */
  function Above(p: real, mean: real, least: real): real {
    least + p * (mean - least)
  }

  function Under(p: real, mean: real, most: real): real {
    most + p * Max(mean - most, 0.0)
  }

  lemma AboveStep(p: real, mean: real, least: real, before: real)
    requires Above(p, mean, least) <= before
    ensures Above(0.95 * p, mean, least) <= 0.95 * before + 0.05 * least
  {
    assert 0.95 * (p * (mean - least)) == 0.95 * p * (mean - least);
  }

  lemma UnderStep(p: real, mean: real, most: real, before: real)
    requires before <= Under(p, mean, most) && 0.0 < p
    ensures most + 0.95 * Max(before - most, 0.0) <= Under(0.95 * p, mean, most)
  {
    var first := Max(mean - most, 0.0);
    assert p * first >= 0.0;
    assert 0.95 * (p * first) == 0.95 * p * first;
  }

  /** A higher ceiling only lets the mean go higher. */
  lemma HigherCeiling(before: real, low: real, high: real)
    requires low <= high
    ensures low + 0.95 * Max(before - low, 0.0) <= high + 0.95 * Max(before - high, 0.0)
  {
  }

  /** For every load: after `n` turns the mean is above the least time a turn takes, but for a
      share of 0.95 to the `n` of what it was below, and under the longer of heart beat and
      longest work, and the time after the sleep, but for the same share of what it was above. */
  lemma {:induction false} LoadBand(heartBeat: nat, mean: real, ticks: seq<Tick>, least: nat, work: nat, post: nat)
    requires Within(ticks, least, work, post)
    ensures var last := MeanAfter(heartBeat, mean, ticks); var p := Pow(0.95, |ticks|);
            Above(p, mean, least as real) <= last <= Under(p, mean, Max(heartBeat as real, work as real) + post as real)
  {
    if ticks != [] {
      var n := |ticks| - 1;
      LoadBand(heartBeat, mean, ticks[..n], least, work, post);
      PowIn(0.95, n);
      LoadBandTurn(heartBeat, mean, MeanAfter(heartBeat, mean, ticks[..n]), ticks[n], Pow(0.95, n), least, work, post);
    } else {
      assert Pow(0.95, 0) == 1.0;
    }
  }

  lemma LoadBandTurn(heartBeat: nat, mean: real, before: real, t: Tick, p: real, least: nat, work: nat, post: nat)
    requires least <= t.work + t.post && t.work <= work && t.post <= post && 0.0 < p
    requires var most := Max(heartBeat as real, work as real) + post as real;
             Above(p, mean, least as real) <= before <= Under(p, mean, most)
    ensures var most := Max(heartBeat as real, work as real) + post as real;
            Above(0.95 * p, mean, least as real) <= NextMean(heartBeat, before, t) <= Under(0.95 * p, mean, most)
  {
    hide Above;
    hide Under;
    hide NextMean;
    var most := Max(heartBeat as real, work as real) + post as real;
    LoadTurn(heartBeat, before, t);
    AboveStep(p, mean, least as real, before);
    HigherCeiling(before, Max(heartBeat as real, t.work as real) + t.post as real, most);
    UnderStep(p, mean, most, before);
  }

  /** Overload: if every turn works `work`, a heart beat or more, and takes `post` after its
      sleep, the distance of the mean to what a turn takes shrinks to 0.95 a turn, from
      whatever it was, and keeps its sign. From above that is exact. */
  lemma HeavyLoad(heartBeat: nat, mean: real, ticks: seq<Tick>, work: nat, post: nat)
    requires work >= heartBeat && forall k :: 0 <= k < |ticks| ==> ticks[k] == Tick(work, post)
    ensures var takes := (work + post) as real; var p := Pow(0.95, |ticks|);
            var distance := MeanAfter(heartBeat, mean, ticks) - takes;
            && (mean <= takes ==> p * (mean - takes) <= distance <= 0.0)
            && (mean > takes ==> distance == p * (mean - takes))
  {
    hide MeanAfter;
    hide Pow;
    hide Above;
    hide Under;
    PowIn(0.95, |ticks|);
    LoadBand(heartBeat, mean, ticks, work + post, work, post);
    assert Max(heartBeat as real, work as real) + post as real == (work + post) as real;
    Pinched(Pow(0.95, |ticks|), mean, (work + post) as real, MeanAfter(heartBeat, mean, ticks));
  }

  lemma Pinched(p: real, mean: real, takes: real, last: real)
    requires Above(p, mean, takes) <= last <= Under(p, mean, takes)
    ensures mean <= takes ==> p * (mean - takes) <= last - takes <= 0.0
    ensures mean > takes ==> last - takes == p * (mean - takes)
  {
    assert p * 0.0 == 0.0;
  }

  /** And so it converges: for every distance there is a number of turns that suffices. */
  lemma HeavyConverges(heartBeat: nat, mean: real, work: nat, post: nat, close: real) returns (turns: nat)
    requires work >= heartBeat && close > 0.0
    ensures forall ticks :: |ticks| >= turns && (forall k :: 0 <= k < |ticks| ==> ticks[k] == Tick(work, post)) ==>
              (work + post) as real - close <= MeanAfter(heartBeat, mean, ticks) <= (work + post) as real + close
  {
    var takes := (work + post) as real;
    var size := Max(Size(mean - takes), 1.0);
    turns := Ceil(Needed(0.0 - size, close));
    forall ticks | |ticks| >= turns && forall k :: 0 <= k < |ticks| ==> ticks[k] == Tick(work, post)
      ensures takes - close <= MeanAfter(heartBeat, mean, ticks) <= takes + close
    {
      HeavyBy(heartBeat, mean, work, post, close, ticks, size);
    }
  }

  lemma HeavyBy(heartBeat: nat, mean: real, work: nat, post: nat, close: real, ticks: seq<Tick>, size: real)
    requires work >= heartBeat && close > 0.0 && size > 0.0 && Size(mean - (work + post) as real) <= size
    requires |ticks| as real >= Needed(0.0 - size, close)
    requires forall k :: 0 <= k < |ticks| ==> ticks[k] == Tick(work, post)
    ensures (work + post) as real - close <= MeanAfter(heartBeat, mean, ticks) <= (work + post) as real + close
  {
    hide MeanAfter;
    hide Pow;
    hide Size;
    hide Needed;
    var e := mean - (work + post) as real;
    Vanishes(|ticks|, size, close);
    HeavyLoad(heartBeat, mean, ticks, work, post);
    Shrunk(Pow(0.95, |ticks|), e, MeanAfter(heartBeat, mean, ticks) - (work + post) as real, size, close);
  }

  lemma Vanishes(n: nat, size: real, close: real)
    requires close > 0.0 && size > 0.0 && n as real >= Needed(0.0 - size, close)
    ensures 0.0 < Pow(0.95, n) && Pow(0.95, n) * size <= close
  {
    PowIn(0.95, n);
    SmallEnough(n, size, close);
  }

  lemma Shrunk(p: real, e: real, distance: real, size: real, close: real)
    requires 0.0 < p && Size(e) <= size && p * size <= close
    requires if e <= 0.0 then p * e <= distance <= 0.0 else distance == p * e
    ensures 0.0 - close <= distance <= close
  {
    Magnitude(p, e);
    hide Size;
    Scale(Size(e), size, p);
    assert p * Size(e) == Size(e) * p && p * size == size * p;
  }
}
