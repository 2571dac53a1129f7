/** How many objects a pool ever makes: no more than were out at one time, plus one for each
    time the queue yielded none although it had some. */
module PoolPeak {
  import opened CoreLoop

  datatype Use = Take(choice: nat) | Give(item: nat)

  /** The objects that are with users. */
  function Out(p: Pool): set<nat> {
    set item: nat | item < p.made && item !in p.free
  }

  predicate CanUse(p: Pool, use: Use) {
    use.Give? ==> use.item in Out(p)
  }

  function After(p: Pool, use: Use): Pool {
    match use
    case Take(choice) => Taken(p, choice).0
    case Give(item) => Returned(p, item)
  }

  /** A pool from its start on. Users give back only what they have. */
  ghost predicate IsHistory(pools: seq<Pool>, uses: seq<Use>) {
    && |pools| == |uses| + 1 && pools[0] == Pool([], 0)
    && forall k :: 0 <= k < |uses| ==> CanUse(pools[k], uses[k]) && pools[k + 1] == After(pools[k], uses[k])
  }

  /** The queue yields nothing although there is something in it. */
  predicate Misses(p: Pool, use: Use) {
    use.Take? && p.free != [] && use.choice >= |p.free|
  }

  function Missed(pools: seq<Pool>, uses: seq<Use>, n: nat): nat
    requires n <= |uses| <= |pools|
  {
    if n == 0 then 0 else Missed(pools, uses, n - 1) + if Misses(pools[n - 1], uses[n - 1]) then 1 else 0
  }

  ghost predicate Sound(p: Pool) {
    && (forall k :: 0 <= k < |p.free| ==> p.free[k] < p.made)
    && (forall j, k :: 0 <= j < k < |p.free| ==> p.free[j] != p.free[k])
    && |Out(p)| + |p.free| == p.made
  }

  lemma TakeIsSound(p: Pool, choice: nat)
    requires Sound(p)
    ensures var (q, item) := Taken(p, choice); Sound(q) && item !in Out(p) && Out(q) == Out(p) + {item}
  {
    var (q, item) := Taken(p, choice);
    if choice < |p.free| {
      forall other | other in p.free && other != item
        ensures other in q.free
      {
        var k :| 0 <= k < |p.free| && p.free[k] == other;
        if k < choice {
          assert q.free[k] == other;
        } else {
          assert q.free[k - 1] == other;
        }
      }
      assert item !in q.free;
    }
    assert Out(q) == Out(p) + {item};
  }

  lemma GiveIsSound(p: Pool, item: nat)
    requires Sound(p) && item in Out(p)
    ensures Sound(Returned(p, item)) && Out(Returned(p, item)) == Out(p) - {item}
  {
    assert Out(Returned(p, item)) == Out(p) - {item};
  }

  /** Recycling: whatever is taken was with nobody, and all that was ever made is either free
      or with a user. */
  lemma {:induction false} HistoryIsSound(pools: seq<Pool>, uses: seq<Use>, n: nat)
    requires IsHistory(pools, uses) && n <= |uses|
    ensures Sound(pools[n])
    ensures n > 0 && uses[n - 1].Take? ==>
              var item := Taken(pools[n - 1], uses[n - 1].choice).1;
              item !in Out(pools[n - 1]) && Out(pools[n]) == Out(pools[n - 1]) + {item}
  {
    if n > 0 {
      HistoryIsSound(pools, uses, n - 1);
      match uses[n - 1] {
        case Take(choice) => TakeIsSound(pools[n - 1], choice);
        case Give(item) => GiveIsSound(pools[n - 1], item);
      }
    } else {
      assert Out(pools[0]) == {};
    }
  }

  /** At some moment so many objects were out at once that, with the times the queue missed,
      they account for all that were made. If it never misses, the pool makes exactly as many
      objects as were ever out at once. */
  lemma {:induction false} MadeIsPeak(pools: seq<Pool>, uses: seq<Use>, n: nat) returns (peak: nat)
    requires IsHistory(pools, uses) && n <= |uses|
    ensures peak <= n && pools[n].made <= |Out(pools[peak])| + Missed(pools, uses, n)
    ensures forall k :: 0 <= k <= n ==> |Out(pools[k])| <= pools[n].made
    ensures Missed(pools, uses, n) == 0 ==> pools[n].made == |Out(pools[peak])|
  {
    HistoryIsSound(pools, uses, n);
    if n == 0 {
      peak := 0;
    } else {
      peak := MadeIsPeak(pools, uses, n - 1);
      HistoryIsSound(pools, uses, n - 1);
      hide Sound;
      hide Out;
      assert pools[n].made >= pools[n - 1].made;
      if pools[n].made > pools[n - 1].made && pools[n - 1].free == [] {
        assert |Out(pools[n - 1])| == pools[n - 1].made && |Out(pools[n])| == pools[n].made by { All(pools, uses, n); }
        peak := n;
      }
    }
  }

  /** With nothing free, a new object is made, and all are out. */
  lemma All(pools: seq<Pool>, uses: seq<Use>, n: nat)
    requires IsHistory(pools, uses) && 0 < n <= |uses| && pools[n].made > pools[n - 1].made && pools[n - 1].free == []
    ensures |Out(pools[n - 1])| == pools[n - 1].made && |Out(pools[n])| == pools[n].made
  {
    HistoryIsSound(pools, uses, n);
    HistoryIsSound(pools, uses, n - 1);
  }
}
