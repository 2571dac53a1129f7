/** Every step of the system keeps the invariant of `Scheduler`, so every run does. */
module SchedulerInvariant {
  import opened TransactionLog
  import opened TransactionState
  import opened Scheduler

  // ---------------------------------------------------------------- batches of one log

  ghost predicate Increasing(ids: seq<nat>) {
    forall i, j :: 0 <= i < j < |ids| ==> ids[i] < ids[j]
  }

  lemma {:induction false} HistoryHolds(flights: seq<Flight>, owner: nat, c: nat, id: nat)
    ensures id in History(flights, owner, c) <==> Dispatched(flights, Ref(owner, c, id))
  {
    if flights != [] {
      var n := |flights| - 1;
      HistoryHolds(flights[..n], owner, c, id);
      if Dispatched(flights[..n], Ref(owner, c, id)) {
        var k :| 0 <= k < n && ForLog(flights[..n][k], owner, c) && id in flights[..n][k].ids;
        assert ForLog(flights[k], owner, c) && id in flights[k].ids;
      }
      if Dispatched(flights, Ref(owner, c, id)) {
        var k :| 0 <= k < |flights| && ForLog(flights[k], owner, c) && id in flights[k].ids;
        assert k < n ==> ForLog(flights[..n][k], owner, c) && id in flights[..n][k].ids;
      }
    }
  }

  /** The history looks only at which slots the batches hold. */
  lemma {:induction false} HistoryAgrees(flights: seq<Flight>, other: seq<Flight>, owner: nat, c: nat)
    requires |flights| == |other|
    requires forall k :: 0 <= k < |flights| ==>
               flights[k].owner == other[k].owner && flights[k].collection == other[k].collection &&
                   flights[k].ids == other[k].ids
    ensures History(flights, owner, c) == History(other, owner, c)
  {
    if flights != [] {
      var n := |flights| - 1;
      HistoryAgrees(flights[..n], other[..n], owner, c);
    }
  }

  lemma {:induction false} NoHistory(flights: seq<Flight>, owner: nat, c: nat)
    requires forall k :: 0 <= k < |flights| ==> !ForLog(flights[k], owner, c)
    ensures History(flights, owner, c) == []
  {
    if flights != [] {
      NoHistory(flights[..|flights| - 1], owner, c);
    }
  }

  /** Of two batches of one log, the earlier holds the smaller slots. */
  lemma {:induction false} HistoryOrders(flights: seq<Flight>, owner: nat, c: nat, k: nat, i: nat, l: nat, j: nat)
    requires Increasing(History(flights, owner, c)) && k < l < |flights|
    requires ForLog(flights[k], owner, c) && i < |flights[k].ids|
    requires ForLog(flights[l], owner, c) && j < |flights[l].ids|
    ensures flights[k].ids[i] < flights[l].ids[j]
  {
    var n := |flights| - 1;
    var front := History(flights[..n], owner, c);
    var all := History(flights, owner, c);
    assert front == all[..|front|];
    if l == n {
      HistoryHolds(flights[..n], owner, c, flights[k].ids[i]);
      assert ForLog(flights[..n][k], owner, c) && flights[k].ids[i] in flights[..n][k].ids;
      var p :| 0 <= p < |front| && front[p] == flights[k].ids[i];
      assert all[|front| + j] == flights[l].ids[j] && all[p] == front[p];
    } else {
      HistoryOrders(flights[..n], owner, c, k, i, l, j);
    }
  }

  lemma HistoryIncreases(s: State, owner: nat, c: nat)
    requires HistoryIsPassedJobs(s) && HasLog(s.objects, owner, c)
    ensures Increasing(History(s.flights, owner, c))
  {
    var log := s.objects[owner].logs[c];
    assert PassedJobs(log, History(s.flights, owner, c));
    JobsAre(log.slots, 0, log.first);
  }

  /** No slot is in two places of the batches. */
  lemma PlacesDistinct(s: State, k: nat, i: nat, l: nat, j: nat)
    requires FlightsValid(s) && HistoryIsPassedJobs(s)
    requires k < |s.flights| && i < |s.flights[k].ids| && l < |s.flights| && j < |s.flights[l].ids|
    requires RefAt(s.flights[k], i) == RefAt(s.flights[l], j)
    ensures k == l && i == j
  {
    var f, g := s.flights[k], s.flights[l];
    assert FlightValid(s.objects, f) && FlightValid(s.objects, g);
    HistoryIncreases(s, f.owner, f.collection);
    if k < l {
      HistoryOrders(s.flights, f.owner, f.collection, k, i, l, j);
    } else if l < k {
      HistoryOrders(s.flights, f.owner, f.collection, l, j, k, i);
    } else {
      IdsIncrease(s.objects, f);
    }
  }

  lemma IdsIncrease(objects: map<nat, Tx>, f: Flight)
    requires FlightValid(objects, f)
    ensures Increasing(f.ids)
  {
    forall i, j | 0 <= i < j < |f.ids|
      ensures f.ids[i] < f.ids[j]
    {
      IdsClimb(objects, f, i, j);
    }
  }

  lemma {:induction false} IdsClimb(objects: map<nat, Tx>, f: Flight, i: nat, j: nat)
    requires FlightValid(objects, f) && i < j < |f.ids|
    ensures f.ids[i] < f.ids[j]
  {
    if i + 1 < j {
      IdsClimb(objects, f, i, j - 1);
    }
  }

  /** A done slot has taken effect. */
  lemma DoneIsEffected(s: State, ref: Ref)
    requires Inv(s) && Exists(s.objects, ref) && SlotOf(s.objects, ref).done
    ensures ref in s.trace
  {
    var log := s.objects[ref.owner].logs[ref.collection];
    assert Valid(s.objects[ref.owner]);
    assert PassedJobs(log, History(s.flights, ref.owner, ref.collection));
    assert ref.id < log.first && !log.slots[ref.id].work.Depends?;
    JobsAre(log.slots, 0, log.first);
    HistoryHolds(s.flights, ref.owner, ref.collection, ref.id);
    var k :| 0 <= k < |s.flights| && ForLog(s.flights[k], ref.owner, ref.collection) && ref.id in s.flights[k].ids;
    var j :| 0 <= j < |s.flights[k].ids| && s.flights[k].ids[j] == ref.id;
    assert FlightValid(s.objects, s.flights[k]);
    assert RefAt(s.flights[k], j) == ref;
  }

  // ---------------------------------------------------------------- what a change of objects keeps

  /** `after` has every log of `before`, with the slots a batch holds as they were. */
  lemma FlightKept(before: map<nat, Tx>, after: map<nat, Tx>, f: Flight)
    requires FlightValid(before, f) && HasLog(after, f.owner, f.collection)
    requires var old_, new_ := before[f.owner].logs[f.collection], after[f.owner].logs[f.collection];
             && old_.first <= new_.first && |old_.slots| <= |new_.slots|
             && forall i :: 0 <= i < old_.first && i < |old_.slots| ==> new_.slots[i] == old_.slots[i]
    ensures FlightValid(after, f)
  {
  }

  lemma PassedKept(before: Log, after: Log, ids: seq<nat>)
    requires PassedJobs(before, ids) && after.first == before.first <= |after.slots|
    requires forall i :: 0 <= i < before.first ==> after.slots[i].work == before.slots[i].work
    ensures PassedJobs(after, ids)
  {
    JobsAgree(before.slots, after.slots, 0, before.first);
  }

  /** `after` differs from `before` in flags, counters and new slots at most. */
  ghost predicate Grown(before: map<nat, Tx>, after: map<nat, Tx>) {
    forall o, c :: HasLog(before, o, c) ==>
      && HasLog(after, o, c)
      && before[o].logs[c].first == after[o].logs[c].first
      && before[o].logs[c].slots <= after[o].logs[c].slots
  }

  lemma GrownKeepsFlights(s: State, objects: map<nat, Tx>)
    requires FlightsValid(s) && Grown(s.objects, objects)
    ensures FlightsValid(s.(objects := objects))
  {
    forall k | 0 <= k < |s.flights|
      ensures FlightValid(objects, s.flights[k])
    {
      assert FlightValid(s.objects, s.flights[k]);
      FlightKept(s.objects, objects, s.flights[k]);
    }
  }

  lemma GrownKeepsHistory(s: State, objects: map<nat, Tx>)
    requires FlightsValid(s) && HistoryIsPassedJobs(s) && Grown(s.objects, objects)
    requires forall o, c :: HasLog(objects, o, c) && !HasLog(s.objects, o, c) ==> objects[o].logs[c].first == 0
    ensures HistoryIsPassedJobs(s.(objects := objects))
  {
    forall o, c | HasLog(objects, o, c)
      ensures PassedJobs(objects[o].logs[c], History(s.flights, o, c))
    {
      if HasLog(s.objects, o, c) {
        PassedKept(s.objects[o].logs[c], objects[o].logs[c], History(s.flights, o, c));
      } else {
        forall k | 0 <= k < |s.flights|
          ensures !ForLog(s.flights[k], o, c)
        {
          assert FlightValid(s.objects, s.flights[k]);
        }
        NoHistory(s.flights, o, c);
      }
    }
  }

  /** The part of the invariant about pushes and honours, when `t` has no new slots and
      keeps all old ones. */
  lemma ExistingStays(s: State, t: State)
    requires PushesValid(s) && HonoursHold(s)
    requires t.pushes == s.pushes && t.honoured == s.honoured && t.trace == s.trace
    requires forall ref: Ref :: Exists(s.objects, ref) <==> Exists(t.objects, ref)
    requires forall o, c :: HasLog(s.objects, o, c) ==> HasLog(t.objects, o, c)
    ensures PushesValid(t) && HonoursHold(t)
  {
  }

  lemma SameTraceStays(s: State, t: State)
    requires TraceValid(s) && t.trace == s.trace && t.flights == s.flights
    ensures TraceValid(t)
  {
  }

  lemma SameHonoursStay(s: State, t: State)
    requires HonoursHold(s) && t.honoured == s.honoured && t.trace == s.trace
    requires forall o, c :: HasLog(s.objects, o, c) ==> HasLog(t.objects, o, c)
    ensures HonoursHold(t)
  {
  }

  lemma OneObjectStays(s: State, t: State, owner: nat)
    requires ObjectsValid(s) && owner in t.objects && Valid(t.objects[owner])
    requires t.objects == s.objects[owner := t.objects[owner]]
    ensures ObjectsValid(t)
  {
  }

  lemma ObjectIsValid(s: State, owner: nat)
    requires ObjectsValid(s) && owner in s.objects
    ensures Valid(s.objects[owner]) && forall c :: c in s.objects[owner].logs ==> Untouched(s.objects[owner].logs[c])
  {
  }

  // ---------------------------------------------------------------- creating, gates and flags

  lemma SameLogsKeeps(s: State, objects: map<nat, Tx>)
    requires Inv(s) && objects.Keys == s.objects.Keys
    requires forall o :: o in objects ==> Valid(objects[o]) && objects[o].logs == s.objects[o].logs
    ensures Inv(s.(objects := objects))
  {
    GrownKeepsFlights(s, objects);
    GrownKeepsHistory(s, objects);
    ExistingStays(s, s.(objects := objects));
  }

  lemma GateKeepsValid(tx: Tx, diff: nat)
    requires Valid(tx)
    ensures Valid(Gate(tx, diff).0) && Gate(tx, diff).0.logs == tx.logs
  {
    hide CanDelete;
  }

  lemma CreateKeeps(s: State, owner: nat, order: seq<nat>, every: nat)
    requires Inv(s) && Enabled(s, Create(owner, order, every))
    ensures Inv(Next(s, Create(owner, order, every)))
  {
    var t := Next(s, Create(owner, order, every));
    CreatedObjects(s, owner, order, every);
    hide Valid;
    hide FlightsValid;
    hide HistoryIsPassedJobs;
    hide PushesValid;
    hide HonoursHold;
    hide TraceValid;
    hide Grown;
    hide Next;
    hide Exists;
    hide HasLog;
    GrownKeepsFlights(s, t.objects);
    GrownKeepsHistory(s, t.objects);
    SameTraceStays(s, t);
    ExistingStays(s, t);
  }

  lemma CreatedObjects(s: State, owner: nat, order: seq<nat>, every: nat)
    requires ObjectsValid(s) && Enabled(s, Create(owner, order, every))
    ensures var t := Next(s, Create(owner, order, every));
            && t == s.(objects := t.objects) && ObjectsValid(t) && Grown(s.objects, t.objects)
            && (forall ref: Ref :: Exists(s.objects, ref) <==> Exists(t.objects, ref))
            && (forall o, c :: HasLog(s.objects, o, c) ==> HasLog(t.objects, o, c))
            && (forall o, c :: HasLog(t.objects, o, c) && !HasLog(s.objects, o, c) ==> t.objects[o].logs[c].first == 0)
  {
    InitIsValid(order, every);
    hide Valid;
    AddedObject(s.objects, owner, Init(order, every));
  }

  /** An object with empty logs is added. */
  lemma AddedObject(objects: map<nat, Tx>, owner: nat, tx: Tx)
    requires owner !in objects && forall c :: c in tx.logs ==> tx.logs[c] == Log(0, [])
    ensures var after := objects[owner := tx];
            && Grown(objects, after)
            && (forall ref: Ref :: Exists(objects, ref) <==> Exists(after, ref))
            && (forall o, c :: HasLog(objects, o, c) ==> HasLog(after, o, c))
            && (forall o, c :: HasLog(after, o, c) && !HasLog(objects, o, c) ==> after[o].logs[c].first == 0)
  {
  }

  // ---------------------------------------------------------------- pushing

  lemma PushKeeps(s: State, owner: nat, c: nat, work: Work)
    requires Inv(s) && Enabled(s, PushWork(owner, c, work))
    ensures Inv(Next(s, PushWork(owner, c, work)))
  {
    hide Valid;
    hide FlightsValid;
    hide HistoryIsPassedJobs;
    hide PushesValid;
    var t := Next(s, PushWork(owner, c, work));
    ObjectIsValid(s, owner);
    PushIsValid(s.objects[owner], c, work);
    OneObjectStays(s, t, owner);
    PushKeepsFlights(s, owner, c, work);
    SameTraceStays(s, t);
    SameHonoursStay(s, t);
    PushesGrow(s, owner, c, work);
  }

  lemma PushKeepsFlights(s: State, owner: nat, c: nat, work: Work)
    requires FlightsValid(s) && HistoryIsPassedJobs(s) && HasLog(s.objects, owner, c)
    ensures var t := Next(s, PushWork(owner, c, work)); FlightsValid(t) && HistoryIsPassedJobs(t)
  {
    var t := Next(s, PushWork(owner, c, work));
    GrownKeepsFlights(s, t.objects);
    GrownKeepsHistory(s, t.objects);
    SameFlightsStay(s.(objects := t.objects), t);
  }

  lemma SameFlightsStay(s: State, t: State)
    requires FlightsValid(s) && HistoryIsPassedJobs(s) && t.objects == s.objects && t.flights == s.flights
    ensures FlightsValid(t) && HistoryIsPassedJobs(t)
  {
  }

  lemma PushesGrow(s: State, owner: nat, c: nat, work: Work)
    requires PushesValid(s) && HasLog(s.objects, owner, c)
    ensures PushesValid(Next(s, PushWork(owner, c, work)))
  {
    var t := Next(s, PushWork(owner, c, work));
    var n := |s.pushes|;
    var ref := t.pushes[n];
    assert forall r: Ref :: Exists(t.objects, r) <==> r == ref || Exists(s.objects, r);
    assert forall r: Ref :: r in t.pushes <==> r == ref || r in s.pushes;
    forall p | 0 <= p < n && OfLog(t.pushes[p], owner, c)
      ensures t.pushes[p].id < ref.id
    {
      assert Exists(s.objects, s.pushes[p]);
    }
  }

  // ---------------------------------------------------------------- cutting a batch

  /** What a cut does to the one log it touches. */
  lemma CutLog(log: Log, peers: Peers)
    requires Untouched(log)
    ensures var sweep := Scan(log, peers); var after := Advance(log, sweep);
            && log.first <= sweep.stop <= |log.slots| == |after.slots| && Untouched(after)
            && (forall i :: 0 <= i < |log.slots| ==> after.slots[i].work == log.slots[i].work)
            && (forall i :: 0 <= i < log.first ==> after.slots[i] == log.slots[i])
            && (sweep.ids != [] ==> sweep.run != Neither)
            && (forall j :: 0 <= j < |sweep.ids| ==>
                  && log.first <= sweep.ids[j] < sweep.stop
                  && (0 < j ==> sweep.ids[j - 1] < sweep.ids[j])
                  && !log.slots[sweep.ids[j]].work.Depends? && KindOf(log.slots[sweep.ids[j]].work) == sweep.run
                  && after.slots[sweep.ids[j]].pending && !after.slots[sweep.ids[j]].done)
            && Jobs(after.slots, 0, after.first) == Jobs(log.slots, 0, log.first) + sweep.ids
  {
    var sweep := Scan(log, peers);
    var after := Advance(log, sweep);
    ScanIsSweep(log.slots, log.first, Neither, peers);
    AdvanceStaysUntouched(log, peers);
    JobsAre(log.slots, log.first, sweep.stop);
    JobsSplit(log.slots, 0, log.first, sweep.stop);
    JobsAgree(log.slots, after.slots, 0, sweep.stop);
  }

  lemma CutFlights(s: State, owner: nat, c: nat, known: set<nat>)
    requires ObjectsValid(s) && FlightsValid(s) && HasLog(s.objects, owner, c)
    requires Enabled(s, CutBatch(owner, c, known))
    ensures FlightsValid(Cut(s, owner, c, known))
  {
    hide Scan;
    hide Valid;
    var t := Cut(s, owner, c, known);
    ObjectIsValid(s, owner);
    CutLog(s.objects[owner].logs[c], PeersOf(s.objects, known, c));
    if t.flights != s.flights {
      CutFlightValid(s, owner, c, known);
    }
    hide Advance;
    forall k | 0 <= k < |s.flights|
      ensures FlightValid(t.objects, s.flights[k])
    {
      assert FlightValid(s.objects, s.flights[k]);
      hide FlightValid;
      CutFlightKept(s, owner, c, known, s.flights[k]);
    }
    hide FlightValid;
  }

  lemma CutFlightValid(s: State, owner: nat, c: nat, known: set<nat>)
    requires ObjectsValid(s) && HasLog(s.objects, owner, c) && Enabled(s, CutBatch(owner, c, known))
    requires Cut(s, owner, c, known).flights != s.flights
    ensures FlightValid(Cut(s, owner, c, known).objects, Cut(s, owner, c, known).flights[|s.flights|])
  {
    hide Scan;
    hide Valid;
    ObjectIsValid(s, owner);
    CutLog(s.objects[owner].logs[c], PeersOf(s.objects, known, c));
    hide Advance;
  }

  lemma CutFlightKept(s: State, owner: nat, c: nat, known: set<nat>, f: Flight)
    requires ObjectsValid(s) && HasLog(s.objects, owner, c) && Enabled(s, CutBatch(owner, c, known))
    requires FlightValid(s.objects, f)
    ensures FlightValid(Cut(s, owner, c, known).objects, f)
  {
    hide Scan;
    hide Valid;
    ObjectIsValid(s, owner);
    CutLog(s.objects[owner].logs[c], PeersOf(s.objects, known, c));
    assert HasLog(s.objects, f.owner, f.collection);
    hide FlightValid;
    hide Advance;
    FlightKept(s.objects, Cut(s, owner, c, known).objects, f);
  }

  lemma CutHistory(s: State, owner: nat, c: nat, known: set<nat>)
    requires ObjectsValid(s) && HistoryIsPassedJobs(s)
    requires Enabled(s, CutBatch(owner, c, known))
    ensures HistoryIsPassedJobs(Cut(s, owner, c, known))
  {
    hide Scan;
    hide Valid;
    var t := Cut(s, owner, c, known);
    ObjectIsValid(s, owner);
    var log := s.objects[owner].logs[c];
    var peers := PeersOf(s.objects, known, c);
    CutLog(log, peers);
    assert t.flights != s.flights ==> t.flights[..|t.flights| - 1] == s.flights;
    forall o, d | HasLog(t.objects, o, d)
      ensures PassedJobs(t.objects[o].logs[d], History(t.flights, o, d))
    {
      assert HasLog(s.objects, o, d);
      assert PassedJobs(s.objects[o].logs[d], History(s.flights, o, d));
      if o == owner && d == c {
        assert History(s.flights, o, d) + Scan(log, peers).ids == History(t.flights, o, d);
      } else {
        assert History(s.flights, o, d) + [] == History(t.flights, o, d);
      }
    }
  }

  /** What has taken effect lies behind the cursor of its log. */
  lemma TraceIsPassed(s: State, ref: Ref)
    requires FlightsValid(s) && TraceValid(s) && ref in s.trace
    ensures HasLog(s.objects, ref.owner, ref.collection)
    ensures ref.id < s.objects[ref.owner].logs[ref.collection].first
  {
    var k :| 0 <= k < |s.flights| && ForLog(s.flights[k], ref.owner, ref.collection) && ref.id in s.flights[k].ids;
    assert FlightValid(s.objects, s.flights[k]);
  }

  lemma CutTrace(s: State, owner: nat, c: nat, known: set<nat>)
    requires ObjectsValid(s) && FlightsValid(s) && TraceValid(s)
    requires Enabled(s, CutBatch(owner, c, known))
    ensures TraceValid(Cut(s, owner, c, known))
  {
    hide Scan;
    hide Valid;
    var t := Cut(s, owner, c, known);
    ObjectIsValid(s, owner);
    CutLog(s.objects[owner].logs[c], PeersOf(s.objects, known, c));
    forall k, j | 0 <= k < |t.flights| && 0 <= j < |t.flights[k].ids|
      ensures RefAt(t.flights[k], j) in t.trace <==> j < t.flights[k].effected
    {
      if k == |s.flights| && RefAt(t.flights[k], j) in s.trace {
        TraceIsPassed(s, RefAt(t.flights[k], j));
      }
    }
    forall p | 0 <= p < |t.trace|
      ensures Dispatched(t.flights, t.trace[p])
    {
      DispatchedStays(s.flights, t.flights, s.trace[p]);
    }
  }

  lemma DispatchedStays(before: seq<Flight>, after: seq<Flight>, ref: Ref)
    requires Dispatched(before, ref) && |before| <= |after|
    requires forall k :: 0 <= k < |before| ==>
               after[k].owner == before[k].owner && after[k].collection == before[k].collection &&
                   after[k].ids == before[k].ids
    ensures Dispatched(after, ref)
  {
    var k :| 0 <= k < |before| && ForLog(before[k], ref.owner, ref.collection) && ref.id in before[k].ids;
    assert ForLog(after[k], ref.owner, ref.collection) && ref.id in after[k].ids;
  }

  /** The honour `h` in state `s`: what `HonoursHold` says of each. */
  ghost predicate Holds(s: State, h: Honour) {
    && h.target in s.trace && HasLog(s.objects, h.waiter.owner, h.waiter.collection)
    && forall id :: id > h.waiter.id ==> Precedes(s.trace, h.target, h.waiter.(id := id))
  }

  /** A cut keeps the trace and every log, and honours at most what `NewHonours` says. */
  lemma CutTraces(s: State, owner: nat, c: nat, known: set<nat>)
    requires ObjectsValid(s) && Enabled(s, CutBatch(owner, c, known))
    ensures var t := Cut(s, owner, c, known); var log := s.objects[owner].logs[c];
            var stop := Scan(log, PeersOf(s.objects, known, c)).stop;
            && t.trace == s.trace && log.first <= stop <= |log.slots|
            && t.honoured == s.honoured + NewHonours(s.objects, owner, c, stop, known)
    ensures forall o, d :: HasLog(s.objects, o, d) ==> HasLog(Cut(s, owner, c, known).objects, o, d)
  {
    hide Valid;
    hide Scan;
    ObjectIsValid(s, owner);
    CutLog(s.objects[owner].logs[c], PeersOf(s.objects, known, c));
    hide NewHonours;
    hide Advance;
  }

  lemma CutHonours(s: State, owner: nat, c: nat, known: set<nat>)
    requires Inv(s) && Enabled(s, CutBatch(owner, c, known))
    ensures HonoursHold(Cut(s, owner, c, known))
  {
    var t := Cut(s, owner, c, known);
    CutTraces(s, owner, c, known);
    hide Cut;
    hide Scan;
    hide NewHonours;
    hide Precedes;
    forall h | h in t.honoured
      ensures Holds(t, h)
    {
      if h in s.honoured {
        assert Holds(s, h);
      } else {
        hide Inv;
        NewHonour(s, owner, c, known, h);
      }
    }
  }

  lemma NewHonour(s: State, owner: nat, c: nat, known: set<nat>, h: Honour)
    requires Inv(s) && Enabled(s, CutBatch(owner, c, known))
    requires var log := s.objects[owner].logs[c]; var stop := Scan(log, PeersOf(s.objects, known, c)).stop;
             log.first <= stop <= |log.slots| && h in NewHonours(s.objects, owner, c, stop, known)
    ensures h.waiter.owner == owner && h.waiter.collection == c && h.target in s.trace
    ensures forall id :: id > h.waiter.id ==> Precedes(s.trace, h.target, h.waiter.(id := id))
  {
    hide Valid;
    var log := s.objects[owner].logs[c];
    var peers := PeersOf(s.objects, known, c);
    ObjectIsValid(s, owner);
    ScanIsSweep(log.slots, log.first, Neither, peers);
    assert Met(peers, h.target.owner, h.target.id);
    assert SlotOf(s.objects, h.target).done;
    DoneIsEffected(s, h.target);
    NothingBehind(s, h.waiter);
  }

  /** Nothing at or past the cursor has taken effect, so anything may precede it. */
  lemma NothingBehind(s: State, ref: Ref)
    requires FlightsValid(s) && TraceValid(s) && HasLog(s.objects, ref.owner, ref.collection)
    requires s.objects[ref.owner].logs[ref.collection].first <= ref.id
    ensures forall id, target :: id > ref.id ==> Precedes(s.trace, target, ref.(id := id))
  {
    forall p | 0 <= p < |s.trace|
      ensures OfLog(s.trace[p], ref.owner, ref.collection) ==> s.trace[p].id < ref.id
    {
      TraceIsPassed(s, s.trace[p]);
    }
  }

  lemma CutKeeps(s: State, owner: nat, c: nat, known: set<nat>)
    requires Inv(s) && Enabled(s, CutBatch(owner, c, known))
    ensures Inv(Next(s, CutBatch(owner, c, known)))
  {
    hide Valid;
    hide FlightsValid;
    hide HistoryIsPassedJobs;
    hide HonoursHold;
    hide TraceValid;
    hide Scan;
    var t := Next(s, CutBatch(owner, c, known));
    ObjectIsValid(s, owner);
    TakeIsValid(s.objects[owner], c, PeersOf(s.objects, known, c));
    CutFlights(s, owner, c, known);
    CutHistory(s, owner, c, known);
    CutTrace(s, owner, c, known);
    CutHonours(s, owner, c, known);
    OneObjectStays(s, t, owner);
    CutPushes(s, owner, c, known);
  }

  lemma CutPushes(s: State, owner: nat, c: nat, known: set<nat>)
    requires PushesValid(s) && Enabled(s, CutBatch(owner, c, known))
    ensures PushesValid(Cut(s, owner, c, known))
  {
    hide Scan;
    var t := Cut(s, owner, c, known);
    assert forall ref: Ref :: Exists(s.objects, ref) <==> Exists(t.objects, ref);
  }

  // ---------------------------------------------------------------- the pool executes

  lemma ExecuteFlights(s: State, k: nat)
    requires FlightsValid(s) && HistoryIsPassedJobs(s) && Enabled(s, Execute(k))
    ensures var t := Next(s, Execute(k)); FlightsValid(t) && HistoryIsPassedJobs(t)
  {
    var t := Next(s, Execute(k));
    forall l | 0 <= l < |t.flights|
      ensures FlightValid(t.objects, t.flights[l])
    {
      assert FlightValid(s.objects, s.flights[l]);
    }
    forall o, c | HasLog(t.objects, o, c)
      ensures PassedJobs(t.objects[o].logs[c], History(t.flights, o, c))
    {
      HistoryAgrees(s.flights, t.flights, o, c);
    }
  }

  lemma ExecuteTrace(s: State, k: nat)
    requires FlightsValid(s) && HistoryIsPassedJobs(s) && TraceValid(s) && Enabled(s, Execute(k))
    ensures TraceValid(Next(s, Execute(k)))
  {
    hide HistoryIsPassedJobs;
    hide FlightsValid;
    var t := Next(s, Execute(k));
    forall l, j | 0 <= l < |t.flights| && 0 <= j < |t.flights[l].ids|
      ensures RefAt(t.flights[l], j) in t.trace <==> j < t.flights[l].effected
    {
      ExecutedPlace(s, k, l, j);
    }
    ExecuteOnce(s, k);
    ExecuteDispatched(s, k);
  }

  lemma ExecuteDispatched(s: State, k: nat)
    requires TraceValid(s) && Enabled(s, Execute(k)) && FlightsValid(s)
    ensures var t := Next(s, Execute(k));
            forall p :: 0 <= p < |t.trace| ==> Dispatched(t.flights, t.trace[p])
  {
    var t := Next(s, Execute(k));
    var f := s.flights[k];
    var n := |s.trace|;
    assert FlightValid(s.objects, f);
    hide FlightsValid;
    forall p | 0 <= p < |t.trace|
      ensures Dispatched(t.flights, t.trace[p])
    {
      if p < n {
        DispatchedStays(s.flights, t.flights, s.trace[p]);
      } else {
        assert t.trace[p] == RefAt(f, f.effected + p - n);
        assert ForLog(t.flights[k], t.trace[p].owner, t.trace[p].collection) && t.trace[p].id in t.flights[k].ids;
      }
    }
  }

  lemma ExecuteOnce(s: State, k: nat)
    requires FlightsValid(s) && TraceValid(s) && Enabled(s, Execute(k))
    ensures var t := Next(s, Execute(k)).trace; forall p, q :: 0 <= p < q < |t| ==> t[p] != t[q]
  {
    var f := s.flights[k];
    var now := RefsOf(f, f.effected, Executed(f).effected);
    assert FlightValid(s.objects, f);
    IdsIncrease(s.objects, f);
    forall j | 0 <= j < |now|
      ensures now[j] !in s.trace
    {
      assert now[j] == RefAt(f, f.effected + j);
    }
    forall i, j | 0 <= i < j < |now|
      ensures now[i] != now[j]
    {
      assert f.ids[f.effected + i] < f.ids[f.effected + j];
    }
  }

  /** After batch `k` has executed, a place is in the trace if it was before or is one of
      those executed now. */
  lemma ExecutedPlace(s: State, k: nat, l: nat, j: nat)
    requires FlightsValid(s) && HistoryIsPassedJobs(s) && TraceValid(s) && Enabled(s, Execute(k))
    requires l < |s.flights| && j < |s.flights[l].ids|
    ensures var t := Next(s, Execute(k));
            RefAt(s.flights[l], j) in t.trace <==> j < t.flights[l].effected
  {
    hide HistoryIsPassedJobs;
    hide FlightsValid;
    ExecutesMore(s, k);
    JustExecuted(s, k, l, j);
  }

  lemma ExecutesMore(s: State, k: nat)
    requires FlightsValid(s) && Enabled(s, Execute(k))
    ensures s.flights[k].effected <= Executed(s.flights[k]).effected <= |s.flights[k].ids|
  {
    assert FlightValid(s.objects, s.flights[k]);
  }

  /** The places executed now are those of batch `k` from `effected` on. */
  lemma JustExecuted(s: State, k: nat, l: nat, j: nat)
    requires k < |s.flights| && l < |s.flights| && j < |s.flights[l].ids|
    requires s.flights[k].effected <= Executed(s.flights[k]).effected <= |s.flights[k].ids|
    requires FlightsValid(s) && HistoryIsPassedJobs(s)
    ensures var f := s.flights[k];
            RefAt(s.flights[l], j) in RefsOf(f, f.effected, Executed(f).effected) <==>
              l == k && f.effected <= j < Executed(f).effected
  {
    var f := s.flights[k];
    hide FlightsValid;
    hide HistoryIsPassedJobs;
    hide FlightValid;
    hide Executed;
    var lo, hi := f.effected, Executed(f).effected;
    if RefAt(s.flights[l], j) in RefsOf(f, lo, hi) {
      var i := IndexIn(f, lo, hi, RefAt(s.flights[l], j));
      PlacesDistinct(s, k, i, l, j);
    }
    if l == k && lo <= j < hi {
      IndexAt(f, lo, hi, j);
    }
  }

  lemma IndexAt(f: Flight, lo: nat, hi: nat, j: nat)
    requires lo <= j < hi <= |f.ids|
    ensures RefAt(f, j) in RefsOf(f, lo, hi)
  {
    assert RefsOf(f, lo, hi)[j - lo] == RefAt(f, j);
  }

  lemma IndexIn(f: Flight, lo: nat, hi: nat, ref: Ref) returns (i: nat)
    requires lo <= hi <= |f.ids| && ref in RefsOf(f, lo, hi)
    ensures lo <= i < hi && RefAt(f, i) == ref
  {
    var now := RefsOf(f, lo, hi);
    var p :| 0 <= p < |now| && now[p] == ref;
    i := lo + p;
  }

  lemma ExecuteHonours(s: State, k: nat)
    requires FlightsValid(s) && HonoursHold(s) && Enabled(s, Execute(k))
    ensures HonoursHold(Next(s, Execute(k)))
  {
    var t := Next(s, Execute(k));
    forall h | h in t.honoured
      ensures h.target in t.trace
      ensures forall id :: id > h.waiter.id ==> Precedes(t.trace, h.target, h.waiter.(id := id))
    {
      forall id | id > h.waiter.id
        ensures Precedes(t.trace, h.target, h.waiter.(id := id))
      {
        PrecedesLater(s.trace, t.trace[|s.trace|..], h.target, h.waiter.(id := id));
        assert t.trace == s.trace + t.trace[|s.trace|..];
      }
    }
  }

  lemma PrecedesLater(trace: seq<Ref>, more: seq<Ref>, target: Ref, ref: Ref)
    requires Precedes(trace, target, ref) && target in trace
    ensures Precedes(trace + more, target, ref)
  {
    var all := trace + more;
    var q :| 0 <= q < |trace| && trace[q] == target;
    forall p | 0 <= p < |all| && all[p] == ref
      ensures target in all[..p]
    {
      if p < |trace| {
        assert all[..p] == trace[..p];
      } else {
        assert all[..p][q] == target;
      }
    }
  }

  lemma ExecuteKeeps(s: State, k: nat)
    requires Inv(s) && Enabled(s, Execute(k))
    ensures Inv(Next(s, Execute(k)))
  {
    ExecuteFlights(s, k);
    ExecuteTrace(s, k);
    ExecuteHonours(s, k);
  }

  // ---------------------------------------------------------------- the pool marks slots done

  /** The log of the finished slot: one slot below the cursor changes its two flags. */
  lemma FinishLog(s: State, k: nat)
    requires FlightsValid(s) && HistoryIsPassedJobs(s) && Enabled(s, Finish(k))
    ensures var f := s.flights[k]; var id := f.ids[f.flagged];
            var log := s.objects[f.owner].logs[f.collection];
            var after := Next(s, Finish(k)).objects[f.owner].logs[f.collection];
            && id < log.first <= |log.slots| && !log.slots[id].work.Depends?
            && after == log.(slots := log.slots[id := log.slots[id].(pending := false, done := true)])
  {
    var f := s.flights[k];
    assert FlightValid(s.objects, f);
    assert PassedJobs(s.objects[f.owner].logs[f.collection], History(s.flights, f.owner, f.collection));
  }

  /** Batch `l` holds the next slot of batch `k` only if it is that batch, and only there. */
  ghost predicate HeldOnlyHere(flights: seq<Flight>, k: nat, l: nat)
    requires k < |flights| && l < |flights|
  {
    var f, g := flights[k], flights[l];
    ForLog(g, f.owner, f.collection) && f.flagged < |f.ids| ==>
      forall j :: 0 <= j < |g.ids| && g.ids[j] == f.ids[f.flagged] ==> l == k && j == f.flagged
  }

  /** The finished slot is held by no other place of the batches. */
  lemma FinishPlace(s: State, k: nat, l: nat)
    requires FlightsValid(s) && HistoryIsPassedJobs(s) && Enabled(s, Finish(k)) && l < |s.flights|
    ensures HeldOnlyHere(s.flights, k, l)
  {
    var f, g := s.flights[k], s.flights[l];
    if ForLog(g, f.owner, f.collection) && f.flagged < |f.ids| {
      forall j | 0 <= j < |g.ids| && g.ids[j] == f.ids[f.flagged]
        ensures l == k && j == f.flagged
      {
        PlacesDistinct(s, k, f.flagged, l, j);
      }
    }
  }

  lemma FinishFlights(s: State, k: nat)
    requires FlightsValid(s) && HistoryIsPassedJobs(s) && Enabled(s, Finish(k))
    ensures FlightsValid(Next(s, Finish(k)))
  {
    var t := Next(s, Finish(k));
    var f := s.flights[k];
    FinishLog(s, k);
    forall l | 0 <= l < |t.flights|
      ensures FlightValid(t.objects, t.flights[l])
    {
      FinishPlace(s, k, l);
      FinishedFlight(s, t, k, l);
    }
  }

  lemma FinishedFlight(s: State, t: State, k: nat, l: nat)
    requires l < |s.flights| && k < |s.flights| && l < |t.flights| && HeldOnlyHere(s.flights, k, l)
    requires Enabled(s, Finish(k)) && t == Next(s, Finish(k))
    requires FlightsValid(s) && HistoryIsPassedJobs(s)
    ensures FlightValid(t.objects, t.flights[l])
  {
    hide HistoryIsPassedJobs;
    FinishLog(s, k);
    var g := s.flights[l];
    assert FlightValid(s.objects, g);
    var log, after := s.objects[g.owner].logs[g.collection], t.objects[g.owner].logs[g.collection];
    assert after.first == log.first && |after.slots| == |log.slots|;
    forall j | 0 <= j < |g.ids|
      ensures after.slots[g.ids[j]] ==
              if l == k && j == g.flagged then log.slots[g.ids[j]].(pending := false, done := true)
                  else log.slots[g.ids[j]]
    {
    }
  }

  lemma FinishHistory(s: State, k: nat)
    requires FlightsValid(s) && HistoryIsPassedJobs(s) && Enabled(s, Finish(k))
    ensures HistoryIsPassedJobs(Next(s, Finish(k)))
  {
    hide FlightsValid;
    var t := Next(s, Finish(k));
    FinishLog(s, k);
    forall o, c | HasLog(t.objects, o, c)
      ensures PassedJobs(t.objects[o].logs[c], History(t.flights, o, c))
    {
      HistoryAgrees(s.flights, t.flights, o, c);
      assert HasLog(s.objects, o, c);
      assert PassedJobs(s.objects[o].logs[c], History(s.flights, o, c));
      PassedKept(s.objects[o].logs[c], t.objects[o].logs[c], History(s.flights, o, c));
    }
  }

  lemma FinishTrace(s: State, k: nat)
    requires TraceValid(s) && Enabled(s, Finish(k))
    ensures TraceValid(Next(s, Finish(k)))
  {
    var t := Next(s, Finish(k));
    forall p | 0 <= p < |t.trace|
      ensures Dispatched(t.flights, t.trace[p])
    {
      DispatchedStays(s.flights, t.flights, s.trace[p]);
    }
    forall l, j | 0 <= l < |t.flights| && 0 <= j < |t.flights[l].ids|
      ensures RefAt(t.flights[l], j) in t.trace <==> j < t.flights[l].effected
    {
      assert RefAt(t.flights[l], j) == RefAt(s.flights[l], j);
    }
  }

  lemma FinishKeeps(s: State, k: nat)
    requires Inv(s) && Enabled(s, Finish(k))
    ensures Inv(Next(s, Finish(k)))
  {
    hide Valid;
    hide FlightsValid;
    hide HistoryIsPassedJobs;
    hide TraceValid;
    var t := Next(s, Finish(k));
    var f := s.flights[k];
    FinishLog(s, k);
    ObjectIsValid(s, f.owner);
    CompleteIsValid(s.objects[f.owner], f.collection, f.ids[f.flagged]);
    OneObjectStays(s, t, f.owner);
    FinishFlights(s, k);
    FinishHistory(s, k);
    FinishTrace(s, k);
    assert forall ref: Ref :: Exists(s.objects, ref) <==> Exists(t.objects, ref);
    ExistingStays(s, t);
  }

  // ---------------------------------------------------------------- every run

  lemma StepKeeps(s: State, step: Step)
    requires Inv(s) && Enabled(s, step)
    ensures Inv(Next(s, step))
  {
    hide Inv;
    match step
    case Create(owner, order, every) => CreateKeeps(s, owner, order, every);
    case PushWork(owner, c, work) => PushKeeps(s, owner, c, work);
    case PassGate(owner, diff) => GateKeeps(s, owner, diff);
    case CutBatch(owner, c, known) => CutKeeps(s, owner, c, known);
    case Execute(k) => ExecuteKeeps(s, k);
    case Finish(k) => FinishKeeps(s, k);
    case Flag(owner) => FlagKeeps(s, owner, true, s.objects[owner].scheduled);
    case Unflag(owner) => FlagKeeps(s, owner, false, false);
  }

  lemma GateKeeps(s: State, owner: nat, diff: nat)
    requires Inv(s) && Enabled(s, PassGate(owner, diff))
    ensures Inv(Next(s, PassGate(owner, diff)))
  {
    hide Valid;
    ObjectIsValid(s, owner);
    GateKeepsValid(s.objects[owner], diff);
    SameLogsKeeps(s, Next(s, PassGate(owner, diff)).objects);
  }

  lemma FlagKeeps(s: State, owner: nat, flagged: bool, scheduled: bool)
    requires Inv(s) && owner in s.objects
    ensures Inv(s.(objects := s.objects[owner := s.objects[owner].(flagged := flagged, scheduled := scheduled)]))
  {
    hide Valid;
    ObjectIsValid(s, owner);
    FlagsAreFree(s.objects[owner], flagged, scheduled);
    SameLogsKeeps(s, s.objects[owner := s.objects[owner].(flagged := flagged, scheduled := scheduled)]);
  }

  lemma FlagsAreFree(tx: Tx, flagged: bool, scheduled: bool)
    requires Valid(tx)
    ensures Valid(tx.(flagged := flagged, scheduled := scheduled))
  {
  }

  /** Every state of every run satisfies the invariant. */
  lemma {:induction false} RunKeeps(states: seq<State>, steps: seq<Step>, i: nat)
    requires IsRun(states, steps) && i <= |steps|
    ensures Inv(states[i])
  {
    if i > 0 {
      RunKeeps(states, steps, i - 1);
      StepKeeps(states[i - 1], steps[i - 1]);
    }
  }
}
