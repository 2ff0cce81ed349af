/** backend/src/modules/cycles/lateDetection.ts: the daily sweep that marks overdue contributions late. */
module LateDetection {
  import opened Scheduler
  import opened Tables

  datatype LateDetectionResult = LateDetectionResult(scannedCycles: nat, flippedToLate: nat)

  /** The sweep looks into this round: collecting or pending, in a running cycle, past due date plus grace. */
  predicate PastCutoff(w: World, r: int, now: int) {
    && HasRound(w, r) && HasCycle(w, w.rounds[r].cycleId) && HasGroup(w, w.cycles[w.rounds[r].cycleId].groupId)
    && w.cycles[w.rounds[r].cycleId].status == InProgress
    && (w.rounds[r].status == RoundPending || w.rounds[r].status == Collecting)
    && now > w.rounds[r].dueDate + w.groups[w.cycles[w.rounds[r].cycleId].groupId].settings.graceDays * MS_PER_DAY
  }

  predicate IsOverdue(w: World, k: Key, now: int) {
    && k in w.contributions && w.contributions[k].status == Pending
    && PastCutoff(w, k.round, now) && k.cycle == w.rounds[k.round].cycleId
  }

  function Overdue(w: World, now: int): set<Key> {
    set k | k in w.contributions && IsOverdue(w, k, now)
  }

  function SweepCall(w: World, now: int): Call {
    Accepted([MarkLate(Overdue(w, now))])
  }

  function Swept(w: World, now: int): World {
    Apply(w, MarkLate(Overdue(w, now)))
  }

  function RunningCycles(cycles: seq<Cycle>): set<int> {
    set c | 0 <= c < |cycles| && cycles[c].status == InProgress
  }

  method RunLateDetection(db: Database, now: int) returns (result: LateDetectionResult)
    modifies db`contributions
    ensures db.Snapshot() == Outcome(old(db.Snapshot()), SweepCall(old(db.Snapshot()), now))
    ensures result.scannedCycles == |set c | 0 <= c < |old(db.cycles)| && old(db.cycles)[c].status == InProgress|
    ensures result.flippedToLate ==
      |set k | k in old(db.contributions) && k in db.contributions && db.contributions[k] != old(db.contributions)[k]|
  {
    ghost var before := db.Snapshot();
    var flipped := 0;
    ghost var done: set<Key> := {};
    for c := 0 to |db.cycles|
      modifies db`contributions
      invariant done == SweptSoFar(before, now, c, 0) && flipped == |done|
      invariant db.contributions == MarkedLate(before.contributions, done)
    {
      var cycle := db.cycles[c];
      if cycle.status == InProgress && 0 <= cycle.groupId < |db.groups| {
        var count := SweepCycle(db, c, now, before);
        flipped := flipped + count;
        done := SweptSoFar(before, now, c, |db.rounds|);
      } else {
        assert forall r :: 0 <= r < |before.rounds| && before.rounds[r].cycleId == c ==> !PastCutoff(before, r, now);
      }
      SweptCycle(before, now, c);
    }
    assert done == Overdue(before, now);
    ApplyOne(before, MarkLate(done));
    assert done == set k | k in before.contributions && k in db.contributions
                           && db.contributions[k] != before.contributions[k];
    result := LateDetectionResult(|RunningCycles(db.cycles)|, flipped);
  }

  /** The middle loop: the rounds of one running cycle. */
  method SweepCycle(db: Database, c: int, now: int, ghost before: World) returns (count: nat)
    requires HasCycle(before, c) && before.cycles[c].status == InProgress && HasGroup(before, before.cycles[c].groupId)
    requires db.groups == before.groups && db.cycles == before.cycles && db.rounds == before.rounds
    requires db.contributions == MarkedLate(before.contributions, SweptSoFar(before, now, c, 0))
    modifies db`contributions
    ensures db.contributions == MarkedLate(before.contributions, SweptSoFar(before, now, c, |before.rounds|))
    ensures |SweptSoFar(before, now, c, |before.rounds|)| == |SweptSoFar(before, now, c, 0)| + count
  {
    hide SweptSoFar, PendingIn, MarkedLate;
    var graceMs := db.groups[db.cycles[c].groupId].settings.graceDays * MS_PER_DAY;
    count := 0;
    for r := 0 to |db.rounds|
      modifies db`contributions
      invariant db.contributions == MarkedLate(before.contributions, SweptSoFar(before, now, c, r))
      invariant |SweptSoFar(before, now, c, r)| == |SweptSoFar(before, now, c, 0)| + count
    {
      var round := db.rounds[r];
      SweptStep(before, now, c, r);
      assert PastCutoff(before, r, now) && round.cycleId == c <==>
        round.cycleId == c && (round.status == RoundPending || round.status == Collecting)
          && now > round.dueDate + graceMs;
      if round.cycleId == c && (round.status == RoundPending || round.status == Collecting)
        && now > round.dueDate + graceMs {
        var n := SweepRound(db, c, r, before, SweptSoFar(before, now, c, r));
        count := count + n;
      }
    }
  }

  ghost function PendingIn(w: World, c: int, r: int): set<Key> {
    set k | k in w.contributions && k.cycle == c && k.round == r && w.contributions[k].status == Pending
  }

  /** The overdue rows of the cycles before c, and of the rounds before r in cycle c. */
  ghost function SweptSoFar(w: World, now: int, c: int, r: int): set<Key> {
    set k | k in w.contributions && IsOverdue(w, k, now) && (k.cycle < c || (k.cycle == c && k.round < r))
  }

  lemma SweptStep(w: World, now: int, c: int, r: int)
    requires HasRound(w, r)
    ensures var done, next := SweptSoFar(w, now, c, r), SweptSoFar(w, now, c, r + 1);
      if w.rounds[r].cycleId == c && PastCutoff(w, r, now)
      then done !! PendingIn(w, c, r) && next == done + PendingIn(w, c, r) && |next| == |done| + |PendingIn(w, c, r)|
      else next == done
  {
    if w.rounds[r].cycleId == c && PastCutoff(w, r, now) {
      assert SweptSoFar(w, now, c, r) !! PendingIn(w, c, r);
      assert SweptSoFar(w, now, c, r + 1) == SweptSoFar(w, now, c, r) + PendingIn(w, c, r);
    } else {
      assert SweptSoFar(w, now, c, r + 1) == SweptSoFar(w, now, c, r);
    }
  }

  lemma SweptCycle(w: World, now: int, c: int)
    ensures SweptSoFar(w, now, c + 1, 0) == SweptSoFar(w, now, c, |w.rounds|)
    ensures (forall r :: 0 <= r < |w.rounds| && w.rounds[r].cycleId == c ==> !PastCutoff(w, r, now)) ==>
      SweptSoFar(w, now, c + 1, 0) == SweptSoFar(w, now, c, 0)
  {
  }

  /** The innermost loop: every contribution still pending in the round is updated to late. */
  method SweepRound(db: Database, c: int, r: int, ghost before: World, ghost done: set<Key>) returns (count: nat)
    requires db.contributions == MarkedLate(before.contributions, done) && done !! PendingIn(before, c, r)
    modifies db`contributions
    ensures count == |PendingIn(before, c, r)|
    ensures db.contributions == MarkedLate(before.contributions, done + PendingIn(before, c, r))
  {
    var late := set k | k in db.contributions && k.cycle == c && k.round == r && db.contributions[k].status == Pending;
    assert late == PendingIn(before, c, r);
    count := 0;
    var todo := late;
    ghost var marked := done;
    while todo != {}
      modifies db`contributions
      invariant todo <= late && count == |late| - |todo| && marked + todo == done + late && marked !! todo
      invariant db.contributions == MarkedLate(before.contributions, marked)
    {
      var k :| k in todo;
      MarkLateStep(before, marked, k);
      db.contributions := db.contributions[k := db.contributions[k].(status := Late)];
      marked := marked + {k};
      todo := todo - {k};
      count := count + 1;
    }
    assert marked == done + late;
  }

  lemma MarkLateStep(w: World, done: set<Key>, k: Key)
    requires k in w.contributions
    ensures var rows := MarkedLate(w.contributions, done);
      MarkedLate(w.contributions, done + {k}) == rows[k := rows[k].(status := Late)]
  {
  }

  // ---- what a sweep achieves ----

  /** After a sweep at time t no pending row is overdue at t. Exactly the overdue rows changed, in their status
      alone. */
  lemma SweepIsExact(w: World, t: int)
    ensures Overdue(Swept(w, t), t) == {}
    ensures Swept(w, t) == w.(contributions := Swept(w, t).contributions)
    ensures Swept(w, t).contributions.Keys == w.contributions.Keys
    ensures forall k :: k in w.contributions ==>
      Swept(w, t).contributions[k]
      == if IsOverdue(w, k, t) then w.contributions[k].(status := Late) else w.contributions[k]
  {
    var w' := Swept(w, t);
    forall k | k in w'.contributions ensures !IsOverdue(w', k, t) {
      if IsOverdue(w', k, t) { assert PastCutoff(w, k.round, t); }
    }
  }

  /** Missed runs do not matter: sweeping at t1 and then at t2 is sweeping at t2 alone. */
  lemma SweepsCompose(w: World, t1: int, t2: int)
    requires t1 <= t2
    ensures Swept(Swept(w, t1), t2) == Swept(w, t2)
  {
    var w1 := Swept(w, t1);
    forall k | k in w.contributions ensures IsOverdue(w1, k, t2) <==> IsOverdue(w, k, t2) && !IsOverdue(w, k, t1) {
      assert PastCutoff(w1, k.round, t2) <==> PastCutoff(w, k.round, t2);
    }
    forall k | k in w.contributions && IsOverdue(w, k, t1) ensures IsOverdue(w, k, t2) {
    }
    assert Swept(w1, t2).contributions == Swept(w, t2).contributions;
  }
}
