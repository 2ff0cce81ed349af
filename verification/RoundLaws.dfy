/** How money moves rounds and cycles, said of the tables alone: the state after the follow-up writes of a call is
    given directly, without the functions that the services share. */
module RoundLaws {
  import opened Tables
  import opened Cycles
  import opened Contributions
  import opened Backend

  // ---- the tables after each kind of follow-up ----

  predicate EveryRoundCompleted(w: World, c: int) {
    forall q :: 0 <= q < |w.rounds| && w.rounds[q].cycleId == c ==> w.rounds[q].status == RoundCompleted
  }

  /** The cycle is completed, and if its group asks for that, the next one opened as its owner would. */
  function CycleEnded(w: World, c: int, now: int, clock: nat -> nat): World
    requires 0 <= c < |w.cycles|
  {
    var w1, g := w.(cycles := w.cycles[c := w.cycles[c].(status := CycleCompleted)]), w.cycles[c].groupId;
    if 0 <= g < |w.groups| && w.groups[g].settings.autoOpen then Step(w1, OpenNext(g, Owner, now, clock)) else w1
  }

  function WithStatus(w: World, r: int, s: RoundStatus): World
    requires 0 <= r < |w.rounds|
  {
    w.(rounds := w.rounds[r := w.rounds[r].(status := s)])
  }

  /** The round is completed, and a cycle in progress with it if no other round is left. */
  function RoundEnded(w: World, r: int, now: int, clock: nat -> nat): World
    requires 0 <= r < |w.rounds|
  {
    var w1, c := WithStatus(w, r, RoundCompleted), w.rounds[r].cycleId;
    if 0 <= c < |w.cycles| && w.cycles[c].status == InProgress && EveryRoundCompleted(w1, c)
    then CycleEnded(w1, c, now, clock) else w1
  }

  /** Every active member of the cycle's group has a paid, late or waived row for the round. */
  predicate EverybodyDone(w: World, r: int)
    requires 0 <= r < |w.rounds|
  {
    var c := w.rounds[r].cycleId;
    && 0 <= c < |w.cycles|
    && forall m | 0 <= m < |w.members| && w.members[m].groupId == w.cycles[c].groupId ::
         w.members[m].status == ActiveMember ==> DoneFor(w, Key(c, r, m))
  }

  predicate DoneFor(w: World, k: Key) {
    k in w.contributions && (w.contributions[k].status == Paid || w.contributions[k].status == Late
                             || w.contributions[k].status == Waived)
  }

  predicate HasPayout(w: World, r: int) {
    exists p :: p in w.payouts && p.round == r
  }

  predicate NonePaid(w: World, r: int) {
    forall p :: p in w.payouts && p.round == r ==> w.payouts[p].paidAt.None?
  }

  predicate NoneUnpaid(w: World, r: int) {
    forall p :: p in w.payouts && p.round == r ==> w.payouts[p].paidAt.Some?
  }

  /** Where a round stands once its contributions have been looked at. */
  function StatusNow(w: World, r: int): RoundStatus
    requires 0 <= r < |w.rounds|
  {
    var s, ready := w.rounds[r].status, EverybodyDone(w, r);
    if HasPayout(w, r) && NoneUnpaid(w, r) then RoundCompleted
    else if s != RoundPending || !ready then s
    else if HasPayout(w, r) then Collecting
    else RoundCompleted
  }

  function Advanced(w: World, r: int, now: int, clock: nat -> nat): World
    requires 0 <= r < |w.rounds|
  {
    var s := StatusNow(w, r);
    if s == RoundCompleted && w.rounds[r].status != RoundCompleted then RoundEnded(w, r, now, clock)
    else WithStatus(w, r, s)
  }

  // ---- the calls do that ----

  lemma OpenNextStep(w: World, g: int, now: int, clock: nat -> nat)
    requires HasGroup(w, g) && w.groups[g].settings.autoOpen
    ensures ApplyAll(w, AutoOpenWrites(w, g, now, clock)) == Step(w, OpenNext(g, Owner, now, clock))
  {
    hide NewPlan, Roster;
    assert CallOf(w, OpenNext(g, Owner, now, clock)) == OpenInternalCall(w, g, now, clock);
  }

  lemma CompletionEnds(w: World, c: int, now: int, clock: nat -> nat)
    requires 0 <= c < |w.cycles|
    ensures ApplyAll(w, CompletionWrites(w, c, now, clock)) == CycleEnded(w, c, now, clock)
  {
    var done, g := SetCycleStatus(c, CycleCompleted), w.cycles[c].groupId;
    hide Step, AutoOpenWrites;
    ApplyOne(w, done);
    ApplyAllConcat(w, [done], AutoOpenWrites(Apply(w, done), g, now, clock));
    if HasGroup(w, g) && w.groups[g].settings.autoOpen {
      OpenNextStep(Apply(w, done), g, now, clock);
    } else {
      NothingOpens(Apply(w, done), g, now, clock);
    }
  }

  lemma NothingOpens(w: World, g: int, now: int, clock: nat -> nat)
    requires !(HasGroup(w, g) && w.groups[g].settings.autoOpen)
    ensures ApplyAll(w, AutoOpenWrites(w, g, now, clock)) == w
  {
  }

  lemma CompleteRoundEnds(w: World, r: int, now: int, clock: nat -> nat)
    requires 0 <= r < |w.rounds|
    ensures ApplyAll(w, CompleteRoundWrites(w, r, now, clock)) == RoundEnded(w, r, now, clock)
  {
    hide CompletionWrites, CycleEnded;
    var complete, c := SetRoundStatus(r, RoundCompleted), w.rounds[r].cycleId;
    var w1 := Apply(w, complete);
    ApplyOne(w, complete);
    ApplyAllConcat(w, [complete], AutoCompleteWrites(w1, c, now, clock));
    assert w1.rounds[r].cycleId == c;
    assert AllRoundsCompleted(w1, c) <==> EveryRoundCompleted(w1, c);
    if 0 <= c < |w.cycles| { CompletionEnds(w1, c, now, clock); }
  }

  lemma PayoutsNow(w: World, r: int)
    ensures HasPayout(w, r) <==> PayoutsOf(w, r) != {}
    ensures NoneUnpaid(w, r) <==> AllDistributed(w, r)
    ensures NonePaid(w, r) <==> !AnyDistributed(w, r)
  {
    if p :| p in PayoutsOf(w, r) { assert p in w.payouts && p.round == r; }
    if p :| p in w.payouts && p.round == r { assert p in PayoutsOf(w, r); }
    forall p | p in w.payouts && p.round == r ensures p in PayoutsOf(w, r) {}
    if AllDistributed(w, r) {
      forall p | p in w.payouts && p.round == r ensures w.payouts[p].paidAt.Some? { assert Distributed(w, p); }
    }
    if !AnyDistributed(w, r) {
      forall p | p in w.payouts && p.round == r ensures w.payouts[p].paidAt.None? { assert !Distributed(w, p); }
    }
  }

  lemma CollectedNow(w: World, r: int)
    requires 0 <= r < |w.rounds|
    ensures EverybodyDone(w, r) <==> AllCollected(w, r)
  {
    var c := w.rounds[r].cycleId;
    if 0 <= c < |w.cycles| {
      var g := w.cycles[c].groupId;
      forall m ensures m in ActiveMembers(w, g) <==>
        0 <= m < |w.members| && w.members[m].groupId == g && w.members[m].status == ActiveMember
      {
      }
      if AllCollected(w, r) {
        forall m | m in ActiveMembers(w, g) ensures DoneFor(w, Key(c, r, m)) { assert Key(c, r, m) in w.contributions; }
      }
      if EverybodyDone(w, r) {
        forall m | m in ActiveMembers(w, g)
          ensures Key(c, r, m) in w.contributions && w.contributions[Key(c, r, m)].status != Pending
        {
          assert DoneFor(w, Key(c, r, m));
        }
      }
    }
  }

  lemma RoundEndsAnyhow(w: World, r: int, s: RoundStatus, now: int, clock: nat -> nat)
    requires 0 <= r < |w.rounds|
    ensures RoundEnded(WithStatus(w, r, s), r, now, clock) == RoundEnded(w, r, now, clock)
  {
    hide CycleEnded;
    assert WithStatus(WithStatus(w, r, s), r, RoundCompleted) == WithStatus(w, r, RoundCompleted);
  }

  lemma AllPaidMoves(w: World, r: int, now: int, clock: nat -> nat)
    requires 0 <= r < |w.rounds|
    ensures ApplyAll(w, AllPaidWrites(w, r, now, clock)) ==
      if HasPayout(w, r) && NoneUnpaid(w, r) && w.rounds[r].status != RoundCompleted then RoundEnded(w, r, now, clock)
      else w
  {
    hide CompleteRoundWrites, RoundEnded, HasPayout, NoneUnpaid, AllDistributed, PayoutsOf;
    PayoutsNow(w, r);
    CompleteRoundEnds(w, r, now, clock);
  }

  lemma AdvanceMoves(w: World, r: int, now: int, clock: nat -> nat)
    requires 0 <= r < |w.rounds|
    ensures ApplyAll(w, AdvanceWrites(w, r, now, clock)) == Advanced(w, r, now, clock)
  {
    hide CompleteRoundWrites, RoundEnded, AllPaidWrites, EverybodyDone, AllCollected;
    PayoutsNow(w, r);
    CollectedNow(w, r);
    var collecting := SetRoundStatus(r, Collecting);
    var w1 := Apply(w, collecting);
    assert w1 == WithStatus(w, r, Collecting);
    if w.rounds[r].status == RoundPending && AllCollected(w, r) {
      CompleteRoundEnds(w, r, now, clock);
      ApplyOne(w, collecting);
      ApplyAllConcat(w, [collecting], AllPaidWrites(w1, r, now, clock));
      AllPaidMoves(w1, r, now, clock);
      assert HasPayout(w1, r) == HasPayout(w, r) && NoneUnpaid(w1, r) == NoneUnpaid(w, r);
      RoundEndsAnyhow(w, r, Collecting, now, clock);
    } else {
      AllPaidMoves(w, r, now, clock);
      assert WithStatus(w, r, w.rounds[r].status) == w;
    }
  }

  // ---- what none of this touches ----

  /** The follow-ups of a payment leave groups, members and contributions alone, and of the older rounds and cycles
      everything but the status. */
  predicate StatusApart(w: World, w': World) {
    && w'.groups == w.groups && w'.members == w.members && w'.contributions == w.contributions
    && |w.rounds| <= |w'.rounds| && |w.cycles| <= |w'.cycles|
    && (forall q :: 0 <= q < |w.rounds| ==> w'.rounds[q].(status := w.rounds[q].status) == w.rounds[q])
    && (forall c :: 0 <= c < |w.cycles| ==> w'.cycles[c].(status := w.cycles[c].status) == w.cycles[c])
  }

  lemma OpeningApart(w: World, g: int, now: int, clock: nat -> nat)
    ensures StatusApart(w, Step(w, OpenNext(g, Owner, now, clock)))
    ensures forall q :: 0 <= q < |w.rounds| ==> Step(w, OpenNext(g, Owner, now, clock)).rounds[q] == w.rounds[q]
    ensures forall c :: 0 <= c < |w.cycles| ==> Step(w, OpenNext(g, Owner, now, clock)).cycles[c] == w.cycles[c]
  {
    hide NewPlan, Roster, LastNumber;
    var call := CallOf(w, OpenNext(g, Owner, now, clock));
    if call.Accepted? { ApplyOne(w, call.writes[0]); }
  }

  lemma RoundEndedApart(w: World, r: int, now: int, clock: nat -> nat)
    requires 0 <= r < |w.rounds|
    ensures StatusApart(w, RoundEnded(w, r, now, clock))
    ensures forall q :: 0 <= q < |w.rounds| ==>
      RoundEnded(w, r, now, clock).rounds[q].status == if q == r then RoundCompleted else w.rounds[q].status
  {
    hide Step;
    var w1, c := WithStatus(w, r, RoundCompleted), w.rounds[r].cycleId;
    if 0 <= c < |w.cycles| {
      var w2 := w1.(cycles := w1.cycles[c := w1.cycles[c].(status := CycleCompleted)]);
      OpeningApart(w2, w.cycles[c].groupId, now, clock);
    }
  }

  lemma AdvancedApart(w: World, r: int, now: int, clock: nat -> nat)
    requires 0 <= r < |w.rounds|
    ensures StatusApart(w, Advanced(w, r, now, clock))
    ensures forall q :: 0 <= q < |w.rounds| ==>
      Advanced(w, r, now, clock).rounds[q].status == if q == r then StatusNow(w, r) else w.rounds[q].status
  {
    hide RoundEnded, StatusNow;
    RoundEndedApart(w, r, now, clock);
  }
}
