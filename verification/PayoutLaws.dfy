/** What distributing, assigning and re-rolling a round do, said of the tables and of the numbers in them. */
module PayoutLaws {
  import opened Arith
  import opened Common
  import opened Scheduler
  import opened Tables
  import opened Cycles
  import opened Payouts
  import opened Backend
  import opened RoundLaws
  import opened ContributionLaws
  import opened CycleLaws
  import Fairness
  import Reroll

  // ---- distributing ----

  lemma PayOutVerdict(w: World, ev: Event)
    requires ev.PayOut?
    ensures CallOf(w, ev).Accepted? <==>
      && ev.role != Member && Found(w, ev.g, ev.c, ev.r) && w.groups[ev.g].settings.recipients > 0
      && HasPayout(w, ev.r) && NonePaid(w, ev.r) && ev.receipt != WithReceipt(false)
    ensures !CallOf(w, ev).Accepted? ==> CallOf(w, ev) == Refused(
      if ev.role == Member then Forbidden
      else if !Found(w, ev.g, ev.c, ev.r) then NotFound
      else if w.groups[ev.g].settings.recipients == 0 then PayoutsDisabled
      else if !HasPayout(w, ev.r) then NoRecipients
      else if !NonePaid(w, ev.r) then AlreadyDistributed
      else StorageNotConfigured)
  {
    hide CompleteRoundWrites, PayWrite, PayoutsOf, AnyDistributed, HasPayout, NonePaid;
    PayoutsNow(w, ev.r);
  }

  /** The payout rows of the round. */
  function RowsFor(w: World, r: int): set<PayoutKey> {
    set p | p in w.payouts && p.round == r
  }

  /** What each of the n recipients gets of a total: the whole part of an equal share, or the contribution amount
      when that would be nothing. */
  predicate IsShare(q: int, total: int, n: nat, amount: int) {
    if total >= n then q * n <= total < q * n + n else q == amount
  }

  function EachPaid(w: World, r: int, q: int, at: int -> int): World {
    w.(payouts := map p | p in w.payouts :: if p.round == r then Payout(q, Some(at(p.member))) else w.payouts[p])
  }

  /** Every recipient of the round is paid the same share, each at its own time, nobody else is paid anything, and
      the round is completed. */
  lemma PayOutEffect(w: World, ev: Event)
    requires ev.PayOut? && CallOf(w, ev).Accepted?
    ensures Found(w, ev.g, ev.c, ev.r)
    ensures exists q :: IsShare(q, w.rounds[ev.r].total, |RowsFor(w, ev.r)|, w.groups[ev.g].settings.amount)
                        && Step(w, ev) == RoundEnded(EachPaid(w, ev.r, q, ev.paidAt), ev.r, ev.now, ev.clock)
  {
    hide CompleteRoundWrites, RoundEnded, PerRecipient, IsShare;
    PayOutVerdict(w, ev);
    PayoutsNow(w, ev.r);
    var x := PayWrite(w, ev.g, ev.r, ev.paidAt);
    ShareIs(w, ev.g, ev.r);
    var w1 := Apply(w, x);
    var rest := CompleteRoundWrites(w1, ev.r, ev.now, ev.clock);
    assert CallOf(w, ev) == Accepted([x] + rest);
    ApplyOne(w, x);
    ApplyAllConcat(w, [x], rest);
    CompleteRoundEnds(w1, ev.r, ev.now, ev.clock);
  }

  lemma ShareIs(w: World, g: int, r: int)
    requires HasGroup(w, g) && HasRound(w, r) && PayoutsOf(w, r) != {}
    ensures IsShare(PerRecipient(w, g, r), w.rounds[r].total, |RowsFor(w, r)|, w.groups[g].settings.amount)
  {
    assert RowsFor(w, r) == PayoutsOf(w, r);
    hide PayoutsOf;
    DividesDown(w.rounds[r].total, |PayoutsOf(w, r)|);
  }

  lemma DividesDown(total: int, n: nat)
    requires n > 0
    ensures TruncDiv(total, n) > 0 <==> total >= n
    ensures total >= n ==> TruncDiv(total, n) * n <= total < TruncDiv(total, n) * n + n
  {
    if total >= 0 {
      DivMod(total, n);
      if total < n {
        DivUnique(total, 0, n, total);
      } else {
        MulCancelLess(0, total / n, n) by { MulStep(total / n, n); }
      }
    } else {
      DivMod(-total, n);
    }
  }

  // ---- assigning ----

  predicate Repeats(ids: seq<int>) {
    exists i, j :: 0 <= i < j < |ids| && ids[i] == ids[j]
  }

  /** The member was paid in a round of the cycle with a lower number. */
  predicate PaidBefore(w: World, c: int, r: int, m: int)
    requires 0 <= r < |w.rounds|
  {
    exists q :: 0 <= q < |w.rounds| && w.rounds[q].cycleId == c && w.rounds[q].number < w.rounds[r].number
                && PayoutKey(q, m) in w.payouts && w.payouts[PayoutKey(q, m)].paidAt.Some?
  }

  /** Assigning is for the owner of a manual group: k different active members, none of them paid before in the
      cycle, for a round not yet paid; refused in this order. */
  lemma AssignVerdict(w: World, ev: Event)
    requires ev.Assign?
    ensures var found := Found(w, ev.g, ev.c, ev.r);
      CallOf(w, ev) ==
        if ev.role != Owner then Refused(Forbidden)
        else if !found then Refused(NotFound)
        else if w.groups[ev.g].settings.recipients == 0 then Refused(PayoutsDisabled)
        else if w.groups[ev.g].settings.payoutMethod != Manual then Refused(NotManual)
        else if |ev.ids| != w.groups[ev.g].settings.recipients then Refused(WrongCount)
        else if Repeats(ev.ids) then Refused(DuplicateRecipient)
        else if exists m :: m in ev.ids && m !in Joined(w, ev.g) then Refused(InvalidMember)
        else if !NonePaid(w, ev.r) then Refused(AlreadyDistributed)
        else if exists m :: m in ev.ids && PaidBefore(w, ev.c, ev.r, m) then Refused(AlreadyReceived)
        else Accepted([ReplaceRecipients(ev.r, ev.ids)])
  {
    hide AnyDistributed, NonePaid, EarlierPaid, Repeats;
    PayoutsNow(w, ev.r);
    RepeatsIff(ev.ids);
    if Found(w, ev.g, ev.c, ev.r) {
      forall m ensures m in EarlierPaid(w, ev.c, ev.r) <==> PaidBefore(w, ev.c, ev.r, m) {
        PaidBeforeIff(w, ev.c, ev.r, m);
      }
    }
    assert forall m :: m in ev.ids ==> (m in Joined(w, ev.g) <==> IsActiveMember(w, ev.g, m));
  }

  lemma RepeatsIff(ids: seq<int>)
    ensures Repeats(ids) <==> |Elements(ids)| != |ids|
  {
    if Repeats(ids) {
      RepeatsShrink(ids);
    } else {
      DistinctCardinality(ids);
    }
  }

  lemma RepeatsShrink(ids: seq<int>)
    requires Repeats(ids)
    ensures |Elements(ids)| < |ids|
  {
    var i, j :| 0 <= i < j < |ids| && ids[i] == ids[j];
    var rest := ids[..j] + ids[j + 1..];
    assert Elements(ids) == Elements(rest) by {
      forall x | x in ids ensures x in rest {
        var a :| 0 <= a < |ids| && ids[a] == x;
        if a == j { assert rest[i] == x; } else if a < j { assert rest[a] == x; } else { assert rest[a - 1] == x; }
      }
    }
    ElementsAtMost(rest);
  }

  lemma {:induction false} ElementsAtMost(s: seq<int>)
    ensures |Elements(s)| <= |s|
  {
    if s != [] {
      ElementsAtMost(s[..|s| - 1]);
      assert Elements(s) == Elements(s[..|s| - 1]) + {s[|s| - 1]};
    }
  }

  lemma PaidBeforeIff(w: World, c: int, r: int, m: int)
    requires HasRound(w, r)
    ensures m in EarlierPaid(w, c, r) <==> PaidBefore(w, c, r, m)
  {
    if m in EarlierPaid(w, c, r) {
      var p :| p in w.payouts && Distributed(w, p) && InEarlierRound(w, c, r, p) && p.member == m;
      assert PayoutKey(p.round, m) == p;
    }
    if PaidBefore(w, c, r, m) {
      var q :| 0 <= q < |w.rounds| && w.rounds[q].cycleId == c && w.rounds[q].number < w.rounds[r].number
               && PayoutKey(q, m) in w.payouts && w.payouts[PayoutKey(q, m)].paidAt.Some?;
      assert InEarlierRound(w, c, r, PayoutKey(q, m)) && Distributed(w, PayoutKey(q, m));
    }
  }

  /** The round has exactly these recipients, all unpaid, and no other row of any table changed. */
  ghost predicate NewRecipients(w: World, w': World, r: int, members: set<int>) {
    && w' == w.(payouts := w'.payouts)
    && forall p :: (p in w'.payouts <==> if p.round == r then p.member in members else p in w.payouts)
                   && (p in w'.payouts ==> w'.payouts[p] == if p.round == r then Payout(0, None) else w.payouts[p])
  }

  lemma Replaces(w: World, r: int, ms: seq<int>)
    ensures NewRecipients(w, Apply(w, ReplaceRecipients(r, ms)), r, Elements(ms))
  {
    var w' := Apply(w, ReplaceRecipients(r, ms));
    forall p ensures (p in w'.payouts <==> if p.round == r then p.member in Elements(ms) else p in w.payouts) {
      if p.round == r && p.member in ms { assert p == PayoutKey(r, p.member); }
    }
  }

  lemma AssignEffect(w: World, ev: Event)
    requires ev.Assign? && CallOf(w, ev).Accepted?
    ensures NewRecipients(w, Step(w, ev), ev.r, Elements(ev.ids))
  {
    hide NewRecipients, Apply;
    ApplyOne(w, CallOf(w, ev).writes[0]);
    Replaces(w, ev.r, ev.ids);
  }

  // ---- re-rolling ----

  /** The member has a payout row, paid or not, in a round of the cycle with a lower number. */
  predicate NamedBefore(w: World, c: int, r: int, m: int)
    requires 0 <= r < |w.rounds|
  {
    exists q :: 0 <= q < |w.rounds| && w.rounds[q].cycleId == c && w.rounds[q].number < w.rounds[r].number
                && PayoutKey(q, m) in w.payouts
  }

  lemma NamedBeforeIff(w: World, c: int, r: int, m: int)
    requires HasRound(w, r)
    ensures m in EarlierAssigned(w, c, r) <==> NamedBefore(w, c, r, m)
  {
    if m in EarlierAssigned(w, c, r) {
      var p :| p in w.payouts && InEarlierRound(w, c, r, p) && p.member == m;
      assert PayoutKey(p.round, m) == p;
    }
    if NamedBefore(w, c, r, m) {
      var q :| 0 <= q < |w.rounds| && w.rounds[q].cycleId == c && w.rounds[q].number < w.rounds[r].number
               && PayoutKey(q, m) in w.payouts;
      assert InEarlierRound(w, c, r, PayoutKey(q, m));
    }
  }

  /** n members, k at a time, reach round `number`. */
  predicate Reaches(n: nat, k: nat, number: int) {
    1 <= number && n > 0 && (number - 1) * k < n
  }

  lemma ReachesIff(n: nat, k: nat, number: int)
    requires k > 0
    ensures Reaches(n, k, number) <==> 1 <= number <= RoundsCount(n, k)
  {
    if n > 0 && number >= 1 {
      var count := RoundsCount(n, k);
      if number <= count { MulMonotone(number - 1, count - 1, k); } else { MulMonotone(count, number - 1, k); }
    }
  }

  /** Re-rolling is for the owner of a random group and a round not yet paid that today's members still reach. */
  lemma RerollVerdict(w: World, ev: Event)
    requires ev.Reroll?
    ensures CallOf(w, ev).Accepted? <==>
      && ev.role == Owner && Found(w, ev.g, ev.c, ev.r) && w.groups[ev.g].settings.recipients > 0
      && w.groups[ev.g].settings.payoutMethod == Random && NonePaid(w, ev.r)
      && Reaches(|Positioned(w, ev.g)|, w.groups[ev.g].settings.recipients, w.rounds[ev.r].number)
    ensures !CallOf(w, ev).Accepted? ==> CallOf(w, ev) == Refused(
      if ev.role != Owner then Forbidden
      else if !Found(w, ev.g, ev.c, ev.r) then NotFound
      else if w.groups[ev.g].settings.recipients == 0 then PayoutsDisabled
      else if w.groups[ev.g].settings.payoutMethod != Random then NotRandom
      else if !NonePaid(w, ev.r) then AlreadyDistributed
      else NoRecipients)
  {
    hide PlannedRound, Roster, Ordered, AnyDistributed, NonePaid, EarlierAssigned, RoundsCount, Reaches, Positioned;
    PayoutsNow(w, ev.r);
    RosterIs(w, ev.g);
    if Found(w, ev.g, ev.c, ev.r) && w.groups[ev.g].settings.recipients > 0 {
      ReachesIff(|Positioned(w, ev.g)|, w.groups[ev.g].settings.recipients, w.rounds[ev.r].number);
    }
  }

  /** The round's new recipients are min(k, n) of the positioned members; no other row changes. None of them has a
      row in an earlier round of the cycle while that round's number r and n satisfy n >= (2r - 1) * k. */
  lemma RerollEffect(w: World, ev: Event)
    requires Valid(w) && ev.Reroll? && CallOf(w, ev).Accepted?
    ensures Found(w, ev.g, ev.c, ev.r)
    ensures var n, k := |Positioned(w, ev.g)|, w.groups[ev.g].settings.recipients;
      exists drawn :: NewRecipients(w, Step(w, ev), ev.r, drawn) && drawn <= Positioned(w, ev.g)
        && |drawn| == (if k < n then k else n)
        && (w.cycles[ev.c].status != CycleCompleted && n >= (2 * w.rounds[ev.r].number - 1) * k ==>
            forall m :: m in drawn ==> !NamedBefore(w, ev.c, ev.r, m))
  {
    hide NewRecipients, Apply, Roster, Ordered, PlannedRound, RoundsCount, EarlierAssigned, NamedBefore, Positioned,
      Valid, AnyDistributed, NonePaid, Reaches;
    RerollVerdict(w, ev);
    RosterIs(w, ev.g);
    RosterIds(w, ev.g);
    var k, number, ordered := w.groups[ev.g].settings.recipients, w.rounds[ev.r].number, Ids(Ordered(Roster(w, ev.g)));
    PayoutsNow(w, ev.r);
    RerollTakes(w, ev);
    var ms := CallOf(w, ev).writes[0].members;
    Replaces(w, ev.r, ms);
    Fairness.RandomRoundSize(ordered, k, EarlierAssigned(w, ev.c, ev.r), ev.clock, number - 1);
    DistinctCardinality(ms);
    forall m ensures m in EarlierAssigned(w, ev.c, ev.r) <==> NamedBefore(w, ev.c, ev.r, m) {
      NamedBeforeIff(w, ev.c, ev.r, m);
    }
    if w.cycles[ev.c].status != CycleCompleted && |Positioned(w, ev.g)| >= (2 * number - 1) * k {
      Reroll.RerollPicksNewMembers(w, ev);
    }
  }

  lemma RerollTakes(w: World, ev: Event)
    requires ev.Reroll? && CallOf(w, ev).Accepted?
    ensures HasGroup(w, ev.g) && HasRound(w, ev.r) && w.rounds[ev.r].number >= 1
    ensures var ms := PlannedRound(Ids(Ordered(Roster(w, ev.g))), w.groups[ev.g].settings.recipients, Random,
                                   EarlierAssigned(w, ev.c, ev.r), ev.clock, w.rounds[ev.r].number - 1);
      CallOf(w, ev) == Accepted([ReplaceRecipients(ev.r, ms)])
      && Step(w, ev) == Apply(w, ReplaceRecipients(ev.r, ms))
  {
    hide PlannedRound, Apply, AnyDistributed, EarlierAssigned, RoundsCount, Roster, Ordered, Ids;
    ApplyOne(w, CallOf(w, ev).writes[0]);
  }
}
