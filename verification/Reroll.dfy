/** Re-rolling a round of a running random cycle: how many members the earlier rounds can have used up, and
    when the new recipients are sure to be new. */
module Reroll {
  import opened Arith
  import opened Common
  import opened Scheduler
  import opened Tables
  import opened Cycles
  import opened Contributions
  import opened Payouts
  import opened Backend
  import Fairness

  /** The cycle's rounds among the first n rows. */
  function RoundsBelow(rounds: seq<Round>, c: int, n: int): set<int> {
    set q | 0 <= q < n && q < |rounds| && rounds[q].cycleId == c
  }

  /** Rounds are numbered upwards from 1, so there are no more of them than the highest number. */
  lemma {:induction false} RoundsBelowBound(rounds: seq<Round>, c: int, n: nat, top: nat)
    requires Ascending(rounds) && n <= |rounds|
    requires forall q :: 0 <= q < n && rounds[q].cycleId == c ==> rounds[q].number <= top
    ensures |RoundsBelow(rounds, c, n)| <= top
    decreases n
  {
    if n == 0 {
      assert RoundsBelow(rounds, c, n) == {};
    } else {
      var below := RoundsBelow(rounds, c, n - 1);
      OneMoreRound(rounds, c, n);
      hide Ascending, RoundsBelow;
      if rounds[n - 1].cycleId == c {
        RoundsBelowBound(rounds, c, n - 1, rounds[n - 1].number - 1);
        assert |below + {n - 1}| <= |below| + 1;
      } else {
        RoundsBelowBound(rounds, c, n - 1, top);
      }
    }
  }

  lemma OneMoreRound(rounds: seq<Round>, c: int, n: nat)
    requires Ascending(rounds) && 0 < n <= |rounds|
    ensures RoundsBelow(rounds, c, n)
            == RoundsBelow(rounds, c, n - 1) + if rounds[n - 1].cycleId == c then {n - 1} else {}
    ensures rounds[n - 1].number >= 1
    ensures rounds[n - 1].cycleId == c ==>
      forall q :: 0 <= q < n - 1 && rounds[q].cycleId == c ==> rounds[q].number <= rounds[n - 1].number - 1
  {
    var more := RoundsBelow(rounds, c, n - 1) + if rounds[n - 1].cycleId == c then {n - 1} else {};
    forall q ensures q in RoundsBelow(rounds, c, n) <==> q in more {
    }
  }

  function EarlierKeys(w: World, c: int, r: int): set<PayoutKey>
    requires HasRound(w, r)
  {
    set p | p in w.payouts && InEarlierRound(w, c, r, p)
  }

  function KeyRound(): PayoutKey -> int { (p: PayoutKey) => p.round }

  function KeyMember(): PayoutKey -> int { (p: PayoutKey) => p.member }

  predicate RunningRound(w: World, g: int, c: int, r: int) {
    LoadRound(w, g, c, r) && Active(w, c)
  }

  lemma EarlierKeysByRound(w: World, g: int, c: int, r: int)
    requires Valid(w) && RunningRound(w, g, c, r)
    ensures forall p :: p in EarlierKeys(w, c, r) ==> KeyRound()(p) in RoundsBelow(w.rounds, c, r)
    ensures forall q :: q in RoundsBelow(w.rounds, c, r) ==>
      |ClassOf(EarlierKeys(w, c, r), KeyRound(), q)| <= w.groups[g].settings.recipients
  {
    hide Valid;
    ValidAscends(w);
    EarlierRoundsComeFirst(w, c, r);
    forall q | q in RoundsBelow(w.rounds, c, r)
      ensures |ClassOf(EarlierKeys(w, c, r), KeyRound(), q)| <= w.groups[g].settings.recipients
    {
      RoundFits(w, g, c, q);
      SubsetCardinality(ClassOf(EarlierKeys(w, c, r), KeyRound(), q), PayoutsOf(w, q));
    }
  }

  lemma ValidAscends(w: World)
    requires Valid(w)
    ensures Ascending(w.rounds)
  {
  }

  lemma EarlierRoundsComeFirst(w: World, c: int, r: int)
    requires Ascending(w.rounds) && HasRound(w, r) && w.rounds[r].cycleId == c
    ensures forall p :: p in EarlierKeys(w, c, r) ==> KeyRound()(p) in RoundsBelow(w.rounds, c, r)
  {
  }

  lemma RoundFits(w: World, g: int, c: int, q: int)
    requires Valid(w) && HasRound(w, q) && w.rounds[q].cycleId == c && Active(w, c) && w.cycles[c].groupId == g
      && HasGroup(w, g)
    ensures |PayoutsOf(w, q)| <= w.groups[g].settings.recipients
  {
    assert Fits(w, q, |PayoutsOf(w, q)|);
    hide Valid;
  }

  /** In a running cycle the rounds before round number r have assigned at most (r - 1) * k members. */
  lemma EarlierAssignedBound(w: World, g: int, c: int, r: int)
    requires Valid(w) && RunningRound(w, g, c, r)
    ensures w.rounds[r].number >= 1
      && |EarlierAssigned(w, c, r)| <= Times(w.rounds[r].number - 1, w.groups[g].settings.recipients)
  {
    var keys, rounds, k := EarlierKeys(w, c, r), RoundsBelow(w.rounds, c, r), w.groups[g].settings.recipients;
    hide Valid, EarlierKeys, RoundsBelow, ClassOf;
    ValidAscends(w);
    assert EarlierAssigned(w, c, r) == Image(keys, KeyMember()) by { AssignedImage(w, c, r); }
    ImageSize(keys, KeyMember());
    EarlierKeysByRound(w, g, c, r);
    ClassesBound(keys, KeyRound(), rounds, k);
    RoundsBelowBound(w.rounds, c, r, w.rounds[r].number - 1);
    MulMonotone(|rounds|, w.rounds[r].number - 1, k);
  }

  lemma AssignedImage(w: World, c: int, r: int)
    requires HasRound(w, r)
    ensures EarlierAssigned(w, c, r) == Image(EarlierKeys(w, c, r), KeyMember())
  {
    var keys := EarlierKeys(w, c, r);
    forall m ensures m in EarlierAssigned(w, c, r) <==> m in Image(keys, KeyMember()) {
      if m in EarlierAssigned(w, c, r) {
        var p :| p in w.payouts && InEarlierRound(w, c, r, p) && p.member == m;
        assert p in keys && KeyMember()(p) == m;
      }
      if m in Image(keys, KeyMember()) {
        var p :| p in keys && KeyMember()(p) == m;
        assert p.member == m;
      }
    }
  }

  /** The re-roll bound, in every reachable state: with n positioned members and n >= (2r - 1) * k, re-rolling
      round number r of a running random cycle is accepted unless the round is paid, and its k new recipients
      were in no earlier round, whatever the clock reads. */
  lemma RerollPicksNewMembers(w: World, ev: Event)
    requires Valid(w) && ev.Reroll? && ev.role == Owner && RunningRound(w, ev.g, ev.c, ev.r) && !AnyDistributed(w, ev.r)
    requires w.groups[ev.g].settings.payoutMethod == Random && w.groups[ev.g].settings.recipients > 0
    requires |Ordered(Roster(w, ev.g))| >= Times(2 * w.rounds[ev.r].number - 1, w.groups[ev.g].settings.recipients)
    ensures CallOf(w, ev).Accepted? && |CallOf(w, ev).writes| == 1 && CallOf(w, ev).writes[0].ReplaceRecipients?
    ensures var ms := CallOf(w, ev).writes[0].members;
      Distinct(ms) && |ms| == w.groups[ev.g].settings.recipients && Elements(ms) !! EarlierAssigned(w, ev.c, ev.r)
  {
    hide Valid, PlannedRound, AnyDistributed, EarlierAssigned, Times, RoundsCount, CallOf, Roster, Ordered;
    var s, ordered := w.groups[ev.g].settings, Ids(Ordered(Roster(w, ev.g)));
    var earlier, number := EarlierAssigned(w, ev.c, ev.r), w.rounds[ev.r].number;
    EarlierAssignedBound(w, ev.g, ev.c, ev.r);
    RosterIds(w, ev.g);
    NewRecipients(ordered, s.recipients, earlier, ev.clock, number);
    RerollTakesRound(w, ev);
  }

  /** What an owner's re-roll of an unpaid round writes: the simulated plan's entry for the round's number. */
  lemma RerollTakesRound(w: World, ev: Event)
    requires ev.Reroll? && ev.role == Owner && LoadRound(w, ev.g, ev.c, ev.r) && !AnyDistributed(w, ev.r)
    requires w.groups[ev.g].settings.payoutMethod == Random && w.groups[ev.g].settings.recipients > 0
    requires 1 <= w.rounds[ev.r].number <= |RerollPlan(w, ev.g, ev.c, ev.r, ev.now, ev.clock)|
    ensures var k, number := w.groups[ev.g].settings.recipients, w.rounds[ev.r].number;
      var ms := PlannedRound(Ids(Ordered(Roster(w, ev.g))), k, Random, EarlierAssigned(w, ev.c, ev.r), ev.clock,
                             number - 1);
      CallOf(w, ev) == Accepted([ReplaceRecipients(ev.r, ms)])
  {
    hide PlannedRound, AnyDistributed, EarlierAssigned, RoundsCount, Roster, Ordered, Ids;
  }

  lemma NewRecipients(ordered: seq<MemberId>, k: nat, earlier: set<MemberId>, clock: nat -> nat, r: nat)
    requires Distinct(ordered) && 1 <= k && 1 <= r && |earlier| <= Times(r - 1, k) && |ordered| >= Times(2 * r - 1, k)
    ensures var ms := PlannedRound(ordered, k, Random, earlier, clock, r - 1);
      r <= RoundsCount(|ordered|, k) && Distinct(ms) && |ms| == k && Elements(ms) !! earlier
  {
    hide PlannedRound;
    MulStep(2 * r - 1, k);
    MulMonotone(1, 2 * r - 1, k);
    Fairness.RerollAvoidsEarlierRounds(ordered, k, earlier, clock, r);
    Fairness.RandomRoundSize(ordered, k, earlier, clock, r - 1);
  }
}
