/** Concrete runs of a club of two, one recipient a round: what re-rolling and assigning can do to a cycle's
    recipients. */
module PairWitnesses {
  import opened Common
  import opened Scheduler
  import opened Tables
  import opened Cycles
  import opened Contributions
  import opened Payouts
  import opened Groups
  import opened Backend
  import opened Rotation
  import opened Witnesses

  function PairClub(how: PayoutMethod): World {
    World([Group(ActiveGroup, Settings(2, 100, Weekly, 0, 1, how, false))],
          [GroupMember(0, 0, Owner, ActiveMember, Some(1)), GroupMember(0, 1, Member, ActiveMember, Some(2))],
          [], [], map[], map[])
  }

  /** The club with a cycle of two rounds, in the given states, in which nothing was collected. */
  function PairCycle(how: PayoutMethod, status: CycleStatus, a: RoundStatus, b: RoundStatus,
                     payouts: map<PayoutKey, Payout>): World {
    PairClub(how).(cycles := [Cycle(0, 1, status)],
                   rounds := [Round(0, 1, 0, a, 0), Round(0, 2, 7 * MS_PER_DAY, b, 0)],
                   payouts := payouts)
  }

  /** One unpaid recipient for each round. */
  function Unpaid(first: int, second: int): map<PayoutKey, Payout> {
    map[PayoutKey(0, first) := Payout(0, None), PayoutKey(1, second) := Payout(0, None)]
  }

  function OpenPair(how: PayoutMethod, payouts: map<PayoutKey, Payout>): World {
    PairCycle(how, Open, RoundPending, RoundPending, payouts)
  }

  /** Draws of the two members: with the clock at 10 member 0 comes first, with the clock at 0 member 1. */
  function At(time: nat): nat -> nat { _ => time }

  // ---- the roster and its draws ----

  lemma PairRoster(w: World)
    requires w.members == PairClub(Queue).members
    ensures Roster(w, 0) == [RosterEntry(0, Some(1)), RosterEntry(1, Some(2))]
  {
    var a, b := RosterEntry(0, Some(1)), RosterEntry(1, Some(2));
    assert RosterUpTo(w.members, 0, 1) == RosterUpTo(w.members, 0, 0) + [a];
    assert RosterUpTo(w.members, 0, 2) == RosterUpTo(w.members, 0, 1) + [b];
  }

  lemma PairOrder()
    ensures Ids(Ordered([RosterEntry(0, Some(1)), RosterEntry(1, Some(2))])) == [0, 1]
  {
    hide Ordered;
    var a, b := RosterEntry(0, Some(1)), RosterEntry(1, Some(2));
    PairSorted(a, b);
    assert Ids([a, b]) == [0, 1];
  }

  lemma PairSorted(a: RosterEntry, b: RosterEntry)
    requires a.position.Some? && b.position.Some? && a.position.value < b.position.value
    ensures Ordered([a, b]) == [a, b]
  {
    assert [a, b][..1] == [a] && [a][..0] == [];
    assert Ordered([a]) == [a];
  }

  lemma TheDraws()
    ensures NextSeed(10) == 142307 && DrawIndex(142307, 1) == 1
    ensures NextSeed(0) == 49297 && DrawIndex(49297, 1) == 0
  {
  }

  lemma PairShuffles()
    ensures Shuffle([0, 1], 10, 1) == [0, 1] && Shuffle([0, 1], 0, 1) == [1, 0]
  {
    hide NextSeed, DrawIndex;
    TheDraws();
    assert Swap([0, 1], 1, 1) == [0, 1] && Swap([0, 1], 1, 0) == [1, 0];
  }

  lemma PairDraws()
    ensures Draw([0, 1], 1, 10) == [0] && Draw([0, 1], 1, 0) == [1] && Draw([1], 1, 10) == [1]
  {
    hide Shuffle;
    PairShuffles();
  }

  lemma PairPool()
    ensures Unassigned([0, 1], {}) == [0, 1] && Unassigned([0, 1], {0}) == [1] && Unassigned([0, 1], {0, 1}) == []
  {
    hide Unassigned;
    PairPoolIs({});
    PairPoolIs({0});
    PairPoolIs({0, 1});
  }

  lemma PairPoolIs(taken: set<int>)
    ensures Unassigned([0, 1], taken) == (if 0 in taken then [] else [0]) + (if 1 in taken then [] else [1])
  {
    hide Unassigned;
    assert [0, 1] == [0] + [1] && [0] == [] + [0];
    LastOfPool([], 0, taken);
    LastOfPool([0], 1, taken);
    assert Unassigned([], taken) == [] by { EmptyPool(taken); }
  }

  lemma LastOfPool(front: seq<int>, x: int, taken: set<int>)
    ensures Unassigned(front + [x], taken) == Unassigned(front, taken) + if x in taken then [] else [x]
  {
    assert (front + [x])[..|front|] == front;
  }

  lemma EmptyPool(taken: set<int>)
    ensures Unassigned([], taken) == []
  {
  }

  lemma PairPicks()
    ensures PlannedRound([0, 1], 1, Random, {}, At(10), 0) == [0]
    ensures PlannedRound([0, 1], 1, Random, {}, At(10), 1) == [1]
    ensures PlannedRound([0, 1], 1, Random, {0}, At(10), 1) == [0]
    ensures PlannedRound([0, 1], 1, Random, {}, At(0), 0) == [1]
  {
    hide Draw, Unassigned;
    PairDraws();
    PairPool();
    assert AssignedBefore([0, 1], 1, Random, {}, At(10), 1) == {} + Elements([0]) == {0};
    assert PlannedRound([0, 1], 1, Random, {0}, At(10), 0) == [1];
    assert AssignedBefore([0, 1], 1, Random, {0}, At(10), 1) == {0} + Elements([1]) == {0, 1};
  }

  lemma QueuePairPicks()
    ensures PlannedRound([0, 1], 1, Queue, {}, At(10), 0) == [0] && PlannedRound([0, 1], 1, Queue, {}, At(10), 1) == [1]
  {
    assert QueuePicks([0, 1], 0, 1) == [0];
    assert QueuePicks([0, 1], 1, 1) == [1];
  }

  // ---- single calls ----

  function PairPlan(how: PayoutMethod): seq<GeneratedRound> {
    if how == Manual then [GeneratedRound(1, 0, []), GeneratedRound(2, 7 * MS_PER_DAY, [])]
    else [GeneratedRound(1, 0, [0]), GeneratedRound(2, 7 * MS_PER_DAY, [1])]
  }

  function PlannedRows(how: PayoutMethod): map<PayoutKey, Payout> {
    if how == Manual then map[] else Unpaid(0, 1)
  }

  lemma PairIsPlanned(how: PayoutMethod)
    requires how == Queue || how == Random || how == Manual
    ensures NewPlan(PairClub(how), 0, 0, At(10)) == PairPlan(how)
  {
    hide Roster, Ordered, Ids, RoundsCount, QueuePicks, RandomSource, Draw;
    PairRoster(PairClub(how));
    PairOrder();
    OneRound();
    PairPicks();
    QueuePairPicks();
  }

  lemma PairOpens(how: PayoutMethod)
    requires how == Queue || how == Random || how == Manual
    ensures Step(PairClub(how), OpenNext(0, Owner, 0, At(10))) == OpenPair(how, PlannedRows(how))
  {
    hide Roster, NewPlan, PairPlan, RoundsCount, Apply;
    PairRoster(PairClub(how));
    PairIsPlanned(how);
    ApplyOne(PairClub(how), InsertCycle(0, 1, PairPlan(how)));
    PairInserts(how);
  }

  lemma PairInserts(how: PayoutMethod)
    ensures Apply(PairClub(how), InsertCycle(0, 1, PairPlan(how))) == OpenPair(how, PlannedRows(how))
  {
    hide PlanKeys;
    PairPlanKeys(how);
    assert PlanRounds(0, PairPlan(how)) == OpenPair(how, map[]).rounds;
    assert UnpaidRows(PlanKeys(0, PairPlan(how))) == PlannedRows(how);
  }

  lemma PairPlanKeys(how: PayoutMethod)
    ensures PlanKeys(0, PairPlan(how)) == if how == Manual then {} else {PayoutKey(0, 0), PayoutKey(1, 1)}
  {
    forall p ensures p in PlanKeys(0, PairPlan(how)) <==> (how != Manual && p in {PayoutKey(0, 0), PayoutKey(1, 1)}) {
      PlanKeyPlace(0, PairPlan(how), p);
    }
  }

  /** The payout rows with one new, unpaid recipient of the round. */
  function Replaced(payouts: map<PayoutKey, Payout>, r: int, m: int): map<PayoutKey, Payout> {
    (map p | p in payouts && p.round != r :: payouts[p])[PayoutKey(r, m) := Payout(0, None)]
  }

  lemma PairReplaces(w: World, r: int, m: int)
    ensures Apply(w, ReplaceRecipients(r, [m])) == w.(payouts := Replaced(w.payouts, r, m))
  {
    assert RecipientKeys(r, [m]) == {PayoutKey(r, m)};
  }

  lemma PairReplan(w: World, r: int, clock: nat -> nat)
    requires w.members == PairClub(Random).members && w.groups == PairClub(Random).groups
    requires HasRound(w, r) && r < 2
    ensures var plan := RerollPlan(w, 0, 0, r, 0, clock);
      |plan| == 2 && plan[r].recipients == PlannedRound([0, 1], 1, Random, EarlierAssigned(w, 0, r), clock, r)
  {
    hide Roster, PlannedRound, Ordered, Ids, RoundsCount, EarlierAssigned;
    PairRoster(w);
    PairOrder();
    OneRound();
  }

  lemma PairRerolls(status: CycleStatus, a: RoundStatus, payouts: map<PayoutKey, Payout>, r: int, clock: nat -> nat,
                    m: int)
    requires var w := PairCycle(Random, status, a, RoundPending, payouts);
      && 0 <= r < 2 && !AnyDistributed(w, r)
      && PlannedRound([0, 1], 1, Random, EarlierAssigned(w, 0, r), clock, r) == [m]
    ensures var w, reroll := PairCycle(Random, status, a, RoundPending, payouts), Reroll(0, 0, r, Owner, 0, clock);
      && CallOf(w, reroll).Accepted?
      && Step(w, reroll) == PairCycle(Random, status, a, RoundPending, Replaced(payouts, r, m))
  {
    hide Apply, EarlierAssigned, AnyDistributed, RerollPlan, PlannedRound;
    var w := PairCycle(Random, status, a, RoundPending, payouts);
    PairReplan(w, r, clock);
    assert CallOf(w, Reroll(0, 0, r, Owner, 0, clock)) == Accepted([ReplaceRecipients(r, [m])]);
    ApplyOne(w, ReplaceRecipients(r, [m]));
    PairReplaces(w, r, m);
  }

  /** Assigning the first round. */
  lemma PairAssigns(status: CycleStatus, payouts: map<PayoutKey, Payout>, m: int)
    requires 0 <= m < 2 && !AnyDistributed(PairCycle(Manual, status, RoundPending, RoundPending, payouts), 0)
    ensures var w := PairCycle(Manual, status, RoundPending, RoundPending, payouts);
      && CallOf(w, Assign(0, 0, 0, [m], Owner)).Accepted?
      && Step(w, Assign(0, 0, 0, [m], Owner))
         == PairCycle(Manual, status, RoundPending, RoundPending, Replaced(payouts, 0, m))
  {
    hide Apply, AnyDistributed;
    var w := PairCycle(Manual, status, RoundPending, RoundPending, payouts);
    assert Elements([m]) == {m};
    assert EarlierPaid(w, 0, 0) == {};
    assert IsActiveMember(w, 0, m);
    assert CallOf(w, Assign(0, 0, 0, [m], Owner)) == Accepted([ReplaceRecipients(0, [m])]);
    ApplyOne(w, ReplaceRecipients(0, [m]));
    PairReplaces(w, 0, m);
  }

  lemma PairCompletes(how: PayoutMethod, a: RoundStatus, payouts: map<PayoutKey, Payout>, clock: nat -> nat)
    ensures Step(PairCycle(how, Open, a, RoundPending, payouts), Complete(0, 0, Owner, 0, clock))
            == PairCycle(how, CycleCompleted, a, RoundPending, payouts)
  {
    var w := PairCycle(how, Open, a, RoundPending, payouts);
    assert CallOf(w, Complete(0, 0, Owner, 0, clock)) == Accepted([SetCycleStatus(0, CycleCompleted)]);
    ApplyOne(w, SetCycleStatus(0, CycleCompleted));
  }

  function Switch(how: PayoutMethod): Event {
    Configure(0, SettingsPatch(None, None, None, None, None, Some(how), None))
  }

  lemma PairSwitches(how: PayoutMethod, to: PayoutMethod, a: RoundStatus, payouts: map<PayoutKey, Payout>)
    ensures Step(PairCycle(how, CycleCompleted, a, RoundPending, payouts), Switch(to))
            == PairCycle(to, CycleCompleted, a, RoundPending, payouts)
  {
    var w := PairCycle(how, CycleCompleted, a, RoundPending, payouts);
    assert !HasActiveCycle(w, 0);
    ApplyOne(w, UpdateSettings(0, Settings(2, 100, Weekly, 0, 1, to, false)));
  }

  // ---- re-rolls ----

  lemma PairIsFresh(how: PayoutMethod)
    ensures Fresh(PairClub(how))
  {
  }

  lemma PairRecipients(w: World, first: int, second: int)
    requires w.payouts == Unpaid(first, second)
    ensures Recipients(w, 0) == {first} && Recipients(w, 1) == {second}
  {
    forall r, m | 0 <= r < 2 ensures m in Recipients(w, r) <==> m == if r == 0 then first else second {
      RecipientsMatch(w, r);
    }
  }

  lemma UnpaidIsUndistributed(w: World, first: int, second: int, r: int)
    requires w.payouts == Unpaid(first, second)
    ensures !AnyDistributed(w, r)
  {
  }

  lemma PairEarlier(w: World)
    requires w.cycles != [] && w.rounds == OpenPair(Random, map[]).rounds && w.payouts == Unpaid(0, 1)
    ensures EarlierAssigned(w, 0, 0) == {} && EarlierAssigned(w, 0, 1) == {0}
  {
    assert InEarlierRound(w, 0, 1, PayoutKey(0, 0));
  }

  lemma PairReplacements()
    ensures Replaced(Unpaid(0, 1), 0, 1) == Unpaid(1, 1) && Replaced(Unpaid(0, 1), 1, 0) == Unpaid(0, 0)
  {
  }

  lemma RerollingPair(r: int, clock: nat -> nat, m: int)
    requires 0 <= r < 2
    requires PlannedRound([0, 1], 1, Random, if r == 0 then {} else {0}, clock, r) == [m]
    ensures Step(Step(PairClub(Random), OpenNext(0, Owner, 0, At(10))), Reroll(0, 0, r, Owner, 0, clock))
            == OpenPair(Random, Replaced(Unpaid(0, 1), r, m))
  {
    hide Step, PlannedRound, AnyDistributed, EarlierAssigned, Replaced, CallOf;
    PairOpens(Random);
    PairEarlier(OpenPair(Random, Unpaid(0, 1)));
    UnpaidIsUndistributed(OpenPair(Random, Unpaid(0, 1)), 0, 1, r);
    PairRerolls(Open, RoundPending, Unpaid(0, 1), r, clock, m);
  }

  /** Below the bound, n = 2 < (2 * 2 - 1) * 1, a re-roll picks an earlier recipient again: two accepted calls leave
      member 0 as the recipient of both rounds, and member 1 of none. */
  lemma RerollPaysTwice()
    ensures var w, evs := PairClub(Random), [OpenNext(0, Owner, 0, At(10)), Reroll(0, 0, 1, Owner, 0, At(10))];
      Fresh(w) && Recipients(Run(w, evs), 0) == {0} && Recipients(Run(w, evs), 1) == {0}
  {
    hide Step, Run, PlannedRound, Replaced, Recipients, Unpaid, Fresh;
    PairIsFresh(Random);
    PairPicks();
    RerollingPair(1, At(10), 0);
    PairReplacements();
    RunOfTwo(PairClub(Random), OpenNext(0, Owner, 0, At(10)), Reroll(0, 0, 1, Owner, 0, At(10)));
    PairRecipients(OpenPair(Random, Unpaid(0, 0)), 0, 0);
  }

  /** Above the bound, n = 2 >= (2 * 1 - 1) * 1, it picks the recipient of a later round: two accepted calls leave
      member 1 as the recipient of both rounds, and member 0 of none. */
  lemma FirstRerollPaysTwice()
    ensures var w, evs := PairClub(Random), [OpenNext(0, Owner, 0, At(10)), Reroll(0, 0, 0, Owner, 0, At(0))];
      Fresh(w) && Recipients(Run(w, evs), 0) == {1} && Recipients(Run(w, evs), 1) == {1}
  {
    hide Step, Run, PlannedRound, Replaced, Recipients, Unpaid, Fresh;
    PairIsFresh(Random);
    PairPicks();
    RerollingPair(0, At(0), 1);
    PairReplacements();
    RunOfTwo(PairClub(Random), OpenNext(0, Owner, 0, At(10)), Reroll(0, 0, 0, Owner, 0, At(0)));
    PairRecipients(OpenPair(Random, Unpaid(1, 1)), 1, 1);
  }

  // ---- recipients set after the cycle's completion ----

  lemma {:induction false} RunConcat(w: World, xs: seq<Event>, ys: seq<Event>)
    ensures Run(w, xs + ys) == Run(Run(w, xs), ys)
  {
    hide Step;
    if ys == [] {
      assert xs + ys == xs;
    } else {
      RunConcat(w, xs, ys[..|ys| - 1]);
      assert (xs + ys)[..|xs + ys| - 1] == xs + ys[..|ys| - 1];
    }
  }

  lemma RunOfFour(w: World, a: Event, b: Event, c: Event, d: Event)
    ensures Run(w, [a, b, c, d]) == Step(Step(Step(Step(w, a), b), c), d)
  {
    hide Step, Run;
    RunConcat(w, [a, b], [c, d]);
    assert [a, b] + [c, d] == [a, b, c, d];
    RunOfTwo(w, a, b);
    RunOfTwo(Run(w, [a, b]), c, d);
  }

  /** A queue cycle keeps its recipients only while it is active. Four accepted calls, no re-roll among them: the
      owner completes it, switches the method and assigns a round anew. Member 1 has both rounds. */
  lemma CompletedQueueReassigned()
    ensures var w := PairClub(Queue);
      var evs := [OpenNext(0, Owner, 0, At(10)), Complete(0, 0, Owner, 0, At(10)), Switch(Manual),
                  Assign(0, 0, 0, [1], Owner)];
      && Fresh(w) && Recipients(Run(w, evs[..1]), 0) == {0}
      && Recipients(Run(w, evs), 0) == {1} && Recipients(Run(w, evs), 1) == {1}
  {
    hide Step, Run, CallOf, Replaced, Recipients, Unpaid, Fresh, AnyDistributed;
    var w, open := PairClub(Queue), OpenNext(0, Owner, 0, At(10));
    var complete, assign := Complete(0, 0, Owner, 0, At(10)), Assign(0, 0, 0, [1], Owner);
    PairIsFresh(Queue);
    PairOpens(Queue);
    PairCompletes(Queue, RoundPending, Unpaid(0, 1), At(10));
    PairSwitches(Queue, Manual, RoundPending, Unpaid(0, 1));
    UnpaidIsUndistributed(PairCycle(Manual, CycleCompleted, RoundPending, RoundPending, Unpaid(0, 1)), 0, 1, 0);
    PairAssigns(CycleCompleted, Unpaid(0, 1), 1);
    PairReplacements();
    RunOfFour(w, open, complete, Switch(Manual), assign);
    RunOfOne(w, open);
    assert [open, complete, Switch(Manual), assign][..1] == [open];
    PairRecipients(Step(w, open), 0, 1);
    PairRecipients(Run(w, [open, complete, Switch(Manual), assign]), 1, 1);
  }

  function PayPair(r: int): Event {
    PayOut(0, 0, r, Owner, NoReceipt, _ => 0, 0, At(10))
  }

  const PAID_ROW := Payout(100, Some(0))
  const FIRST := PayoutKey(0, 0)
  const SECOND := PayoutKey(1, 0)
  const HALF_PAID := map[FIRST := PAID_ROW, SECOND := Payout(0, None)]

  /** Member 0 is paid for the first round of the open cycle. */
  lemma PaysFirst()
    ensures Step(OpenPair(Manual, map[FIRST := Payout(0, None)]), PayPair(0))
            == PairCycle(Manual, Open, RoundCompleted, RoundPending, map[FIRST := PAID_ROW])
  {
    var w := OpenPair(Manual, map[FIRST := Payout(0, None)]);
    assert PayoutsOf(w, 0) == {FIRST};
    var x := PayWrite(w, 0, 0, _ => 0);
    assert Apply(w, x) == OpenPair(Manual, map[FIRST := PAID_ROW]);
    PaySteps(w, 0, x);
  }

  /** And for the second one, after the cycle's completion. */
  lemma PaysSecond()
    ensures Step(PairCycle(Random, CycleCompleted, RoundCompleted, RoundPending, HALF_PAID), PayPair(1))
            == PairCycle(Random, CycleCompleted, RoundCompleted, RoundCompleted,
                         map[FIRST := PAID_ROW, SECOND := PAID_ROW])
  {
    var w := PairCycle(Random, CycleCompleted, RoundCompleted, RoundPending, HALF_PAID);
    assert PayoutsOf(w, 1) == {SECOND};
    var x := PayWrite(w, 0, 1, _ => 0);
    assert Apply(w, x) == w.(payouts := map[FIRST := PAID_ROW, SECOND := PAID_ROW]);
    PaySteps(w, 1, x);
  }

  /** Paying a round of a cycle not in progress completes the round and nothing more. */
  lemma PaySteps(w: World, r: int, x: Write)
    requires HasGroup(w, 0) && LoadRound(w, 0, 0, r) && w.cycles[0].status != InProgress
    requires w.groups[0].settings.recipients > 0 && PayoutsOf(w, r) != {} && !AnyDistributed(w, r)
    requires x == PayWrite(w, 0, r, _ => 0)
    ensures Step(w, PayPair(r)) == Apply(Apply(w, x), SetRoundStatus(r, RoundCompleted))
  {
    var w1, complete := Apply(w, x), SetRoundStatus(r, RoundCompleted);
    assert CompleteRoundWrites(w1, r, 0, At(10)) == [complete];
    assert CallOf(w, PayPair(r)) == Accepted([x] + [complete]);
    ApplyOne(w, x);
    ApplyOne(w1, complete);
    ApplyAllConcat(w, [x], [complete]);
  }

  lemma PairEarlierPaid()
    ensures var w := PairCycle(Random, CycleCompleted, RoundCompleted, RoundPending, map[FIRST := PAID_ROW]);
      EarlierAssigned(w, 0, 1) == {0} && !AnyDistributed(w, 1)
  {
    var w := PairCycle(Random, CycleCompleted, RoundCompleted, RoundPending, map[FIRST := PAID_ROW]);
    assert InEarlierRound(w, 0, 1, FIRST);
  }

  lemma SecondReplaced()
    ensures Replaced(map[], 0, 0) == map[FIRST := Payout(0, None)]
    ensures Replaced(map[FIRST := PAID_ROW], 1, 0) == HALF_PAID
  {
  }

  /** The first half: the manual club opens a cycle, assigns its first round to member 0, and pays it. */
  lemma ManualPairStarts()
    ensures Run(PairClub(Manual), [OpenNext(0, Owner, 0, At(10)), Assign(0, 0, 0, [0], Owner), PayPair(0)])
            == PairCycle(Manual, Open, RoundCompleted, RoundPending, map[FIRST := PAID_ROW])
  {
    hide Step, Run, CallOf, Replaced, AnyDistributed;
    PairOpens(Manual);
    assert !AnyDistributed(OpenPair(Manual, map[]), 0) by { NoPayouts(OpenPair(Manual, map[]), 0); }
    PairAssigns(Open, map[], 0);
    SecondReplaced();
    PaysFirst();
    RunOfThree(PairClub(Manual), OpenNext(0, Owner, 0, At(10)), Assign(0, 0, 0, [0], Owner), PayPair(0));
  }

  lemma NoPayouts(w: World, r: int)
    requires w.payouts == map[]
    ensures !AnyDistributed(w, r)
  {
  }

  /** A manual cycle pays nobody twice only while it is active. Each round is assigned when the earlier one is paid,
      and yet member 0 is paid for both: the second round gets its recipient by a re-roll after the completion. */
  lemma CompletedManualRerolled()
    ensures var w := PairClub(Manual);
      var evs := [OpenNext(0, Owner, 0, At(10)), Assign(0, 0, 0, [0], Owner), PayPair(0)]
                 + [Complete(0, 0, Owner, 0, At(10)), Switch(Random), Reroll(0, 0, 1, Owner, 0, At(10)), PayPair(1)];
      && Fresh(w) && w.groups[0].settings.payoutMethod == Manual
      && Distributed(Run(w, evs), PayoutKey(0, 0)) && Distributed(Run(w, evs), PayoutKey(1, 0))
  {
    hide Step, Run, CallOf, Replaced, AnyDistributed, EarlierAssigned, PlannedRound, Fresh;
    var first := [OpenNext(0, Owner, 0, At(10)), Assign(0, 0, 0, [0], Owner), PayPair(0)];
    var complete, reroll := Complete(0, 0, Owner, 0, At(10)), Reroll(0, 0, 1, Owner, 0, At(10));
    PairIsFresh(Manual);
    ManualPairStarts();
    PairCompletes(Manual, RoundCompleted, map[FIRST := PAID_ROW], At(10));
    PairSwitches(Manual, Random, RoundCompleted, map[FIRST := PAID_ROW]);
    PairEarlierPaid();
    PairPicks();
    PairRerolls(CycleCompleted, RoundCompleted, map[FIRST := PAID_ROW], 1, At(10), 0);
    SecondReplaced();
    PaysSecond();
    RunConcat(PairClub(Manual), first, [complete, Switch(Random), reroll, PayPair(1)]);
    RunOfFour(Run(PairClub(Manual), first), complete, Switch(Random), reroll, PayPair(1));
  }
}
