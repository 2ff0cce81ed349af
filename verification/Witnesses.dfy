/** Concrete runs of the backend: where a property fails, a run in which it does, and where a theorem has
    premises, a run that meets them. */
module Witnesses {
  import opened Common
  import opened Scheduler
  import opened Tables
  import opened Cycles
  import opened Contributions
  import opened Payouts
  import opened Backend
  import opened LedgerLaw
  import opened History
  import opened Completion
  import opened Stranding
  import opened Rotation
  import opened Fulfilment
  import Reports

  // ---- the smallest club ----

  /** A group of one, paying 100 a week to one recipient per round. */
  function SmallClub(how: PayoutMethod): World {
    World([Group(ActiveGroup, Settings(2, 100, Weekly, 0, 1, how, false))],
          [GroupMember(0, 0, Owner, ActiveMember, Some(1))], [], [], map[], map[])
  }

  /** The club with its first cycle open. */
  function OpenClub(how: PayoutMethod, round: Round, rows: map<Key, Contribution>,
                    payouts: map<PayoutKey, Payout>): World {
    SmallClub(how).(cycles := [Cycle(0, 1, Open)], rounds := [round], contributions := rows, payouts := payouts)
  }

  const THE_ROW := Key(0, 0, 0)
  const THE_PAYOUT := PayoutKey(0, 0)
  const UNPAID := map[THE_PAYOUT := Payout(0, None)]

  function TheRound(status: RoundStatus, total: int): Round {
    Round(0, 1, 0, status, total)
  }

  lemma ClubRoster(how: PayoutMethod)
    ensures Roster(SmallClub(how), 0) == [RosterEntry(0, Some(1))] && Ids(Ordered(Roster(SmallClub(how), 0))) == [0]
  {
    var w, e := SmallClub(how), RosterEntry(0, Some(1));
    assert RosterUpTo(w.members, 0, 1) == RosterUpTo(w.members, 0, 0) + [e];
    assert [e][..0] == [];
    assert Ordered([e]) == [e];
    assert Ids([e]) == [0];
  }

  lemma OneRound()
    ensures RoundsCount(1, 1) == 1 && RoundsCount(2, 1) == 2
  {
  }

  lemma ClubPicks(how: PayoutMethod, clock: nat -> nat)
    requires how == Queue || how == Manual
    ensures PlannedRound([0], 1, how, {}, clock, 0) == if how == Queue then [0] else []
  {
    assert QueuePicks([0], 0, 1) == [0];
  }

  lemma ClubPlan(how: PayoutMethod, clock: nat -> nat)
    requires how == Queue || how == Manual
    ensures NewPlan(SmallClub(how), 0, 0, clock) == [GeneratedRound(1, 0, if how == Queue then [0] else [])]
  {
    hide PlannedRound, Roster, Ordered, Ids, RoundsCount;
    ClubRoster(how);
    OneRound();
    ClubPicks(how, clock);
  }

  lemma ClubOpens(how: PayoutMethod, clock: nat -> nat)
    requires how == Queue || how == Manual
    ensures OpenInternalCall(SmallClub(how), 0, 0, clock).Accepted?
    ensures Outcome(SmallClub(how), OpenInternalCall(SmallClub(how), 0, 0, clock))
      == Step(SmallClub(how), OpenNext(0, Owner, 0, clock))
    ensures Step(SmallClub(how), OpenNext(0, Owner, 0, clock))
            == OpenClub(how, TheRound(RoundPending, 0), map[], if how == Queue then UNPAID else map[])
  {
    hide NewPlan, Roster;
    ClubRoster(how);
    ClubPlan(how, clock);
    var plan := [GeneratedRound(1, 0, if how == Queue then [0] else [])];
    ApplyOne(SmallClub(how), InsertCycle(0, 1, plan));
    ClubInserts(how, plan);
    hide Apply;
  }

  lemma ClubInserts(how: PayoutMethod, plan: seq<GeneratedRound>)
    requires plan == [GeneratedRound(1, 0, if how == Queue then [0] else [])]
    ensures Apply(SmallClub(how), InsertCycle(0, 1, plan))
            == OpenClub(how, TheRound(RoundPending, 0), map[], if how == Queue then UNPAID else map[])
  {
    assert PlanKeys(0, plan) == if how == Queue then {THE_PAYOUT} else {} by {
      if how == Queue { assert 0 in plan[0].recipients; }
    }
  }

  function PayTheRound(clock: nat -> nat): Event {
    PayOut(0, 0, 0, Owner, NoReceipt, _ => 0, 0, clock)
  }

  lemma ClubPays(how: PayoutMethod, clock: nat -> nat)
    ensures Step(OpenClub(how, TheRound(RoundPending, 0), map[], UNPAID), PayTheRound(clock))
            == OpenClub(how, TheRound(RoundCompleted, 0), map[], map[THE_PAYOUT := Payout(100, Some(0))])
  {
    hide AutoOpenWrites;
    var w, complete := OpenClub(how, TheRound(RoundPending, 0), map[], UNPAID), SetRoundStatus(0, RoundCompleted);
    assert THE_PAYOUT in PayoutsOf(w, 0) && !AnyDistributed(w, 0);
    var x := PayWrite(w, 0, 0, _ => 0);
    var w1 := Apply(w, x);
    ApplyOne(w, x);
    ApplyAllConcat(w, [x], CompleteRoundWrites(w1, 0, 0, clock));
    assert CompleteRoundWrites(w1, 0, 0, clock) == [complete];
    ApplyOne(w1, complete);
  }

  lemma RunOfOne(w: World, ev: Event)
    ensures Run(w, [ev]) == Step(w, ev)
  {
    hide Step;
    assert [ev][..0] == [] && Run(w, []) == w;
  }

  lemma RunOfTwo(w: World, a: Event, b: Event)
    ensures Run(w, [a, b]) == Step(Step(w, a), b)
  {
    hide Step;
    RunOfOne(w, a);
    assert [a, b][..1] == [a];
  }

  lemma RunOfThree(w: World, a: Event, b: Event, c: Event)
    ensures Run(w, [a, b, c]) == Step(Step(Step(w, a), b), c)
  {
    hide Step;
    RunOfTwo(w, a, b);
    assert [a, b, c][..2] == [a, b];
    assert Run(w, [a, b, c]) == Step(Run(w, [a, b]), c);
  }

  // ---- a stranded cycle ----

  /** A payout recorded before the start: the cycle starts with nothing left to complete. */
  lemma EarlyMoneyStrandsCycle(clock: nat -> nat)
    ensures var w, evs := SmallClub(Queue), [OpenNext(0, Owner, 0, clock), PayTheRound(clock), Start(0, 0, Owner)];
      Fresh(w) && !SoundStarts(w, evs) && !Unfinished(Run(w, evs)) && Stranded(Run(w, evs), 0)
  {
    hide Step, SoundStarts, Unfinished, Run, Stranded, SoundStart, Fresh, Valid, OpenInternalCall, Outcome;
    var w, open, pay, start := SmallClub(Queue), OpenNext(0, Owner, 0, clock), PayTheRound(clock), Start(0, 0, Owner);
    ClubIsValid(Queue);
    ClubOpens(Queue, clock);
    ClubPays(Queue, clock);
    PaidClubStarts();
    UnsoundRun(w, open, pay, start);
  }

  lemma UnsoundRun(w: World, open: Event, pay: Event, start: Event)
    requires !SoundStart(Step(Step(w, open), pay), start)
    ensures var evs := [open, pay, start];
      !SoundStarts(w, evs) && !Unfinished(Run(w, evs)) && Run(w, evs) == Step(Step(Step(w, open), pay), start)
  {
    hide Step, Run, SoundStarts, SoundStart, Unfinished;
    RunOfTwo(w, open, pay);
    RunOfThree(w, open, pay, start);
    UnsoundStartFinishes(Step(Step(w, open), pay), start);
    assert [open, pay, start][..2] == [open, pay];
    LastStartIsUnsound(w, [open, pay, start]);
  }

  lemma LastStartIsUnsound(w: World, evs: seq<Event>)
    requires evs != [] && !SoundStart(Run(w, evs[..|evs| - 1]), evs[|evs| - 1])
    ensures !SoundStarts(w, evs)
  {
    hide Run, SoundStart;
  }

  lemma PaidClubStarts()
    ensures var w := OpenClub(Queue, TheRound(RoundCompleted, 0), map[], map[THE_PAYOUT := Payout(100, Some(0))]);
      !SoundStart(w, Start(0, 0, Owner)) && Stranded(Step(w, Start(0, 0, Owner)), 0)
  {
    var w := OpenClub(Queue, TheRound(RoundCompleted, 0), map[], map[THE_PAYOUT := Payout(100, Some(0))]);
    assert w.rounds[0].cycleId == 0;
    StartFacts(w, Start(0, 0, Owner));
    var w' := Apply(w, SetCycleStatus(0, InProgress));
    assert w'.rounds[0].cycleId == 0;
  }

  // ---- everybody paid once ----

  lemma ClubIsPaidOnce(w: World)
    requires w.rounds == [TheRound(RoundCompleted, 0)] && w.payouts == map[THE_PAYOUT := Payout(100, Some(0))]
    ensures Settled(w, 0) && PaidExactlyOnce(w, 0, 0)
  {
    assert PayoutsOf(w, 0) == {THE_PAYOUT};
    assert PaidAt(w, 0, 0, 0);
  }

  lemma ClubIsValid(how: PayoutMethod)
    ensures Fresh(SmallClub(how)) && Valid(SmallClub(how))
  {
    FreshIsValid(SmallClub(how));
  }

  lemma QueueClubCourse(clock: nat -> nat)
    ensures NextCourse(SmallClub(Queue), 0, clock).base == 0 && |NextCourse(SmallClub(Queue), 0, clock).plan| == 1
  {
    hide Plan, NewPlan, Roster;
    ClubPlan(Queue, clock);
    PlanMatches(SmallClub(Queue), 0, 0, clock);
  }

  lemma PayingLeavesAlone(w: World, clock: nat -> nat, t: Course)
    ensures LeftAloneRun(w, [PayTheRound(clock)], t)
  {
    var evs := [PayTheRound(clock)];
    hide Run, CallOf;
    assert evs[..0] == [] && LeftAloneRun(w, [], t);
    assert LeftAlone(Run(w, []), evs[0], t);
  }

  /** The premises of EverybodyPaidOnceIff can be met: the queue club opens a cycle and pays its one round. */
  lemma QueueClubPaysOnce(clock: nat -> nat)
    ensures var w, evs := SmallClub(Queue), [PayTheRound(clock)];
      var w1, t := Outcome(w, OpenInternalCall(w, 0, 0, clock)), NextCourse(w, 0, clock);
      && Valid(w) && OpenInternalCall(w, 0, 0, clock).Accepted? && PreAssigned(w.groups[0].settings)
        && LeftAloneRun(w1, evs, t)
      && (forall q :: t.base <= q < t.base + |t.plan| ==> Settled(Run(w1, evs), q))
      && PaidExactlyOnce(Run(w1, evs), 0, 0)
  {
    hide Step, NextCourse, Valid, Settled, PaidExactlyOnce, OpenInternalCall, CallOf, Run, LeftAloneRun;
    var w, pay := SmallClub(Queue), PayTheRound(clock);
    ClubIsValid(Queue);
    QueueClubCourse(clock);
    ClubOpens(Queue, clock);
    ClubPays(Queue, clock);
    var w1 := Step(w, OpenNext(0, Owner, 0, clock));
    RunOfOne(w1, pay);
    PayingLeavesAlone(w1, clock, NextCourse(w, 0, clock));
    ClubIsPaidOnce(Step(w1, pay));
  }

  lemma ManualClubLap()
    ensures var w, t := SmallClub(Manual), NextLap(SmallClub(Manual), 0);
      t == Lap(0, 0, 1, 1, {0}) && AllPositioned(w, 0) && ActiveMembers(w, 0) == {0}
  {
    hide Roster, Ordered, Ids, RoundsCount;
    ClubRoster(Manual);
    OneRound();
    assert |Ids(Ordered(Roster(SmallClub(Manual), 0)))| == 1;
    assert ActiveMembers(SmallClub(Manual), 0) == {0};
  }

  lemma ManualClubAssigns()
    ensures var w, assign := OpenClub(Manual, TheRound(RoundPending, 0), map[], map[]), Assign(0, 0, 0, [0], Owner);
      CallOf(w, assign).Accepted? && Step(w, assign) == OpenClub(Manual, TheRound(RoundPending, 0), map[], UNPAID)
  {
    var w, assign := OpenClub(Manual, TheRound(RoundPending, 0), map[], map[]), Assign(0, 0, 0, [0], Owner);
    hide Apply;
    assert Elements([0]) == {0};
    assert EarlierPaid(w, 0, 0) == {} && PayoutsOf(w, 0) == {};
    assert IsActiveMember(w, 0, 0);
    assert CallOf(w, assign) == Accepted([ReplaceRecipients(0, [0])]);
    ApplyOne(w, ReplaceRecipients(0, [0]));
    ManualClubReplaces();
  }

  lemma ManualClubReplaces()
    ensures Apply(OpenClub(Manual, TheRound(RoundPending, 0), map[], map[]), ReplaceRecipients(0, [0]))
            == OpenClub(Manual, TheRound(RoundPending, 0), map[], UNPAID)
  {
    assert RecipientKeys(0, [0]) == {THE_PAYOUT};
  }

  /** The premises of ManualCyclePaysEverybodyOnce can be met: the manual club opens a cycle, assigns its one
      round and pays it. */
  lemma ManualClubPaysOnce(clock: nat -> nat)
    ensures var w, evs := SmallClub(Manual), [Assign(0, 0, 0, [0], Owner), PayTheRound(clock)];
      var w1, t := Outcome(w, OpenInternalCall(w, 0, 0, clock)), NextLap(w, 0);
      && Valid(w) && OpenInternalCall(w, 0, 0, clock).Accepted? && AllPositioned(w, 0) && OrderlyRun(w1, evs, t)
      && (forall q :: t.base <= q < t.base + t.count ==> Settled(Run(w1, evs), q))
      && PaidExactlyOnce(Run(w1, evs), 0, 0)
  {
    hide Step, NextLap, Valid, Settled, PaidExactlyOnce, OpenInternalCall, CallOf, Run, OrderlyRun, AllPositioned;
    var w, assign, pay := SmallClub(Manual), Assign(0, 0, 0, [0], Owner), PayTheRound(clock);
    ClubIsValid(Manual);
    ManualClubLap();
    ClubOpens(Manual, clock);
    ManualClubAssigns();
    ClubPays(Manual, clock);
    var w1 := OpenClub(Manual, TheRound(RoundPending, 0), map[], map[]);
    RunOfTwo(w1, assign, pay);
    AssigningIsOrderly(w1, pay);
    ClubIsPaidOnce(Step(Step(w1, assign), pay));
  }

  lemma AssigningIsOrderly(w: World, pay: Event)
    requires w == OpenClub(Manual, TheRound(RoundPending, 0), map[], map[]) && pay.PayOut?
    ensures OrderlyRun(w, [Assign(0, 0, 0, [0], Owner), pay], Lap(0, 0, 1, 1, {0}))
  {
    hide CallOf, Settled, Step;
    var assign, t := Assign(0, 0, 0, [0], Owner), Lap(0, 0, 1, 1, {0});
    assert [assign, pay][..1] == [assign] && [assign][..0] == [];
    assert ActiveMembers(w, 0) == {0};
    assert OrderlyRun(w, [], t) && Run(w, []) == w;
    assert Orderly(w, assign, t);
    assert OrderlyRun(w, [assign], t);
    assert Orderly(Run(w, [assign]), pay, t);
  }

  // ---- stored totals that are not the sum of the rows ----

  function Row(status: ContributionStatus, date: Option<int>): Contribution {
    Contribution(0, 100, 0, date, status, None)
  }

  /** Once the only row is collected the round starts collecting, and nothing further happens. */
  lemma ClubAdvances(total: int, row: Contribution, now: int, clock: nat -> nat)
    requires row.status != Pending
    ensures var w := OpenClub(Queue, TheRound(RoundPending, total), map[THE_ROW := row], UNPAID);
      AdvanceWrites(w, 0, now, clock) == [SetRoundStatus(0, Collecting)]
    ensures var w := OpenClub(Queue, TheRound(Collecting, total), map[THE_ROW := row], UNPAID);
      AdvanceWrites(w, 0, now, clock) == []
  {
    var w := OpenClub(Queue, TheRound(RoundPending, total), map[THE_ROW := row], UNPAID);
    var w' := OpenClub(Queue, TheRound(Collecting, total), map[THE_ROW := row], UNPAID);
    assert THE_PAYOUT in PayoutsOf(w, 0) && THE_PAYOUT in PayoutsOf(w', 0);
    assert !AllDistributed(w', 0);
    assert AllCollected(w, 0);
    assert Apply(w, SetRoundStatus(0, Collecting)) == w';
  }

  function Rows(waived: bool): map<Key, Contribution> {
    if waived then map[THE_ROW := Row(Waived, None)] else map[]
  }

  lemma ClubRecords(waived: bool, clock: nat -> nat)
    ensures Step(OpenClub(Queue, TheRound(RoundPending, 0), Rows(waived), UNPAID),
                 Record(0, 0, 0, 0, Owner, MS_PER_DAY, clock))
            == OpenClub(Queue, TheRound(Collecting, if waived then 0 else 100),
                        map[THE_ROW := Row(Late, Some(MS_PER_DAY))], UNPAID)
  {
    hide AdvanceWrites;
    var row, total := Row(Late, Some(MS_PER_DAY)), if waived then 0 else 100;
    var w := OpenClub(Queue, TheRound(RoundPending, 0), Rows(waived), UNPAID);
    var x := RecordWrite(w, 0, 0, 0, 0, MS_PER_DAY);
    assert DateOf(MS_PER_DAY) == MS_PER_DAY;
    assert Apply(w, x) == OpenClub(Queue, TheRound(RoundPending, total), map[THE_ROW := row], UNPAID);
    ClubAdvances(total, row, MS_PER_DAY, clock);
    ApplyOne(w, x);
    ApplyOne(Apply(w, x), SetRoundStatus(0, Collecting));
    ApplyAllConcat(w, [x], [SetRoundStatus(0, Collecting)]);
  }

  lemma ClubApproves(clock: nat -> nat)
    ensures var w := OpenClub(Queue, TheRound(Collecting, 100), map[THE_ROW := Row(Late, Some(MS_PER_DAY))], UNPAID);
      Step(w, Approve(0, 0, 0, 0, Owner, MS_PER_DAY, clock))
      == OpenClub(Queue, TheRound(Collecting, 200), map[THE_ROW := Row(Late, Some(MS_PER_DAY))], UNPAID)
  {
    hide AdvanceWrites;
    var row := Row(Late, Some(MS_PER_DAY));
    var w := OpenClub(Queue, TheRound(Collecting, 100), map[THE_ROW := row], UNPAID);
    var x := ApproveWrite(w, 0, 0, THE_ROW, MS_PER_DAY);
    assert DateOf(MS_PER_DAY) == MS_PER_DAY;
    assert Apply(w, x) == OpenClub(Queue, TheRound(Collecting, 200), map[THE_ROW := row], UNPAID);
    ClubAdvances(200, row, MS_PER_DAY, clock);
    ApplyOne(w, x);
    assert [x] + [] == [x];
  }

  lemma ClubWaives()
    ensures Step(OpenClub(Queue, TheRound(RoundPending, 0), map[], UNPAID), Waive(0, 0, 0, 0, Owner))
            == OpenClub(Queue, TheRound(RoundPending, 0), Rows(true), UNPAID)
  {
    ApplyOne(OpenClub(Queue, TheRound(RoundPending, 0), map[], UNPAID),
             PutContribution(THE_ROW, Row(Waived, None), false));
  }

  /** What the one dated, late row is worth: 100 among the dated rows, and 100 in the report. */
  lemma ClubSums(total: int)
    ensures var w := OpenClub(Queue, TheRound(Collecting, total), map[THE_ROW := Row(Late, Some(MS_PER_DAY))], UNPAID);
      && InActiveCycle(w, 0) && AmountOf(w, 0) == 100 && |DatedKeys(w, 0)| == 1
      && DatedSum(w, 0) == 100 && Sum(Reports.CountedKeys(w, 0), AmountAt(w)) == 100
  {
    var w := OpenClub(Queue, TheRound(Collecting, total), map[THE_ROW := Row(Late, Some(MS_PER_DAY))], UNPAID);
    assert DatedKeys(w, 0) == {THE_ROW} && Reports.CountedKeys(w, 0) == {THE_ROW};
    SumConstant({THE_ROW}, AmountAt(w), 100);
  }

  lemma ClubDrift(w: World, drift: int)
    requires LawAt(w, 0, drift) && InActiveCycle(w, 0) && AmountOf(w, 0) == 100 && |DatedKeys(w, 0)| == 1
    ensures w.rounds[0].total == 100 * (1 + drift)
  {
    hide DatedKeys;
  }

  /** Approving a contribution that was recorded late credits it twice: the stored total is 200 where the dated
      rows and the report come to 100. */
  lemma ApprovalCreditsTwice(clock: nat -> nat)
    ensures var w := SmallClub(Queue);
      var evs := [OpenNext(0, Owner, 0, clock), Record(0, 0, 0, 0, Owner, MS_PER_DAY, clock),
                  Approve(0, 0, 0, 0, Owner, MS_PER_DAY, clock)];
      var w' := Run(w, evs);
      && Fresh(w) && RunDrift(w, evs, 0) == 1
      && HasRound(w', 0) && w'.rounds[0].total == 200 && DatedSum(w', 0) == 100
      && Sum(Reports.CountedKeys(w', 0), AmountAt(w')) == 100
  {
    hide Step, Run, RunDrift, DatedSum, Reports.CountedKeys, DatedKeys, AmountAt, LawAt, AmountOf, InActiveCycle;
    var w, open := SmallClub(Queue), OpenNext(0, Owner, 0, clock);
    var record, approve := Record(0, 0, 0, 0, Owner, MS_PER_DAY, clock), Approve(0, 0, 0, 0, Owner, MS_PER_DAY, clock);
    ClubIsValid(Queue);
    ClubOpens(Queue, clock);
    ClubRecords(false, clock);
    ClubApproves(clock);
    RunOfThree(w, open, record, approve);
    ClubSums(200);
    ExactLedgerLaw(w, [open, record, approve], 0);
    ClubDrift(Run(w, [open, record, approve]), RunDrift(w, [open, record, approve], 0));
  }

  /** Recording over a waiver credits nothing: the stored total is 0 where the dated rows and the report come to 100. */
  lemma RecordOverWaiverCreditsNothing(clock: nat -> nat)
    ensures var w := SmallClub(Queue);
      var evs := [OpenNext(0, Owner, 0, clock), Waive(0, 0, 0, 0, Owner), Record(0, 0, 0, 0, Owner, MS_PER_DAY, clock)];
      var w' := Run(w, evs);
      && Fresh(w) && RunDrift(w, evs, 0) == -1
      && HasRound(w', 0) && w'.rounds[0].total == 0 && DatedSum(w', 0) == 100
      && Sum(Reports.CountedKeys(w', 0), AmountAt(w')) == 100
  {
    hide Step, Run, RunDrift, DatedSum, Reports.CountedKeys, DatedKeys, AmountAt, LawAt, AmountOf, InActiveCycle;
    var w, open := SmallClub(Queue), OpenNext(0, Owner, 0, clock);
    var waive, record := Waive(0, 0, 0, 0, Owner), Record(0, 0, 0, 0, Owner, MS_PER_DAY, clock);
    ClubIsValid(Queue);
    ClubOpens(Queue, clock);
    ClubWaives();
    ClubRecords(true, clock);
    RunOfThree(w, open, waive, record);
    ClubSums(0);
    ExactLedgerLaw(w, [open, waive, record], 0);
    ClubDrift(Run(w, [open, waive, record]), RunDrift(w, [open, waive, record], 0));
  }

  // ---- a payout that was never collected ----

  /** A round that collected nothing pays the contribution amount all the same. */
  lemma PaidFromNothing(clock: nat -> nat)
    ensures var w, evs := SmallClub(Queue), [OpenNext(0, Owner, 0, clock), PayTheRound(clock)];
      Fresh(w) && HasRound(Run(w, evs), 0) && Run(w, evs).rounds[0].total == 0 && PaidOutSum(Run(w, evs), 0) == 100
  {
    hide Step, Run, CallOf, PaidOutSum;
    ClubIsValid(Queue);
    ClubOpens(Queue, clock);
    ClubPays(Queue, clock);
    RunOfTwo(SmallClub(Queue), OpenNext(0, Owner, 0, clock), PayTheRound(clock));
    PaidClubSum(OpenClub(Queue, TheRound(RoundCompleted, 0), map[], map[THE_PAYOUT := Payout(100, Some(0))]));
  }

  lemma PaidClubSum(w: World)
    requires w.payouts == map[THE_PAYOUT := Payout(100, Some(0))]
    ensures PaidOutSum(w, 0) == 100
  {
    assert PaidKeys(w, 0) == {THE_PAYOUT};
    SumConstant({THE_PAYOUT}, PayoutAmount(w), 100);
  }

  // ---- a contribution of another group's member ----

  /** The club, and a second group of one. */
  function TwoClubs(): World {
    var w := SmallClub(Queue);
    w.(groups := w.groups + w.groups, members := w.members + [GroupMember(1, 1, Owner, ActiveMember, Some(1))])
  }

  lemma TwoClubsOpen(clock: nat -> nat)
    ensures var w' := Step(TwoClubs(), OpenNext(0, Owner, 0, clock));
      && LoadRound(w', 0, 0, 0) && w'.members == TwoClubs().members && w'.groups == TwoClubs().groups
      && w'.contributions == map[]
  {
    hide Roster, Ordered, Plan;
    var w := TwoClubs();
    assert Roster(w, 0) != [] && |Ordered(Roster(w, 0))| == 1 by { FirstClubRoster(); }
    assert RoundsCount(1, 1) == 1 by { OneRound(); }
    OpeningWrites(w, 0, 0, clock);
    PlanMatches(w, 0, 0, clock);
    ApplyOne(w, InsertCycle(0, LastNumber(w.cycles, 0) + 1, NewPlan(w, 0, 0, clock)));
  }

  lemma FirstClubRoster()
    ensures Roster(TwoClubs(), 0) == [RosterEntry(0, Some(1))] && |Ordered([RosterEntry(0, Some(1))])| == 1
  {
    var w, e := TwoClubs(), RosterEntry(0, Some(1));
    assert RosterUpTo(w.members, 0, 1) == RosterUpTo(w.members, 0, 0) + [e];
    assert RosterUpTo(w.members, 0, 2) == RosterUpTo(w.members, 0, 1);
    assert [e][..0] == [];
    assert Ordered([e]) == [e];
  }

  /** Two accepted calls after which statements and summary of a cycle disagree: the first club opens a cycle, and
      records a contribution of the second club's member. */
  lemma OutsiderRecordHappens(clock: nat -> nat)
    ensures var w, open, record := TwoClubs(), OpenNext(0, Owner, 0, clock), Record(0, 0, 0, 1, Owner, 0, clock);
      var w' := Run(w, [open, record]);
      && Fresh(w) && CallOf(Step(w, open), record).Accepted?
      && Sum(Reports.MembersOf(w', 0), Reports.NetPositions(w', 0, 0)) != Reports.Balance(w', 0)
  {
    hide Step, Run, CallOf, Valid, Reports.MembersOf, Reports.NetPositions, Reports.Balance;
    var w, open, record := TwoClubs(), OpenNext(0, Owner, 0, clock), Record(0, 0, 0, 1, Owner, 0, clock);
    FreshIsValid(w);
    StepKeepsValid(w, open);
    TwoClubsOpen(clock);
    Reports.OutsiderRecordBreaksAgreement(Step(w, open), record);
    RunOfTwo(w, open, record);
  }
}
