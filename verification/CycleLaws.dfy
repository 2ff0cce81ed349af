/** What opening, starting and completing a cycle do, said of the tables and of the numbers in them. */
module CycleLaws {
  import opened Common
  import opened Scheduler
  import opened Tables
  import opened Cycles
  import opened LateDetection
  import opened Backend
  import opened RoundLaws
  import opened ContributionLaws

  // ---- who takes part ----

  /** The group's active members, and those of them with a payout position. */
  function Joined(w: World, g: int): set<int> {
    set m | 0 <= m < |w.members| && w.members[m].groupId == g && w.members[m].status == ActiveMember
  }

  function Positioned(w: World, g: int): set<int> {
    set m | m in Joined(w, g) && w.members[m].position.Some?
  }

  lemma RosterIs(w: World, g: int)
    ensures Elements(Ids(Roster(w, g))) == Joined(w, g) && |Roster(w, g)| == |Joined(w, g)|
    ensures Elements(Ids(Ordered(Roster(w, g)))) == Positioned(w, g) && |Ordered(Roster(w, g))| == |Positioned(w, g)|
    ensures Distinct(Ids(Ordered(Roster(w, g))))
  {
    var r := Roster(w, g);
    RosterFacts(w.members, g, |w.members|);
    OrderedKeepsDistinctIds(r);
    hide RosterUpTo, Ordered;
    IdsAre(w, g, r, Joined(w, g));
    IdsAre(w, g, Ordered(r), Positioned(w, g));
  }

  lemma IdsAre(w: World, g: int, r: seq<RosterEntry>, s: set<int>)
    requires Distinct(Ids(r)) && forall e :: e in r ==> e.id in s
    requires forall m :: m in s ==> HasMember(w, m) && RosterEntry(m, w.members[m].position) in r
    ensures Elements(Ids(r)) == s && |r| == |s|
  {
    forall m ensures m in Ids(r) <==> m in s {
      if m in s {
        var i :| 0 <= i < |r| && r[i] == RosterEntry(m, w.members[m].position);
        assert Ids(r)[i] == m;
      }
      if m in Ids(r) {
        var i :| 0 <= i < |r| && Ids(r)[i] == m;
        assert r[i] in r;
      }
    }
    DistinctCardinality(Ids(r));
  }

  // ---- opening ----

  /** The owner opens a cycle in an active group with enough members and no cycle under way, refused in this order. */
  lemma OpeningVerdict(w: World, ev: Event)
    requires ev.OpenNext?
    ensures CallOf(w, ev).Accepted? <==>
      && ev.role == Owner && 0 <= ev.g < |w.groups| && w.groups[ev.g].status == ActiveGroup
      && |Joined(w, ev.g)| >= 1 && |Joined(w, ev.g)| >= w.groups[ev.g].settings.recipients
      && forall c :: 0 <= c < |w.cycles| && w.cycles[c].groupId == ev.g ==> w.cycles[c].status == CycleCompleted
    ensures !CallOf(w, ev).Accepted? ==> CallOf(w, ev) == Refused(
      if ev.role != Owner then Forbidden
      else if !(0 <= ev.g < |w.groups|) then NotFound
      else if w.groups[ev.g].status != ActiveGroup then GroupNotActive
      else if |Joined(w, ev.g)| == 0 then NoMembers
      else if |Joined(w, ev.g)| < w.groups[ev.g].settings.recipients then InsufficientMembers
      else CycleAlreadyActive)
  {
    hide NewPlan, Roster, Joined;
    RosterIs(w, ev.g);
  }

  /** The days from one round to the next. */
  function StepDays(f: Frequency): int {
    if f == Weekly then 7 else if f == Fortnightly then 14 else 30
  }

  /** n is one more than the highest number of the group's cycles. */
  predicate NextNumber(w: World, g: int, n: int) {
    && n >= 1 && (forall c :: 0 <= c < |w.cycles| && w.cycles[c].groupId == g ==> w.cycles[c].number < n)
    && (n == 1 || exists c :: 0 <= c < |w.cycles| && w.cycles[c].groupId == g && w.cycles[c].number == n - 1)
  }

  /** n members are paid k at a time in this many rounds; a savings pool has one round per member. */
  predicate CountsRounds(n: nat, k: nat, count: nat) {
    if n == 0 then count == 0 else if k == 0 then count == n else (count - 1) * k < n <= count * k
  }

  lemma {:induction false} LastNumberIs(cycles: seq<Cycle>, g: int)
    ensures var n := LastNumber(cycles, g);
      && n >= 0 && (forall c :: 0 <= c < |cycles| && cycles[c].groupId == g ==> cycles[c].number <= n)
      && (n == 0 || exists c :: 0 <= c < |cycles| && cycles[c].groupId == g && cycles[c].number == n)
  {
    if cycles != [] {
      var front, n := cycles[..|cycles| - 1], LastNumber(cycles, g);
      LastNumberIs(front, g);
      if n != 0 && n == LastNumber(front, g) {
        var c :| 0 <= c < |front| && front[c].groupId == g && front[c].number == n;
        assert cycles[c].number == n;
      }
    }
  }

  /** A new round: pending, empty, numbered i + 1, and due i steps after the day of the opening. */
  predicate NewRound(w: World, ev: Event, row: Round, i: nat)
    requires ev.OpenNext? && 0 <= ev.g < |w.groups|
  {
    && row.cycleId == |w.cycles| && row.number == i + 1 && row.status == RoundPending && row.total == 0
    && IsDay(row.dueDate - i * StepDays(w.groups[ev.g].settings.frequency) * 86_400_000, ev.now)
  }

  lemma DueDay(now: int, f: Frequency, i: nat)
    ensures IsDay(DateOf(DueDateForRound(now, f, i)) - i * StepDays(f) * 86_400_000, now)
  {
    var days := StepDays(f) * i;
    assert FrequencyDays(f) * i == days;
    assert i * StepDays(f) * 86_400_000 == days * 86_400_000;
    DayMoves(now, days);
  }

  lemma DayMoves(t: int, days: int)
    ensures DateOf(t + days * 86_400_000) == DateOf(t) + days * 86_400_000
  {
    DayOf(t);
    DayOf(t + days * 86_400_000);
    var d := DateOf(t) + days * 86_400_000;
    assert d % 86_400_000 == 0;
    assert IsDay(d, t + days * 86_400_000);
  }

  /** The tables right after an opening: one cycle more, its rounds behind the old ones, unpaid payouts for these
      rounds only, and everything else as it was. */
  lemma OpeningEffect(w: World, ev: Event)
    requires ev.OpenNext? && CallOf(w, ev).Accepted?
    ensures 0 <= ev.g < |w.groups|
    ensures var w', n := Step(w, ev), |w.rounds|;
      && w' == w.(cycles := w'.cycles, rounds := w'.rounds, payouts := w'.payouts)
      && |w'.cycles| == |w.cycles| + 1 && w.cycles <= w'.cycles
      && w'.cycles[|w.cycles|].groupId == ev.g && w'.cycles[|w.cycles|].status == Open
      && NextNumber(w, ev.g, w'.cycles[|w.cycles|].number)
      && w.rounds <= w'.rounds
      && CountsRounds(|Positioned(w, ev.g)|, w.groups[ev.g].settings.recipients, |w'.rounds| - n)
      && (forall r :: n <= r < |w'.rounds| ==> NewRound(w, ev, w'.rounds[r], r - n))
  {
    hide NewPlan, Roster, Ordered, CountsRounds, NextNumber, RoundsCount, NewRound, Joined;
    OpeningWrite(w, ev);
    var x, k := CallOf(w, ev).writes[0], w.groups[ev.g].settings.recipients;
    hide CallOf, Step;
    NumberIsNext(w, ev.g);
    CountIsRight(|Positioned(w, ev.g)|, k);
    forall r | |w.rounds| <= r < |w.rounds| + |x.plan| ensures NewRound(w, ev, Step(w, ev).rounds[r], r - |w.rounds|) {
      NewRoundIs(w, ev, r);
    }
  }

  lemma OpeningWrite(w: World, ev: Event)
    requires ev.OpenNext? && CallOf(w, ev).Accepted?
    ensures 0 <= ev.g < |w.groups| && |CallOf(w, ev).writes| == 1
    ensures var x, plan := CallOf(w, ev).writes[0], NewPlan(w, ev.g, ev.now, ev.clock);
      && x == InsertCycle(ev.g, LastNumber(w.cycles, ev.g) + 1, plan) && Step(w, ev) == Apply(w, x)
      && |plan| == RoundsCount(|Positioned(w, ev.g)|, w.groups[ev.g].settings.recipients)
      && forall i :: 0 <= i < |plan| ==>
           plan[i].roundNumber == i + 1
           && plan[i].dueDate == DueDateForRound(ev.now, w.groups[ev.g].settings.frequency, i)
  {
    hide PlannedRound, Roster, Ordered, RoundsCount, Positioned, DueDateForRound, Apply;
    RosterIs(w, ev.g);
    ApplyOne(w, CallOf(w, ev).writes[0]);
  }

  lemma NewRoundIs(w: World, ev: Event, r: int)
    requires ev.OpenNext? && CallOf(w, ev).Accepted? && |w.rounds| <= r < |Step(w, ev).rounds|
    ensures 0 <= ev.g < |w.groups| && NewRound(w, ev, Step(w, ev).rounds[r], r - |w.rounds|)
  {
    hide NewPlan, DateOf, DueDateForRound, CallOf, Step, RoundsCount, Positioned, IsDay;
    OpeningWrite(w, ev);
    DueDay(ev.now, w.groups[ev.g].settings.frequency, r - |w.rounds|);
  }

  lemma NumberIsNext(w: World, g: int)
    ensures NextNumber(w, g, LastNumber(w.cycles, g) + 1)
  {
    hide LastNumber;
    LastNumberIs(w.cycles, g);
  }

  lemma CountIsRight(n: nat, k: nat)
    ensures CountsRounds(n, k, RoundsCount(n, k))
  {
  }

  /** The rounds of a new cycle are due at even distances of 7, 14 or 30 days, starting with the day of the opening,
      and so in ascending order. */
  lemma DueDatesAreEven(w: World, ev: Event, i: nat)
    requires ev.OpenNext? && CallOf(w, ev).Accepted? && |w.rounds| + i < |Step(w, ev).rounds|
    ensures 0 <= ev.g < |w.groups|
    ensures var f, n := w.groups[ev.g].settings.frequency, |w.rounds|;
      var due := Step(w, ev).rounds[n + i].dueDate;
      && IsDay(Step(w, ev).rounds[n].dueDate, ev.now)
      && (f == Weekly ==> due == Step(w, ev).rounds[n].dueDate + i * 7 * 86_400_000)
      && (f == Fortnightly ==> due == Step(w, ev).rounds[n].dueDate + i * 14 * 86_400_000)
      && (f == Monthly ==> due == Step(w, ev).rounds[n].dueDate + i * 30 * 86_400_000)
      && (i > 0 ==> Step(w, ev).rounds[n + i - 1].dueDate < due)
  {
    hide Step, CallOf, CountsRounds, NextNumber, Positioned;
    OpeningEffect(w, ev);
    var w', n := Step(w, ev), |w.rounds|;
    assert NewRound(w, ev, w'.rounds[n], 0) && NewRound(w, ev, w'.rounds[n + i], i);
    if i > 0 { assert NewRound(w, ev, w'.rounds[n + i - 1], i - 1); }
    DayOf(ev.now);
  }

  /** The payouts of an opening belong to its own rounds, are unpaid, and go to positioned members of the group. */
  lemma OpeningPayouts(w: World, ev: Event, p: PayoutKey)
    requires Valid(w) && ev.OpenNext? && CallOf(w, ev).Accepted?
    ensures p.round < |w.rounds| ==> (p in Step(w, ev).payouts <==> p in w.payouts)
    ensures p in w.payouts ==> p in Step(w, ev).payouts && Step(w, ev).payouts[p] == w.payouts[p]
    ensures p in Step(w, ev).payouts && p !in w.payouts ==>
      && |w.rounds| <= p.round < |Step(w, ev).rounds| && Step(w, ev).payouts[p] == Payout(0, None)
      && p.member in Positioned(w, ev.g)
  {
    hide PlannedRound, Roster, Ordered, RowsSound, Numbered, PayoutsAlike, RoundsSound, RoundsBounded;
    var x := CallOf(w, ev).writes[0];
    ApplyOne(w, x);
    PlanKeyPlace(|w.rounds|, x.plan, p);
    if p in w.payouts { assert PayoutRefers(w, p.round, p.member); }
    if p in PlanKeys(|w.rounds|, x.plan) {
      PlannedMembers(w, ev, p.round - |w.rounds|, p.member);
    }
  }

  lemma PlannedMembers(w: World, ev: Event, i: int, m: int)
    requires ev.OpenNext? && CallOf(w, ev).Accepted? && CallOf(w, ev).writes[0].InsertCycle?
    requires 0 <= i < |CallOf(w, ev).writes[0].plan| && m in CallOf(w, ev).writes[0].plan[i].recipients
    ensures m in Positioned(w, ev.g)
  {
    hide PlannedRound, Roster, Ordered, RoundsCount;
    var s, ordered := w.groups[ev.g].settings, Ids(Ordered(Roster(w, ev.g)));
    RosterIs(w, ev.g);
    PlannedRoundSound(ordered, s.recipients, s.payoutMethod, {}, ev.clock, i);
    assert m in Elements(PlannedRound(ordered, s.recipients, s.payoutMethod, {}, ev.clock, i));
  }

  // ---- starting and completing ----

  lemma StartLaw(w: World, ev: Event)
    requires ev.Start?
    ensures var call, found := CallOf(w, ev), 0 <= ev.c < |w.cycles| && w.cycles[ev.c].groupId == ev.g;
      && (call == Refused(Forbidden) <==> ev.role != Owner)
      && (call == Refused(NotFound) <==> ev.role == Owner && !found)
      && (call == Refused(CycleNotOpen) <==> ev.role == Owner && found && w.cycles[ev.c].status != Open)
      && (call.Accepted? <==> ev.role == Owner && found && w.cycles[ev.c].status == Open)
      && (call.Accepted? ==>
          Step(w, ev) == w.(cycles := w.cycles[ev.c := w.cycles[ev.c].(status := InProgress)]))
  {
    if CallOf(w, ev).Accepted? { ApplyOne(w, CallOf(w, ev).writes[0]); }
  }

  /** Completing by hand is the owner's, at any time; a second time it changes nothing. */
  lemma CompleteLaw(w: World, ev: Event)
    requires ev.Complete?
    ensures var call, found := CallOf(w, ev), 0 <= ev.c < |w.cycles| && w.cycles[ev.c].groupId == ev.g;
      && (call == Refused(Forbidden) <==> ev.role != Owner)
      && (call == Refused(NotFound) <==> ev.role == Owner && !found)
      && (call.Accepted? <==> ev.role == Owner && found)
      && (call.Accepted? ==>
          Step(w, ev) == if w.cycles[ev.c].status == CycleCompleted then w else CycleEnded(w, ev.c, ev.now, ev.clock))
  {
    hide CompletionWrites, CycleEnded;
    if 0 <= ev.c < |w.cycles| { CompletionEnds(w, ev.c, ev.now, ev.clock); }
  }

  // ---- the daily sweep ----

  /** A pending row of a pending or collecting round in a running cycle, later than due date plus grace. */
  predicate PastDue(w: World, k: Key, now: int) {
    && Has(w, k, Pending) && 0 <= k.round < |w.rounds| && 0 <= k.cycle < |w.cycles|
    && w.rounds[k.round].cycleId == k.cycle && w.cycles[k.cycle].status == InProgress
    && (w.rounds[k.round].status == RoundPending || w.rounds[k.round].status == Collecting)
    && 0 <= w.cycles[k.cycle].groupId < |w.groups| && now > Deadline(w, w.cycles[k.cycle].groupId, k.round)
  }

  /** The sweep marks exactly these rows late, and changes nothing else. */
  lemma SweepEffect(w: World, now: int)
    ensures CallOf(w, Sweep(now)).Accepted?
    ensures var w' := Step(w, Sweep(now));
      && w' == w.(contributions := w'.contributions) && w'.contributions.Keys == w.contributions.Keys
      && forall k :: k in w.contributions ==>
           w'.contributions[k] == if PastDue(w, k, now) then w.contributions[k].(status := Late) else w.contributions[k]
  {
    ApplyOne(w, MarkLate(Overdue(w, now)));
    forall k | k in w.contributions ensures IsOverdue(w, k, now) <==> PastDue(w, k, now) {}
  }
}
