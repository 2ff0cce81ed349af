/** Queue and random cycles in the running backend: the plan drawn at the opening is the plan that is paid, and
    it pays everybody exactly once precisely when the roster size allows it. */
module Fulfilment {
  import opened Arith
  import opened Common
  import opened Scheduler
  import opened Tables
  import opened Cycles
  import opened Payouts
  import opened Backend
  import opened Rotation
  import Fairness

  /** A cycle whose rounds are the rows base, base + 1, ... with the recipients of the plan, k to a round. */
  datatype Course = Course(cycle: int, base: int, how: PayoutMethod, k: nat, plan: seq<seq<MemberId>>)

  function RoundsOf(t: Course): Lap { Lap(t.cycle, t.base, |t.plan|, t.k, {}) }

  predicate Follows(w: World, t: Course, r: int) {
    t.base <= r < t.base + |t.plan| ==> Recipients(w, r) == Elements(t.plan[r - t.base])
  }

  predicate SameMethod(w: World, t: Course) {
    Active(w, t.cycle) ==>
      var g := w.cycles[t.cycle].groupId;
      HasGroup(w, g) && w.groups[g].settings.payoutMethod == t.how && w.groups[g].settings.recipients == t.k
  }

  ghost predicate OnCourse(w: World, t: Course) {
    Rounds(w, RoundsOf(t)) && SameMethod(w, t) && forall r :: t.base <= r < t.base + |t.plan| ==> Follows(w, t, r)
  }

  /** The write sets no recipients in this cycle. */
  predicate Elsewhere(w: World, x: Write, t: Course) {
    x.ReplaceRecipients? && HasRound(w, x.round) ==> w.rounds[x.round].cycleId != t.cycle
  }

  lemma WriteKeepsRounds(w: World, x: Write, t: Course)
    requires Valid(w) && Guard(w, x) && Rounds(w, RoundsOf(t)) && SameMethod(w, t)
    ensures Rounds(Apply(w, x), RoundsOf(t)) && SameMethod(Apply(w, x), t)
  {
    hide RowSound, RowRefers, PayoutRefers, Fits, PlanSound, AnyDistributed, AllDistributed, PayoutsOf, CountCycles,
      PayoutsAlike, RoundsSound, RoundsBounded, Numbered, RowsSound;
    if x.UpdateSettings? && Active(w, t.cycle) && x.group == w.cycles[t.cycle].groupId {
      assert HasActiveCycle(w, x.group);
    }
  }

  lemma WriteKeepsCourse(w: World, x: Write, t: Course)
    requires Valid(w) && Guard(w, x) && OnCourse(w, t) && Elsewhere(w, x, t)
    ensures OnCourse(Apply(w, x), t)
  {
    hide Valid, Guard, Apply, Recipients, SameMethod;
    WriteKeepsRounds(w, x, t);
    forall r | t.base <= r < t.base + |t.plan| ensures Follows(Apply(w, x), t, r) {
      assert Follows(w, t, r);
      WriteOnRound(w, x, r);
    }
  }

  lemma {:induction false} WritesKeepCourse(w: World, xs: seq<Write>, t: Course)
    requires Valid(w) && Guarded(w, xs) && OnCourse(w, t) && ReplacesNothing(xs)
    ensures OnCourse(ApplyAll(w, xs), t)
  {
    hide Valid, Guard, Apply, OnCourse;
    if xs != [] {
      var front := xs[..|xs| - 1];
      WritesKeepCourse(w, front, t);
      WritesKeepValid(w, front);
      WriteKeepsCourse(ApplyAll(w, front), xs[|xs| - 1], t);
    }
  }

  /** Recipients of the cycle are not re-rolled, and not changed at all once it is completed. */
  predicate LeftAlone(w: World, ev: Event, t: Course) {
    (ev.Assign? || ev.Reroll?) && ev.c == t.cycle && CallOf(w, ev).Accepted? ==>
      Active(w, t.cycle) && !(ev.Reroll? && t.how == Random)
  }

  /** Neither kind of call gets through to a running queue or random cycle. */
  lemma ReplacementElsewhere(w: World, ev: Event, t: Course)
    requires SameMethod(w, t) && t.how != Manual && LeftAlone(w, ev, t) && CallOf(w, ev).Accepted?
      && (ev.Assign? || ev.Reroll?)
    ensures |CallOf(w, ev).writes| == 1 && Elsewhere(w, CallOf(w, ev).writes[0], t)
  {
    hide RerollPlan, EarlierPaid, AnyDistributed;
  }

  lemma StepKeepsCourse(w: World, ev: Event, t: Course)
    requires Valid(w) && OnCourse(w, t) && t.how != Manual && LeftAlone(w, ev, t)
    ensures OnCourse(Step(w, ev), t)
  {
    hide CallOf, Valid, Guard, Apply, LeftAlone, SameMethod, Follows, Rounds;
    if CallOf(w, ev).Accepted? {
      var xs := CallOf(w, ev).writes;
      EventGuarded(w, ev);
      if ev.Assign? || ev.Reroll? {
        ReplacementElsewhere(w, ev, t);
        assert xs == [xs[0]];
        FirstOfOne(w, xs[0]);
        WriteKeepsCourse(w, xs[0], t);
      } else {
        OthersReplaceNothing(w, ev);
        WritesKeepCourse(w, xs, t);
      }
    }
  }

  ghost predicate LeftAloneRun(w: World, evs: seq<Event>, t: Course) {
    evs == [] || (LeftAloneRun(w, evs[..|evs| - 1], t) && LeftAlone(Run(w, evs[..|evs| - 1]), evs[|evs| - 1], t))
  }

  /** As long as no recipients of its rounds are set after its completion, and those of a random cycle not drawn
      again, a queue or random cycle keeps the recipients it was opened with, whatever else happens. */
  lemma {:induction false} RunKeepsCourse(w: World, evs: seq<Event>, t: Course)
    requires Valid(w) && OnCourse(w, t) && t.how != Manual && LeftAloneRun(w, evs, t)
    ensures OnCourse(Run(w, evs), t)
  {
    hide Valid, OnCourse, LeftAlone, Step;
    if evs != [] {
      var front := evs[..|evs| - 1];
      RunKeepsCourse(w, front, t);
      RunKeepsValid(w, front);
      StepKeepsCourse(Run(w, front), evs[|evs| - 1], t);
    }
  }

  // ---- from the opening to the last payout ----

  /** The course a group's next cycle takes when it is opened now. */
  function NextCourse(w: World, g: int, clock: nat -> nat): Course
    requires HasGroup(w, g)
  {
    var s := w.groups[g].settings;
    Course(|w.cycles|, |w.rounds|, s.payoutMethod, s.recipients,
           Plan(Ids(Ordered(Roster(w, g))), s.recipients, s.payoutMethod, {}, clock))
  }

  lemma PlanMatches(w: World, g: int, now: int, clock: nat -> nat)
    requires HasGroup(w, g)
    ensures var plan, rows := NextCourse(w, g, clock).plan, NewPlan(w, g, now, clock);
      |rows| == |plan| && forall i :: 0 <= i < |rows| ==> rows[i].recipients == plan[i] && rows[i].roundNumber == i + 1
  {
    hide PlannedRound, RoundsCount, Roster, Ordered, Ids;
  }

  lemma OpenedRounds(w: World, x: Write, t: Course)
    requires References(w) && x.InsertCycle? && HasGroup(w, x.group)
    requires w.groups[x.group].settings.payoutMethod == t.how && w.groups[x.group].settings.recipients == t.k
    requires t.cycle == |w.cycles| && t.base == |w.rounds| && |t.plan| == |x.plan|
    requires forall i :: 0 <= i < |x.plan| ==> x.plan[i].roundNumber == i + 1
    ensures Rounds(Apply(w, x), RoundsOf(t)) && SameMethod(Apply(w, x), t)
  {
  }

  lemma PayoutsAreOld(w: World)
    requires References(w)
    ensures forall p :: p in w.payouts ==> HasRound(w, p.round)
  {
    forall p | p in w.payouts ensures HasRound(w, p.round) { assert PayoutRefers(w, p.round, p.member); }
  }

  lemma OpeningWrites(w: World, g: int, now: int, clock: nat -> nat)
    requires OpenInternalCall(w, g, now, clock).Accepted?
    ensures HasGroup(w, g)
    ensures OpenInternalCall(w, g, now, clock)
      == Accepted([InsertCycle(g, LastNumber(w.cycles, g) + 1, NewPlan(w, g, now, clock))])
  {
    hide NewPlan;
  }

  lemma OpeningSetsCourse(w: World, g: int, now: int, clock: nat -> nat)
    requires Valid(w) && OpenInternalCall(w, g, now, clock).Accepted?
    ensures OnCourse(Outcome(w, OpenInternalCall(w, g, now, clock)), NextCourse(w, g, clock))
  {
    hide OpenInternalCall, NewPlan, RowsSound, Numbered, PayoutsAlike, RoundsSound, RoundsBounded, References;
    hide Apply, Rounds, SameMethod, Recipients, Plan;
    OpeningWrites(w, g, now, clock);
    var t, x := NextCourse(w, g, clock), InsertCycle(g, LastNumber(w.cycles, g) + 1, NewPlan(w, g, now, clock));
    ApplyOne(w, x);
    PlanMatches(w, g, now, clock);
    OpenedRounds(w, x, t);
    PayoutsAreOld(w);
    forall r | t.base <= r < t.base + |t.plan| ensures Follows(Apply(w, x), t, r) {
      NewRecipientsAre(w, x, r);
    }
  }

  lemma NewRecipientsAre(w: World, x: Write, r: int)
    requires x.InsertCycle? && |w.rounds| <= r < |w.rounds| + |x.plan|
    requires forall p :: p in w.payouts ==> HasRound(w, p.round)
    ensures Recipients(Apply(w, x), r) == Elements(x.plan[r - |w.rounds|].recipients)
  {
    forall m ensures m in Recipients(Apply(w, x), r) <==> m in x.plan[r - |w.rounds|].recipients {
      RecipientsMatch(Apply(w, x), r);
      PlanKeyPlace(|w.rounds|, x.plan, PayoutKey(r, m));
    }
  }

  /** The places of the plan that hold x. */
  function Places(plan: seq<seq<MemberId>>, x: MemberId): set<int> {
    set i | 0 <= i < |plan| && x in plan[i]
  }

  lemma {:induction false} PlacesCount(plan: seq<seq<MemberId>>, x: MemberId)
    requires forall i :: 0 <= i < |plan| ==> Distinct(plan[i])
    ensures |Places(plan, x)| == multiset(Fairness.Flatten(plan))[x]
  {
    if plan == [] {
      assert Places(plan, x) == {};
    } else {
      var front, last := plan[..|plan| - 1], plan[|plan| - 1];
      PlacesCount(front, x);
      DistinctIffMultiplicityOne(last);
      assert x in last <==> x in multiset(last);
      assert Places(plan, x) == Places(front, x) + if x in last then {|plan| - 1} else {};
      assert multiset(Fairness.Flatten(plan)) == multiset(Fairness.Flatten(front)) + multiset(last);
    }
  }

  /** In exactly one round of the cycle the member holds a paid payout. */
  ghost predicate PaidExactlyOnce(w: World, c: int, m: int) {
    exists r :: PaidAt(w, c, m, r) && forall q :: PaidAt(w, c, m, q) ==> q == r
  }

  predicate PaidAt(w: World, c: int, m: int, r: int) {
    HasRound(w, r) && w.rounds[r].cycleId == c && Distributed(w, PayoutKey(r, m))
  }

  lemma PaidWherePlanned(w: World, t: Course, m: int, r: int)
    requires OnCourse(w, t) && forall q :: t.base <= q < t.base + |t.plan| ==> Settled(w, q)
    ensures PaidAt(w, t.cycle, m, r) <==> (r - t.base) in Places(t.plan, m)
  {
    RecipientsMatch(w, r);
    if t.base <= r < t.base + |t.plan| {
      assert Follows(w, t, r) && Settled(w, r);
      assert m in Recipients(w, r) <==> m in t.plan[r - t.base];
      if PayoutKey(r, m) in w.payouts { assert PayoutKey(r, m) in PayoutsOf(w, r); }
    }
  }

  lemma OnceIsOnePlace(w: World, t: Course, m: int)
    requires OnCourse(w, t) && forall q :: t.base <= q < t.base + |t.plan| ==> Settled(w, q)
    ensures PaidExactlyOnce(w, t.cycle, m) <==> |Places(t.plan, m)| == 1
  {
    hide OnCourse, PaidAt, Places, Settled;
    var places := Places(t.plan, m);
    forall r ensures PaidAt(w, t.cycle, m, r) <==> (r - t.base) in places { PaidWherePlanned(w, t, m, r); }
    if PaidExactlyOnce(w, t.cycle, m) {
      var r :| PaidAt(w, t.cycle, m, r) && forall q :: PaidAt(w, t.cycle, m, q) ==> q == r;
      forall i | i in places ensures i == r - t.base { assert PaidAt(w, t.cycle, m, i + t.base); }
      assert places == {r - t.base};
    }
    if |places| == 1 {
      var i := SomeElement(places);
      SubsetCardinality({i}, places);
      assert PaidAt(w, t.cycle, m, i + t.base);
    }
  }

  /** The rounds of any plan name nobody twice. */
  lemma PlanRoundsDistinct(ordered: seq<MemberId>, k: nat, how: PayoutMethod, clock: nat -> nat)
    requires Distinct(ordered) && 1 <= |ordered| && 1 <= k && (how == Queue || how == Random)
    ensures forall i :: 0 <= i < |Plan(ordered, k, how, {}, clock)| ==> Distinct(Plan(ordered, k, how, {}, clock)[i])
  {
    hide RoundsCount;
    forall i | 0 <= i < |Plan(ordered, k, how, {}, clock)|
      ensures Distinct(PlannedRound(ordered, k, how, {}, clock, i))
    {
      if how == Random {
        Fairness.RandomRoundSize(ordered, k, {}, clock, i);
      } else {
        QueuePicksDistinct(ordered, i * k, k);
      }
    }
  }

  lemma {:induction false} QueuePicksDistinct(ordered: seq<MemberId>, base: nat, t: nat)
    requires ordered != []
    ensures Distinct(QueuePicks(ordered, base, t))
  {
    if t > 0 { QueuePicksDistinct(ordered, base, t - 1); }
  }

  /** From the opening of a queue or random cycle to the payment of its last round, over any run that leaves its
      recipients alone: every positioned member is paid exactly once if and only if k divides their number or
      one round covers them all. */
  lemma EverybodyPaidOnceIff(w: World, g: int, now: int, clock: nat -> nat, evs: seq<Event>)
    requires Valid(w) && OpenInternalCall(w, g, now, clock).Accepted? && PreAssigned(w.groups[g].settings)
    requires LeftAloneRun(Outcome(w, OpenInternalCall(w, g, now, clock)), evs, NextCourse(w, g, clock))
    requires var w', t := Run(Outcome(w, OpenInternalCall(w, g, now, clock)), evs), NextCourse(w, g, clock);
      forall q :: t.base <= q < t.base + |t.plan| ==> Settled(w', q)
    ensures var w', ordered := Run(Outcome(w, OpenInternalCall(w, g, now, clock)), evs), Ids(Ordered(Roster(w, g)));
      var k := w.groups[g].settings.recipients;
      (forall m :: m in ordered ==> PaidExactlyOnce(w', |w.cycles|, m)) <==> (|ordered| % k == 0 || |ordered| < k)
  {
    var w1, t := Outcome(w, OpenInternalCall(w, g, now, clock)), NextCourse(w, g, clock);
    var w' := Run(w1, evs);
    OpeningSetsCourse(w, g, now, clock);
    OpeningIsValid(w, g, now, clock);
    RunKeepsCourse(w1, evs, t);
    RosterIds(w, g);
    hide Valid, OpenInternalCall, Run, OnCourse, LeftAloneRun, Settled, PaidExactlyOnce, Plan, Places, Roster, Ordered;
    PaidOncePlan(w', t, Ids(Ordered(Roster(w, g))), w.groups[g].settings.recipients, clock);
  }

  lemma OpeningIsValid(w: World, g: int, now: int, clock: nat -> nat)
    requires Valid(w) && OpenInternalCall(w, g, now, clock).Accepted?
    ensures Valid(Outcome(w, OpenInternalCall(w, g, now, clock)))
  {
    hide Valid;
    OpenGuarded(w, g, now, clock);
    WritesKeepValid(w, OpenInternalCall(w, g, now, clock).writes);
  }

  lemma PaidOncePlan(w: World, t: Course, ordered: seq<MemberId>, k: nat, clock: nat -> nat)
    requires OnCourse(w, t) && forall q :: t.base <= q < t.base + |t.plan| ==> Settled(w, q)
    requires Distinct(ordered) && k > 0 && (t.how == Queue || t.how == Random)
      && t.plan == Plan(ordered, k, t.how, {}, clock)
    ensures (forall m :: m in ordered ==> PaidExactlyOnce(w, t.cycle, m)) <==> (|ordered| % k == 0 || |ordered| < k)
  {
    hide OnCourse, Settled, PaidExactlyOnce, Plan, Places;
    if ordered != [] {
      PlanRoundsDistinct(ordered, k, t.how, clock);
      Fairness.PlanPaysEachOnceIff(ordered, k, t.how, clock);
      forall m | m in ordered ensures PaidExactlyOnce(w, t.cycle, m) <==> multiset(Fairness.Flatten(t.plan))[m] == 1 {
        PlacesCount(t.plan, m);
        OnceIsOnePlace(w, t, m);
      }
    }
  }

  // ---- the manual method, from the opening to the last payout ----

  predicate AllPositioned(w: World, g: int) {
    forall m :: m in ActiveMembers(w, g) ==> w.members[m].position.Some?
  }

  lemma {:induction false} InsertSize(s: seq<RosterEntry>, x: RosterEntry)
    requires x.position.Some? && forall e :: e in s ==> e.position.Some?
    ensures |InsertByPosition(s, x)| == |s| + 1
  {
    if s != [] && s[|s| - 1].position.value > x.position.value { InsertSize(s[..|s| - 1], x); }
  }

  lemma {:induction false} OrderedSize(members: seq<RosterEntry>)
    requires forall e :: e in members ==> e.position.Some?
    ensures |Ordered(members)| == |members|
  {
    if members != [] {
      var front, last := members[..|members| - 1], members[|members| - 1];
      assert last in members && forall e :: e in front ==> e in members;
      OrderedSize(front);
      InsertSize(Ordered(front), last);
    }
  }

  /** With positions for all, the schedule counts every active member. */
  lemma RosterSize(w: World, g: int)
    requires AllPositioned(w, g)
    ensures |Ordered(Roster(w, g))| == |ActiveMembers(w, g)| && (Roster(w, g) != [] ==> ActiveMembers(w, g) != {})
  {
    var r := Roster(w, g);
    RosterFacts(w.members, g, |w.members|);
    hide RosterUpTo, Ordered;
    forall m ensures m in ActiveMembers(w, g) <==> m in Elements(Ids(r)) {
      if m in ActiveMembers(w, g) {
        var i :| 0 <= i < |r| && r[i] == RosterEntry(m, w.members[m].position);
        assert Ids(r)[i] == m;
      }
      if m in Elements(Ids(r)) {
        var i :| 0 <= i < |r| && Ids(r)[i] == m;
        assert r[i] in r;
      }
    }
    assert Elements(Ids(r)) == ActiveMembers(w, g);
    DistinctCardinality(Ids(r));
    forall e | e in r ensures e.position.Some? { assert e.id in ActiveMembers(w, g); }
    OrderedSize(r);
  }

  /** A lap whose rounds are all paid has paid every roster member in exactly one round, and k divides the roster. */
  lemma PaidLap(w: World, t: Lap)
    requires Rotates(w, t) && t.roster != {} && t.count == RoundsCount(|t.roster|, t.k)
    requires forall q :: t.base <= q < t.base + t.count ==> Settled(w, q)
    ensures t.k > 0 && |t.roster| % t.k == 0 && forall m :: m in t.roster ==> PaidExactlyOnce(w, t.cycle, m)
  {
    hide RoundsCount, PaidExactlyOnce, Recipients, Settled;
    assert t.count >= 1 by { RoundsNeeded(|t.roster|, t.k); }
    forall q | t.base <= q < t.base + t.count ensures Recipients(w, q) != {} { SettledHasRecipients(w, q); }
    assert FullOrEmpty(w, t, t.base);
    FullLapNamesEveryone(w, t);
    forall m | m in t.roster ensures PaidExactlyOnce(w, t.cycle, m) {
      var r :| t.base <= r < t.base + t.count && m in Recipients(w, r);
      NamedOnceIsPaidOnce(w, t, m, r);
    }
  }

  lemma RoundsNeeded(n: nat, k: nat)
    requires n > 0
    ensures RoundsCount(n, k) >= 1
  {
    if k > 0 { CeilOne(n, k, RoundsCount(n, k)); }
  }

  lemma SettledHasRecipients(w: World, r: int)
    requires Settled(w, r)
    ensures Recipients(w, r) != {} && forall m :: Distributed(w, PayoutKey(r, m)) <==> m in Recipients(w, r)
  {
    RecipientsMatch(w, r);
    forall m | m in Recipients(w, r) ensures Distributed(w, PayoutKey(r, m)) {
      assert PayoutKey(r, m) in PayoutsOf(w, r);
    }
  }

  lemma NamedOnceIsPaidOnce(w: World, t: Lap, m: int, r: int)
    requires Rounds(w, t) && t.base <= r < t.base + t.count && m in Recipients(w, r)
    requires forall q :: t.base <= q < t.base + t.count ==> Settled(w, q)
    requires forall a, b :: t.base <= a < b < t.base + t.count ==> Recipients(w, a) !! Recipients(w, b)
    ensures PaidExactlyOnce(w, t.cycle, m)
  {
    hide Recipients, Settled;
    SettledHasRecipients(w, r);
    assert PaidAt(w, t.cycle, m, r);
    forall q | PaidAt(w, t.cycle, m, q) ensures q == r {
      SettledHasRecipients(w, q);
      assert m in Recipients(w, q) * Recipients(w, r);
    }
  }

  /** From the opening of a manual cycle to the payment of its last round, over any orderly run: it can only come
      to this if k divides the roster, and then every active member was paid in exactly one round. */
  lemma ManualCyclePaysEverybodyOnce(w: World, g: int, now: int, clock: nat -> nat, evs: seq<Event>)
    requires Valid(w) && OpenInternalCall(w, g, now, clock).Accepted?
    requires w.groups[g].settings.payoutMethod == Manual && AllPositioned(w, g)
    requires OrderlyRun(Outcome(w, OpenInternalCall(w, g, now, clock)), evs, NextLap(w, g))
    requires var w', t := Run(Outcome(w, OpenInternalCall(w, g, now, clock)), evs), NextLap(w, g);
      forall q :: t.base <= q < t.base + t.count ==> Settled(w', q)
    ensures var w', k := Run(Outcome(w, OpenInternalCall(w, g, now, clock)), evs), w.groups[g].settings.recipients;
      && k > 0 && |ActiveMembers(w, g)| % k == 0
      && forall m :: m in ActiveMembers(w, g) ==> PaidExactlyOnce(w', |w.cycles|, m)
  {
    hide Valid, Run, OrderlyRun, Settled, PaidExactlyOnce, Roster, Ordered, Rotates, AllPositioned, ActiveMembers,
      RoundsCount;
    assert Roster(w, g) != [];
    hide OpenInternalCall;
    var w1, t := Outcome(w, OpenInternalCall(w, g, now, clock)), NextLap(w, g);
    OpeningStartsLap(w, g, now, clock);
    OpeningIsValid(w, g, now, clock);
    RunKeepsRotation(w1, evs, t);
    RosterSize(w, g);
    PaidLap(Run(w1, evs), t);
  }
}
