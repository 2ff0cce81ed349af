/** What a re-roll does to the fairness of a random cycle that would have paid everybody once. */
module Redraw {
  import opened Common
  import opened Scheduler
  import opened Tables
  import opened Cycles
  import opened Contributions
  import opened Payouts
  import opened Backend
  import opened Rotation
  import opened Fulfilment
  import Fairness

  // ---- on plans ----

  /** Replacing one round of a plan that names everybody once keeps it so only if the same members are named. */
  lemma RedrawnPlan(plan: seq<seq<MemberId>>, ordered: seq<MemberId>, i: nat, drawn: seq<MemberId>)
    requires i < |plan| && Distinct(plan[i]) && Elements(plan[i]) <= Elements(ordered) && |drawn| <= |plan[i]|
    requires forall m :: m in ordered ==> |Places(plan, m)| == 1
    ensures (forall m :: m in ordered ==> |Places(plan[i := drawn], m)| == 1) <==> Elements(drawn) == Elements(plan[i])
  {
    hide Places, Distinct;
    var redrawn := plan[i := drawn];
    if Elements(drawn) == Elements(plan[i]) {
      forall m | m in ordered ensures |Places(redrawn, m)| == 1 {
        assert m in Elements(drawn) <==> m in Elements(plan[i]);
        SamePlaces(plan, i, drawn, m);
      }
    }
    if forall m :: m in ordered ==> |Places(redrawn, m)| == 1 {
      forall m | m in Elements(plan[i]) ensures m in Elements(drawn) {
        if m !in drawn { LosesPlace(plan, i, drawn, m); }
      }
      DistinctCardinality(plan[i]);
      ElementsBound(drawn);
      SubsetCardinality(Elements(plan[i]), Elements(drawn));
    }
  }

  lemma SamePlaces(plan: seq<seq<MemberId>>, i: nat, drawn: seq<MemberId>, m: MemberId)
    requires i < |plan| && (m in drawn <==> m in plan[i])
    ensures Places(plan[i := drawn], m) == Places(plan, m)
  {
  }

  lemma LosesPlace(plan: seq<seq<MemberId>>, i: nat, drawn: seq<MemberId>, m: MemberId)
    requires i < |plan| && m in plan[i] && m !in drawn && |Places(plan, m)| == 1
    ensures Places(plan[i := drawn], m) == {}
  {
    assert i in Places(plan, m);
    var one := {i};
    SubsetCardinality(one, Places(plan, m));
    assert Places(plan[i := drawn], m) <= Places(plan, m);
    assert i !in Places(plan[i := drawn], m);
  }

  lemma {:induction false} ElementsBound(s: seq<MemberId>)
    ensures |Elements(s)| <= |s|
  {
    if s != [] {
      ElementsBound(s[..|s| - 1]);
      assert Elements(s) == Elements(s[..|s| - 1]) + {s[|s| - 1]};
    }
  }

  /** When k divides n, a random plan gives everybody one place, and each round has k of them. */
  lemma FairPlan(ordered: seq<MemberId>, k: nat, clock: nat -> nat, i: nat)
    requires Distinct(ordered) && k > 0 && |ordered| % k == 0 && i < |Plan(ordered, k, Random, {}, clock)|
    ensures var plan := Plan(ordered, k, Random, {}, clock);
      && (forall m :: m in ordered ==> |Places(plan, m)| == 1)
      && Distinct(plan[i]) && Elements(plan[i]) <= Elements(ordered) && |plan[i]| == k
  {
    var plan := Plan(ordered, k, Random, {}, clock);
    hide Places, Distinct, PlannedRound;
    assert |plan| == RoundsCount(|ordered|, k) && plan[i] == PlannedRound(ordered, k, Random, {}, clock, i);
    hide Plan, RoundsCount;
    NotFewer(|ordered|, k);
    PlanRoundsDistinct(ordered, k, Random, clock);
    Fairness.RandomRoundSize(ordered, k, {}, clock, i);
    Fairness.PlanPaysEachOnceIff(ordered, k, Random, clock);
    forall m | m in ordered ensures |Places(plan, m)| == 1 { PlacesCount(plan, m); }
  }

  lemma NotFewer(n: nat, k: nat)
    requires n > 0 && k > 0 && n % k == 0
    ensures k <= n
  {
  }

  // ---- one re-roll ----

  /** The course after the draw. */
  function Redrawn(t: Course, r: int, drawn: seq<MemberId>): Course
    requires t.base <= r < t.base + |t.plan|
  {
    t.(plan := t.plan[r - t.base := drawn])
  }

  /** A running random cycle on its course, and an accepted re-roll of one of its rounds. */
  ghost predicate Rerolls(w: World, ev: Event, t: Course) {
    && Valid(w) && OnCourse(w, t) && t.how == Random && Active(w, t.cycle)
    && ev.Reroll? && ev.c == t.cycle && CallOf(w, ev).Accepted?
  }

  lemma RerollWrite(w: World, ev: Event)
    requires ev.Reroll? && CallOf(w, ev).Accepted?
    ensures LoadRound(w, ev.g, ev.c, ev.r)
    ensures |CallOf(w, ev).writes| == 1
    ensures var x := CallOf(w, ev).writes[0]; x.ReplaceRecipients? && x.round == ev.r && Step(w, ev) == Apply(w, x)
  {
    hide RerollPlan, Apply;
    ApplyOne(w, CallOf(w, ev).writes[0]);
  }

  lemma DrawnFits(w: World, x: Write, t: Course)
    requires Guard(w, x) && x.ReplaceRecipients? && Active(w, t.cycle) && SameMethod(w, t)
    requires HasRound(w, x.round) && w.rounds[x.round].cycleId == t.cycle
    ensures |x.members| <= t.k
  {
  }

  /** The re-rolled cycle is on a new course, which differs in this round only. */
  lemma RerollChangesCourse(w: World, ev: Event, t: Course) returns (drawn: seq<MemberId>)
    requires Rerolls(w, ev, t)
    ensures ev.Reroll? && t.base <= ev.r < t.base + |t.plan| && |drawn| <= t.k
    ensures OnCourse(Step(w, ev), Redrawn(t, ev.r, drawn))
    ensures Recipients(w, ev.r) == Elements(t.plan[ev.r - t.base]) && Recipients(Step(w, ev), ev.r) == Elements(drawn)
  {
    hide Valid, CallOf, Guard, Apply, Recipients, SameMethod, Step;
    EventGuarded(w, ev);
    RerollWrite(w, ev);
    var x := CallOf(w, ev).writes[0];
    assert CallOf(w, ev).writes == [x];
    FirstOfOne(w, x);
    drawn := x.members;
    DrawnFits(w, x, t);
    Fulfilment.WriteKeepsRounds(w, x, t);
    assert Follows(w, t, ev.r);
    WriteOnRound(w, x, ev.r);
    assert Rounds(w, RoundsOf(t));
    forall r | t.base <= r < t.base + |t.plan| ensures Follows(Step(w, ev), Redrawn(t, ev.r, drawn), r) {
      assert Follows(w, t, r);
      WriteOnRound(w, x, r);
    }
    RedrawnRounds(Step(w, ev), t, ev.r, drawn);
  }

  lemma RedrawnRounds(w: World, t: Course, r: int, drawn: seq<MemberId>)
    requires t.base <= r < t.base + |t.plan|
    ensures RoundsOf(Redrawn(t, r, drawn)) == RoundsOf(t)
    ensures SameMethod(w, Redrawn(t, r, drawn)) <==> SameMethod(w, t)
  {
  }

  // ---- who is named ----

  predicate NamedAt(w: World, c: int, m: int, r: int) {
    HasRound(w, r) && w.rounds[r].cycleId == c && m in Recipients(w, r)
  }

  /** The member is a recipient of exactly one round of the cycle. */
  ghost predicate NamedExactlyOnce(w: World, c: int, m: int) {
    exists r :: NamedAt(w, c, m, r) && forall q :: NamedAt(w, c, m, q) ==> q == r
  }

  lemma NamedWherePlanned(w: World, t: Course, m: int, r: int)
    requires OnCourse(w, t)
    ensures NamedAt(w, t.cycle, m, r) <==> (r - t.base) in Places(t.plan, m)
  {
    hide Recipients, SameMethod;
    if t.base <= r < t.base + |t.plan| { assert Follows(w, t, r); }
  }

  lemma NamedOnceIsOnePlace(w: World, t: Course, m: int)
    requires OnCourse(w, t)
    ensures NamedExactlyOnce(w, t.cycle, m) <==> |Places(t.plan, m)| == 1
  {
    hide OnCourse, NamedAt, Places;
    var places := Places(t.plan, m);
    forall r ensures NamedAt(w, t.cycle, m, r) <==> (r - t.base) in places { NamedWherePlanned(w, t, m, r); }
    if NamedExactlyOnce(w, t.cycle, m) {
      var r :| NamedAt(w, t.cycle, m, r) && forall q :: NamedAt(w, t.cycle, m, q) ==> q == r;
      forall i | i in places ensures i == r - t.base { assert NamedAt(w, t.cycle, m, i + t.base); }
      assert places == {r - t.base};
    }
    if |places| == 1 {
      var i := SomeElement(places);
      SubsetCardinality({i}, places);
      assert NamedAt(w, t.cycle, m, i + t.base);
    }
  }

  /** When k divides the roster the course names everybody once. A re-roll of any of its rounds, whatever the clock
      reads and whoever joined or left, keeps that if and only if it draws the very same members. A change can be
      neither made up for by the later rounds, which stay, nor hidden by a newcomer, for the round gets at most k. */
  lemma RerollKeepsNamesIff(w: World, ev: Event, t: Course, ordered: seq<MemberId>, clock: nat -> nat)
    requires Rerolls(w, ev, t) && t.plan == Plan(ordered, t.k, Random, {}, clock)
    requires Distinct(ordered) && t.k > 0 && |ordered| % t.k == 0
    ensures (forall m :: m in ordered ==> NamedExactlyOnce(Step(w, ev), t.cycle, m)) <==>
      Recipients(Step(w, ev), ev.r) == Recipients(w, ev.r)
  {
    hide OnCourse, Recipients, Step, Plan, Places, NamedExactlyOnce, Distinct, Rerolls;
    var drawn := RerollChangesCourse(w, ev, t);
    FairPlan(ordered, t.k, clock, ev.r - t.base);
    RedrawnPlan(t.plan, ordered, ev.r - t.base, drawn);
    forall m | m in ordered
      ensures NamedExactlyOnce(Step(w, ev), t.cycle, m) <==> |Places(t.plan[ev.r - t.base := drawn], m)| == 1
    {
      NamedOnceIsOnePlace(Step(w, ev), Redrawn(t, ev.r, drawn), m);
    }
  }

  // ---- from the opening over a re-roll to the last payout ----

  lemma {:induction false} LeftAloneAlike(w: World, evs: seq<Event>, t: Course, u: Course)
    requires LeftAloneRun(w, evs, t) && t.cycle == u.cycle && t.how == u.how
    ensures LeftAloneRun(w, evs, u)
  {
    hide CallOf, Run;
    if evs != [] { LeftAloneAlike(w, evs[..|evs| - 1], t, u); }
  }

  /** The same for payments: a random cycle whose roster k divides, opened, re-rolled once while it runs and paid to
      the end, has paid everybody exactly once if and only if the re-roll changed nothing. */
  lemma RerollKeepsPaymentsIff(w: World, g: int, now: int, clock: nat -> nat, evs: seq<Event>, ev: Event,
                               more: seq<Event>)
    requires Valid(w) && OpenInternalCall(w, g, now, clock).Accepted? && w.groups[g].settings.payoutMethod == Random
    requires var k := w.groups[g].settings.recipients; k > 0 && |Ids(Ordered(Roster(w, g)))| % k == 0
    requires var w1, t := Outcome(w, OpenInternalCall(w, g, now, clock)), NextCourse(w, g, clock);
      var w2 := Run(w1, evs);
      && LeftAloneRun(w1, evs, t)
      && Active(w2, t.cycle) && ev.Reroll? && ev.c == t.cycle && CallOf(w2, ev).Accepted?
      && LeftAloneRun(Step(w2, ev), more, t)
      && forall q :: t.base <= q < t.base + |t.plan| ==> Settled(Run(Step(w2, ev), more), q)
    ensures var w2 := Run(Outcome(w, OpenInternalCall(w, g, now, clock)), evs);
      var w3 := Step(w2, ev);
      (forall m :: m in Ids(Ordered(Roster(w, g))) ==> PaidExactlyOnce(Run(w3, more), |w.cycles|, m)) <==>
        Recipients(w3, ev.r) == Recipients(w2, ev.r)
  {
    hide Valid, OpenInternalCall, Run, OnCourse, LeftAloneRun, Settled, PaidExactlyOnce, Plan, Places, Roster, Ordered,
      Recipients, Step, CallOf, Distinct, Ids;
    OpeningWrites(w, g, now, clock);
    var w1, t := Outcome(w, OpenInternalCall(w, g, now, clock)), NextCourse(w, g, clock);
    var w2, ordered := Run(w1, evs), Ids(Ordered(Roster(w, g)));
    OpeningSetsCourse(w, g, now, clock);
    OpeningIsValid(w, g, now, clock);
    RunKeepsCourse(w1, evs, t);
    RunKeepsValid(w1, evs);
    RosterIds(w, g);
    assert Rerolls(w2, ev, t);
    RedrawnIsPaidIff(w2, ev, more, t, ordered, clock);
  }

  lemma RedrawnIsPaidIff(w: World, ev: Event, more: seq<Event>, t: Course, ordered: seq<MemberId>, clock: nat -> nat)
    requires Rerolls(w, ev, t) && Valid(w) && t.how == Random && t.plan == Plan(ordered, t.k, Random, {}, clock)
    requires Distinct(ordered) && t.k > 0 && |ordered| % t.k == 0 && LeftAloneRun(Step(w, ev), more, t)
    requires forall q :: t.base <= q < t.base + |t.plan| ==> Settled(Run(Step(w, ev), more), q)
    ensures (forall m :: m in ordered ==> PaidExactlyOnce(Run(Step(w, ev), more), t.cycle, m)) <==>
      Recipients(Step(w, ev), ev.r) == Recipients(w, ev.r)
  {
    hide Valid, OnCourse, Recipients, Step, Run, Plan, Places, PaidExactlyOnce, Distinct, Rerolls, LeftAloneRun,
      Settled;
    var drawn := RerollChangesCourse(w, ev, t);
    var u := Redrawn(t, ev.r, drawn);
    StepKeepsValid(w, ev);
    LeftAloneAlike(Step(w, ev), more, t, u);
    RunKeepsCourse(Step(w, ev), more, u);
    FairPlan(ordered, t.k, clock, ev.r - t.base);
    RedrawnPlan(t.plan, ordered, ev.r - t.base, drawn);
    forall m | m in ordered
      ensures PaidExactlyOnce(Run(Step(w, ev), more), t.cycle, m) <==> |Places(u.plan, m)| == 1
    {
      OnceIsOnePlace(Run(Step(w, ev), more), u, m);
    }
  }
}
