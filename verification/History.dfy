/** What can never be undone: statuses and totals only rise, paid payouts stay as they are. From it follow the
    conservation of payouts, the life cycle of a group's cycles, and the exit rule for members. */
module History {
  import opened Arith
  import opened Common
  import opened Tables
  import opened Cycles
  import opened Payouts
  import opened Members
  import opened Backend

  function CycleRank(s: CycleStatus): nat {
    match s case Open => 0 case InProgress => 1 case CycleCompleted => 2
  }

  function RoundRank(s: RoundStatus): nat {
    match s case RoundPending => 0 case Collecting => 1 case PaidOut => 2 case RoundCompleted => 3
  }

  ghost predicate CyclesRise(a: seq<Cycle>, b: seq<Cycle>) {
    |a| <= |b| && forall c :: 0 <= c < |a| ==>
      a[c].groupId == b[c].groupId && a[c].number == b[c].number && CycleRank(a[c].status) <= CycleRank(b[c].status)
  }

  ghost predicate RoundsRise(a: seq<Round>, b: seq<Round>) {
    |a| <= |b| && forall r :: 0 <= r < |a| ==>
      a[r].cycleId == b[r].cycleId && a[r].number == b[r].number && a[r].dueDate == b[r].dueDate
      && RoundRank(a[r].status) <= RoundRank(b[r].status) && a[r].total <= b[r].total
  }

  ghost predicate PaidStays(w: World, w': World) {
    && (forall p :: Distributed(w, p) ==> p in w'.payouts && w'.payouts[p] == w.payouts[p])
    && (forall r :: 0 <= r < |w.rounds| && AnyDistributed(w, r) ==> PayoutsOf(w', r) == PayoutsOf(w, r))
  }

  /** w' is a possible future of w. */
  ghost predicate Later(w: World, w': World) {
    && CyclesRise(w.cycles, w'.cycles) && RoundsRise(w.rounds, w'.rounds) && PaidStays(w, w')
    && (forall k :: Dated(w, k) ==> Dated(w', k))
  }

  lemma LaterTransitive(a: World, b: World, c: World)
    requires Later(a, b) && Later(b, c)
    ensures Later(a, c)
  {
    forall r | 0 <= r < |a.rounds| && AnyDistributed(a, r) ensures PayoutsOf(c, r) == PayoutsOf(a, r) {
      var p :| p in PayoutsOf(a, r) && Distributed(a, p);
      assert p in PayoutsOf(b, r) && Distributed(b, p);
    }
  }

  lemma WriteKeepsPaid(w: World, x: Write)
    requires Valid(w) && Guard(w, x)
    ensures PaidStays(w, Apply(w, x))
  {
    assert forall p :: p in w.payouts ==> HasRound(w, p.round) by {
      forall p | p in w.payouts ensures HasRound(w, p.round) { assert PayoutRefers(w, p.round, p.member); }
    }
    hide Valid, Guard, Apply, RecipientKeys;
    forall p | Distributed(w, p) ensures p in Apply(w, x).payouts && Apply(w, x).payouts[p] == w.payouts[p] {
      WriteOnPayouts(w, x, p.round);
    }
    forall r | 0 <= r < |w.rounds| && AnyDistributed(w, r) ensures PayoutsOf(Apply(w, x), r) == PayoutsOf(w, r) {
      WriteOnPayouts(w, x, r);
    }
  }

  lemma WriteRaisesCycles(w: World, x: Write)
    requires Valid(w) && Guard(w, x)
    ensures CyclesRise(w.cycles, Apply(w, x).cycles)
  {
    hide Valid;
  }

  lemma WriteRaisesRounds(w: World, x: Write)
    requires Valid(w) && Guard(w, x)
    ensures RoundsRise(w.rounds, Apply(w, x).rounds)
  {
    assert x.PutContribution? ==> RowSound(w, x.key, x.row);
    assert RoundsSound(w);
    hide References, RowsSound, Numbered, PayoutsAlike;
  }

  lemma WriteKeepsDates(w: World, x: Write)
    requires Guard(w, x)
    ensures forall k :: Dated(w, k) ==> Dated(Apply(w, x), k)
  {
    hide RowSound, RowRefers, PayoutRefers, Fits, PlanSound, AnyDistributed, AllDistributed, PayoutsOf, CountCycles;
  }

  lemma WriteIsLater(w: World, x: Write)
    requires Valid(w) && Guard(w, x)
    ensures Later(w, Apply(w, x))
  {
    hide PaidStays, CyclesRise, RoundsRise, Valid, Guard, Apply, Dated;
    WriteKeepsPaid(w, x);
    WriteRaisesCycles(w, x);
    WriteRaisesRounds(w, x);
    WriteKeepsDates(w, x);
  }

  lemma {:induction false} WritesAreLater(w: World, xs: seq<Write>)
    requires Valid(w) && Guarded(w, xs)
    ensures Later(w, ApplyAll(w, xs))
  {
    if xs != [] {
      var front := xs[..|xs| - 1];
      hide Valid, Guard, Later, Apply;
      WritesAreLater(w, front);
      WritesKeepValid(w, front);
      WriteIsLater(ApplyAll(w, front), xs[|xs| - 1]);
      LaterTransitive(w, ApplyAll(w, front), ApplyAll(w, xs));
    } else {
      LaterReflexive(w);
    }
  }

  lemma LaterReflexive(w: World)
    ensures Later(w, w)
  {
  }

  lemma StepIsLater(w: World, ev: Event)
    requires Valid(w)
    ensures Later(w, Step(w, ev))
  {
    hide Valid, Later, CallOf;
    if CallOf(w, ev).Accepted? {
      EventGuarded(w, ev);
      WritesAreLater(w, CallOf(w, ev).writes);
    } else {
      LaterReflexive(w);
    }
  }

  /** Over any run statuses and totals only rise, dated rows stay dated, and paid payouts stay exactly as they are. */
  lemma {:induction false} RunIsLater(w: World, evs: seq<Event>)
    requires Valid(w)
    ensures Later(w, Run(w, evs)) && Valid(Run(w, evs))
  {
    hide Valid, Later, Step;
    if evs != [] {
      var front := evs[..|evs| - 1];
      RunIsLater(w, front);
      StepKeepsValid(Run(w, front), evs[|evs| - 1]);
      StepIsLater(Run(w, front), evs[|evs| - 1]);
      LaterTransitive(w, Run(w, front), Run(w, evs));
    } else {
      LaterReflexive(w);
    }
  }

  // ---- payout conservation ----

  function PayoutAmount(w: World): PayoutKey -> int {
    p => if p in w.payouts then w.payouts[p].amount else 0
  }

  function PaidKeys(w: World, r: int): set<PayoutKey> {
    set p | p in w.payouts && p.round == r && w.payouts[p].paidAt.Some?
  }

  /** The money a round has paid out. */
  ghost function PaidOutSum(w: World, r: int): int {
    Sum(PaidKeys(w, r), PayoutAmount(w))
  }

  /** The state right after the recipients were marked paid leads on to the end of the call. */
  lemma PayOutPasses(w: World, ev: Event)
    requires Valid(w) && ev.PayOut? && CallOf(w, ev).Accepted?
    ensures var w1 := Apply(w, PayWrite(w, ev.g, ev.r, ev.paidAt)); Valid(w1) && Later(w1, Step(w, ev))
  {
    hide CompleteRoundWrites, Valid, Later, PerRecipient;
    var x := PayWrite(w, ev.g, ev.r, ev.paidAt);
    var w1 := Apply(w, x);
    assert CallOf(w, ev).writes == [x] + CompleteRoundWrites(w1, ev.r, ev.now, ev.clock);
    assert Guard(w, x) && HasRound(w1, ev.r) && AllDistributed(w1, ev.r);
    WriteKeepsValid(w, x);
    hide CallOf, Guard, Apply, AllDistributed;
    CompleteRoundGuarded(w1, ev.r, ev.now, ev.clock);
    WritesAreLater(w1, CompleteRoundWrites(w1, ev.r, ev.now, ev.clock));
    ApplyOne(w, x);
    ApplyAllConcat(w, [x], CompleteRoundWrites(w1, ev.r, ev.now, ev.clock));
  }

  lemma SettledRoundStays(w: World, w': World, r: int, q: int)
    requires Later(w, w') && HasRound(w, r) && PayoutsOf(w, r) != {}
    requires forall p :: p in PayoutsOf(w, r) ==> Distributed(w, p) && w.payouts[p].amount == q
    ensures PayoutsOf(w', r) == PayoutsOf(w, r)
    ensures forall p :: p in PayoutsOf(w, r) ==> w'.payouts[p] == w.payouts[p]
    ensures PaidOutSum(w', r) == q * |PayoutsOf(w, r)|
  {
    var p :| p in PayoutsOf(w, r);
    assert Distributed(w, p);
    forall k | k in PayoutsOf(w, r) ensures w'.payouts[k] == w.payouts[k] { assert Distributed(w, k); }
    assert PaidKeys(w', r) == PayoutsOf(w, r);
    SumConstant(PaidKeys(w', r), PayoutAmount(w'), q);
  }

  lemma EqualShares(total: nat, m: nat, q: nat)
    requires m > 0 && q == total / m
    ensures q * m <= total < q * m + m
  {
    DivMod(total, m);
  }

  /** Distributing a round pays its m recipients one equal amount q, for good: in every later state the round's
      payouts are these rows, and a second distribution is refused. When the total T covered the recipients,
      q is the largest equal share, and what was paid never exceeds what is collected. Otherwise q is the
      contribution amount. */
  lemma PayoutConservation(w: World, ev: Event, evs: seq<Event>)
    requires Valid(w) && ev.PayOut? && CallOf(w, ev).Accepted?
    ensures var w', r, m, q := Run(Step(w, ev), evs), ev.r, |PayoutsOf(w, ev.r)|, PerRecipient(w, ev.g, ev.r);
      && PayoutsOf(w', r) == PayoutsOf(w, r)
      && (forall p :: p in PayoutsOf(w, r) ==> w'.payouts[p] == Payout(q, Some(ev.paidAt(p.member))))
      && PaidOutSum(w', r) == q * m
      && (w.rounds[r].total >= m ==>
          q * m <= w.rounds[r].total < q * m + m && HasRound(w', r) && PaidOutSum(w', r) <= w'.rounds[r].total)
      && (w.rounds[r].total < m ==> q == w.groups[ev.g].settings.amount)
  {
    var w1, r, q := Apply(w, PayWrite(w, ev.g, ev.r, ev.paidAt)), ev.r, PerRecipient(w, ev.g, ev.r);
    var w', m := Run(Step(w, ev), evs), |PayoutsOf(w, r)|;
    PayOutPasses(w, ev);
    StepKeepsValid(w, ev);
    RunIsLater(Step(w, ev), evs);
    LaterTransitive(w1, Step(w, ev), w');
    PaidNow(w, ev);
    SettledRoundStays(w1, w', r, q);
    ShareOf(w, ev.g, r);
    assert w.rounds[r].total == w1.rounds[r].total <= w'.rounds[r].total;
  }

  /** Right after the distribution the round has paid out no more than it collected if and only if every recipient's
      equal share was positive, or the group's contribution amount is 0. */
  lemma PaidWithinTotalIff(w: World, ev: Event)
    requires Valid(w) && ev.PayOut? && CallOf(w, ev).Accepted?
    ensures var w', r := Step(w, ev), ev.r;
      && HasRound(w', r) && w'.rounds[r].total == w.rounds[r].total
      && (PaidOutSum(w', r) <= w'.rounds[r].total <==>
          w.rounds[r].total >= |PayoutsOf(w, r)| || w.groups[ev.g].settings.amount == 0)
  {
    hide Valid, Step, Run, PaidOutSum, PerRecipient, CallOf;
    PayOutKeepsTotal(w, ev);
    var r, m, q := ev.r, |PayoutsOf(w, ev.r)|, PerRecipient(w, ev.g, ev.r);
    assert Run(Step(w, ev), []) == Step(w, ev) by { NoFurtherCalls(Step(w, ev)); }
    PayoutConservation(w, ev, []);
    if w.rounds[r].total < m {
      if q > 0 { MulMonotone(1, q, m); } else { assert q * m == 0; }
    }
  }

  lemma NoFurtherCalls(w: World)
    ensures Run(w, []) == w
  {
  }

  predicate CreditsNothing(xs: seq<Write>) {
    forall i :: 0 <= i < |xs| ==> !xs[i].PutContribution?
  }

  lemma {:induction false} WritesKeepTotal(w: World, xs: seq<Write>, r: int)
    requires CreditsNothing(xs) && HasRound(w, r)
    ensures HasRound(ApplyAll(w, xs), r) && ApplyAll(w, xs).rounds[r].total == w.rounds[r].total
  {
    if xs != [] {
      var front, last := xs[..|xs| - 1], xs[|xs| - 1];
      assert CreditsNothing(front) && !last.PutContribution?;
      WritesKeepTotal(w, front, r);
    }
  }

  lemma PayOutKeepsTotal(w: World, ev: Event)
    requires Valid(w) && ev.PayOut? && CallOf(w, ev).Accepted?
    ensures HasGroup(w, ev.g) && HasRound(w, ev.r) && PayoutsOf(w, ev.r) != {} && w.rounds[ev.r].total >= 0
    ensures HasRound(Step(w, ev), ev.r) && Step(w, ev).rounds[ev.r].total == w.rounds[ev.r].total
  {
    hide Apply, CreditsNothing, CompleteRoundWrites;
    hide References, RowsSound, OnlyLastActive, Consecutive, PayoutsAlike, RoundsSound, RoundsBounded;
    PayOutCreditsNothing(w, ev);
    WritesKeepTotal(w, CallOf(w, ev).writes, ev.r);
  }

  lemma PayOutCreditsNothing(w: World, ev: Event)
    requires ev.PayOut? && CallOf(w, ev).Accepted?
    ensures CreditsNothing(CallOf(w, ev).writes)
  {
    hide CreditsNothing, CompleteRoundWrites;
    var x := PayWrite(w, ev.g, ev.r, ev.paidAt);
    assert CallOf(w, ev).writes == [x] + CompleteRoundWrites(Apply(w, x), ev.r, ev.now, ev.clock);
    CompletionCreditsNothing(Apply(w, x), ev.r, ev.now, ev.clock);
    OneMoreWrite(x, CompleteRoundWrites(Apply(w, x), ev.r, ev.now, ev.clock));
  }

  lemma CompletionCreditsNothing(w: World, r: int, now: int, clock: nat -> nat)
    requires HasRound(w, r)
    ensures CreditsNothing(CompleteRoundWrites(w, r, now, clock))
  {
    hide NewPlan, Apply;
  }

  lemma OneMoreWrite(x: Write, xs: seq<Write>)
    requires !x.PutContribution? && CreditsNothing(xs)
    ensures CreditsNothing([x] + xs)
  {
  }

  lemma PaidNow(w: World, ev: Event)
    requires Valid(w) && ev.PayOut? && CallOf(w, ev).Accepted?
    ensures var w1 := Apply(w, PayWrite(w, ev.g, ev.r, ev.paidAt));
      && PayoutsOf(w1, ev.r) == PayoutsOf(w, ev.r) != {}
      && (forall p :: p in PayoutsOf(w1, ev.r) ==>
          w1.payouts[p] == Payout(PerRecipient(w, ev.g, ev.r), Some(ev.paidAt(p.member))))
      && HasRound(w, ev.r) && w1.rounds == w.rounds
  {
    hide Valid, CompleteRoundWrites, PerRecipient;
  }

  lemma ShareOf(w: World, g: int, r: int)
    requires HasGroup(w, g) && HasRound(w, r) && PayoutsOf(w, r) != {} && w.rounds[r].total >= 0
    ensures var q, m := PerRecipient(w, g, r), |PayoutsOf(w, r)|;
      && (w.rounds[r].total >= m ==> q * m <= w.rounds[r].total < q * m + m)
      && (w.rounds[r].total < m ==> q == w.groups[g].settings.amount)
  {
    var total, m := w.rounds[r].total, |PayoutsOf(w, r)|;
    EqualShares(total, m, total / m);
    if total >= m {
      MulCancelLess(0, total / m, m) by { MulStep(total / m, m); }
    } else {
      DivUnique(total, 0, m, total);
    }
  }

  lemma SecondPayoutRefused(w: World, ev: Event, evs: seq<Event>, again: Event)
    requires Valid(w) && ev.PayOut? && CallOf(w, ev).Accepted? && again.PayOut? && again.r == ev.r
    ensures CallOf(Run(Step(w, ev), evs), again).Refused?
  {
    hide Run, Step, Valid, AnyDistributed;
    PayoutConservation(w, ev, evs);
    var w' := Run(Step(w, ev), evs);
    var p :| p in PayoutsOf(w, ev.r);
    assert p in PayoutsOf(w', ev.r) && Distributed(w', p);
    PaidRoundRefuses(w', again, p);
  }

  lemma PaidRoundRefuses(w: World, ev: Event, p: PayoutKey)
    requires ev.PayOut? && p in PayoutsOf(w, ev.r) && Distributed(w, p)
    ensures CallOf(w, ev).Refused?
  {
    hide CompleteRoundWrites, AllDistributed;
    assert AnyDistributed(w, ev.r);
  }

  // ---- the life cycle of a group ----

  /** The numbers of the group's cycles among the first n. */
  ghost function NumbersOf(cycles: seq<Cycle>, g: int, n: nat): set<int>
    requires n <= |cycles|
  {
    set c | 0 <= c < n && cycles[c].groupId == g :: cycles[c].number
  }

  function OneTo(n: nat): set<int> {
    if n == 0 then {} else OneTo(n - 1) + {n}
  }

  lemma NumbersStep(cycles: seq<Cycle>, g: int, n: nat)
    requires 0 < n <= |cycles|
    ensures NumbersOf(cycles, g, n)
            == NumbersOf(cycles, g, n - 1) + if cycles[n - 1].groupId == g then {cycles[n - 1].number} else {}
  {
  }

  lemma NumberOf(cycles: seq<Cycle>, c: int)
    requires Consecutive(cycles) && 0 <= c < |cycles|
    ensures cycles[c].number == CountCycles(cycles, cycles[c].groupId, c) + 1
  {
    hide CountCycles;
  }

  lemma {:induction false} NumbersAreOneToN(cycles: seq<Cycle>, g: int, n: nat)
    requires Consecutive(cycles) && n <= |cycles|
    ensures NumbersOf(cycles, g, n) == OneTo(CountCycles(cycles, g, n))
  {
    hide Consecutive, NumbersOf;
    if n > 0 {
      NumbersAreOneToN(cycles, g, n - 1);
      NumbersStep(cycles, g, n);
      NumberOf(cycles, n - 1);
    } else {
      NoNumbers(cycles, g);
    }
  }

  lemma NoNumbers(cycles: seq<Cycle>, g: int)
    ensures NumbersOf(cycles, g, 0) == {}
  {
  }

  lemma {:induction false} CountMonotone(cycles: seq<Cycle>, g: int, c: nat, d: nat)
    requires c <= d <= |cycles|
    ensures CountCycles(cycles, g, c) <= CountCycles(cycles, g, d)
    ensures (forall e :: c <= e < d ==> cycles[e].groupId != g) ==>
      CountCycles(cycles, g, c) == CountCycles(cycles, g, d)
  {
    if c < d { CountMonotone(cycles, g, c, d - 1); }
  }

  /** In every reachable state a group's cycle numbers are exactly 1..N, given out in order, and at most one
      cycle of the group, the one numbered N, is open or in progress. */
  lemma GroupLifecycle(w: World, evs: seq<Event>, g: int)
    requires Fresh(w)
    ensures var cycles := Run(w, evs).cycles;
      && NumbersOf(cycles, g, |cycles|) == OneTo(CountCycles(cycles, g, |cycles|))
      && (forall c, d :: 0 <= c < d < |cycles| && cycles[c].groupId == g && cycles[d].groupId == g ==>
            (cycles[c].number < cycles[d].number && cycles[c].status == CycleCompleted))
      && (forall c :: 0 <= c < |cycles| && cycles[c].groupId == g && cycles[c].status != CycleCompleted ==>
            cycles[c].number == CountCycles(cycles, g, |cycles|))
  {
    FreshIsValid(w);
    RunKeepsValid(w, evs);
    NumbersOrdered(Run(w, evs).cycles, g);
    NumbersAreOneToN(Run(w, evs).cycles, g, |Run(w, evs).cycles|);
  }

  lemma NumbersAscend(cycles: seq<Cycle>, c: int, d: int)
    requires Consecutive(cycles) && 0 <= c < d < |cycles| && cycles[c].groupId == cycles[d].groupId
    ensures cycles[c].number < cycles[d].number
  {
    NumberOf(cycles, c);
    NumberOf(cycles, d);
    hide Consecutive;
    CountMonotone(cycles, cycles[c].groupId, c + 1, d);
  }

  lemma ActiveIsNewest(cycles: seq<Cycle>, c: int)
    requires Consecutive(cycles) && OnlyLastActive(cycles) && 0 <= c < |cycles| && cycles[c].status != CycleCompleted
    ensures cycles[c].number == CountCycles(cycles, cycles[c].groupId, |cycles|)
  {
    NumberOf(cycles, c);
    hide Consecutive;
    CountMonotone(cycles, cycles[c].groupId, c + 1, |cycles|);
  }

  lemma NumbersOrdered(cycles: seq<Cycle>, g: int)
    requires Consecutive(cycles) && OnlyLastActive(cycles)
    ensures forall c, d :: 0 <= c < d < |cycles| && cycles[c].groupId == g && cycles[d].groupId == g ==>
      (cycles[c].number < cycles[d].number && cycles[c].status == CycleCompleted)
    ensures forall c :: 0 <= c < |cycles| && cycles[c].groupId == g && cycles[c].status != CycleCompleted ==>
      cycles[c].number == CountCycles(cycles, g, |cycles|)
  {
    hide Consecutive, CountCycles;
    forall c, d | 0 <= c < d < |cycles| && cycles[c].groupId == g && cycles[d].groupId == g
      ensures cycles[c].number < cycles[d].number
    {
      NumbersAscend(cycles, c, d);
    }
    forall c | 0 <= c < |cycles| && cycles[c].groupId == g && cycles[c].status != CycleCompleted
      ensures cycles[c].number == CountCycles(cycles, g, |cycles|)
    {
      ActiveIsNewest(cycles, c);
    }
  }

  lemma OneRunningCycle(cycles: seq<Cycle>, c: int, d: int)
    requires OnlyLastActive(cycles) && 0 <= c < |cycles| && 0 <= d < |cycles| && cycles[c].groupId == cycles[d].groupId
    requires cycles[c].status != CycleCompleted && cycles[d].status != CycleCompleted
    ensures c == d
  {
  }

  /** A member who leaves while a cycle of the group is in progress holds a paid payout of that cycle, then and
      for ever. */
  lemma LeaverWasPaid(w: World, ev: Event, evs: seq<Event>, c: int)
    requires Valid(w) && ev.Leave? && CallOf(w, ev).Accepted?
    requires HasCycle(w, c) && w.cycles[c].groupId == ev.g && w.cycles[c].status == InProgress
    ensures PaidInCycle(Run(Step(w, ev), evs), c, ev.m)
  {
    OneRunningCycle(w.cycles, c, FirstInProgress(w.cycles, ev.g).value);
    assert PaidInCycle(w, c, ev.m);
    StepIsLater(w, ev);
    StepKeepsValid(w, ev);
    RunIsLater(Step(w, ev), evs);
    LaterTransitive(w, Step(w, ev), Run(Step(w, ev), evs));
    PaidInCycleStays(w, Run(Step(w, ev), evs), c, ev.m);
  }

  lemma PaidInCycleStays(w: World, w': World, c: int, m: int)
    requires Later(w, w') && PaidInCycle(w, c, m)
    ensures PaidInCycle(w', c, m)
  {
    var r :| 0 <= r < |w.rounds| && w.rounds[r].cycleId == c && Distributed(w, PayoutKey(r, m));
    assert w'.rounds[r].cycleId == c && Distributed(w', PayoutKey(r, m));
  }
}
