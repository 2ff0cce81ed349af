/** What a round's stored total means: the exact law between totalCollectedNgwe and the contribution rows,
    over every run, and when the stored total and the reported one coincide. */
module LedgerLaw {
  import opened Arith
  import opened Common
  import opened Tables
  import opened Cycles
  import opened Contributions
  import opened Payouts
  import opened Backend

  function DatedKeys(w: World, r: int): set<Key> {
    set k | k in w.contributions && k.round == r && w.contributions[k].paidDate.Some?
  }

  predicate InActiveCycle(w: World, r: int) {
    && HasRound(w, r) && Active(w, w.rounds[r].cycleId) && HasGroup(w, w.cycles[w.rounds[r].cycleId].groupId)
  }

  function AmountOf(w: World, r: int): nat
    requires InActiveCycle(w, r)
  {
    w.groups[GroupOfRound(w, r)].settings.amount
  }

  /** The round of an active cycle has collected the contribution amount once per dated row, plus `drift` times. */
  ghost predicate LawAt(w: World, r: int, drift: int) {
    && (!HasRound(w, r) ==> drift == 0)
    && (InActiveCycle(w, r) ==> w.rounds[r].total == Times(|DatedKeys(w, r)| + drift, AmountOf(w, r)))
  }

  /** The two calls that move a total away from its rows: approving a row that already has a payment date
      credits it again, and recording an undated waived row dates it without a credit. */
  function EventDrift(w: World, ev: Event, r: int): int {
    if ev.Approve? && ev.r == r && CallOf(w, ev).Accepted? && Dated(w, Key(ev.c, r, ev.m)) then 1
    else if ev.Record? && ev.r == r && CallOf(w, ev).Accepted? && Key(ev.c, r, ev.m) in w.contributions
            && w.contributions[Key(ev.c, r, ev.m)].status == Waived && !Dated(w, Key(ev.c, r, ev.m)) then -1
    else 0
  }

  /** Approvals of already-dated rows minus records over an undated waiver, counted over the run. */
  function RunDrift(w: World, evs: seq<Event>, r: int): int {
    if evs == [] then 0 else
      RunDrift(w, evs[..|evs| - 1], r) + EventDrift(Run(w, evs[..|evs| - 1]), evs[|evs| - 1], r)
  }

  function WriteDrift(w: World, x: Write, r: int): int {
    if x.PutContribution? && x.key.round == r then
      (if x.credited then 1 else 0) - (if x.row.paidDate.Some? && !Dated(w, x.key) then 1 else 0)
    else 0
  }

  lemma WriteKeepsLaw(w: World, x: Write, r: int, d: int)
    requires Valid(w) && Guard(w, x) && LawAt(w, r, d)
    ensures LawAt(Apply(w, x), r, d + WriteDrift(w, x, r))
  {
    hide Times, Apply, Valid, Guard, DatedKeys, AmountOf, InActiveCycle;
    if x.PutContribution? && x.key.round == r {
      PutKeepsLaw(w, x, r, d);
    } else if HasRound(w, r) {
      OtherWriteKeepsLaw(w, x, r);
    } else {
      NewRoundLaw(w, x, r);
    }
  }

  lemma OtherWriteKeepsLaw(w: World, x: Write, r: int)
    requires Valid(w) && Guard(w, x) && HasRound(w, r) && !(x.PutContribution? && x.key.round == r)
    ensures HasRound(Apply(w, x), r)
    ensures var w' := Apply(w, x); InActiveCycle(w', r) ==>
      (InActiveCycle(w, r) && w'.rounds[r].total == w.rounds[r].total
       && AmountOf(w', r) == AmountOf(w, r) && DatedKeys(w', r) == DatedKeys(w, r))
  {
    hide RowsSound, Numbered, PayoutsAlike, RoundsSound, PlanSound, RowSound, RowRefers;
    hide AnyDistributed, AllDistributed, PayoutsOf, CountCycles;
    var w' := Apply(w, x);
    if InActiveCycle(w', r) {
      if x.UpdateSettings? && x.group == GroupOfRound(w, r) { assert HasActiveCycle(w, x.group); }
    }
  }

  lemma NewRoundLaw(w: World, x: Write, r: int)
    requires Valid(w) && Guard(w, x) && !HasRound(w, r)
    ensures LawAt(Apply(w, x), r, 0)
  {
    var w' := Apply(w, x);
    if HasRound(w', r) {
      assert x.InsertCycle?;
      forall k | k in w.contributions ensures k.round != r { assert RowRefers(w, k, w.contributions[k]); }
      assert DatedKeys(w', r) == {};
    }
  }

  lemma PutDatedKeys(w: World, x: Write, r: int)
    requires x.PutContribution? && x.key.round == r && HasRound(w, r) && (Dated(w, x.key) ==> x.row.paidDate.Some?)
    ensures DatedKeys(Apply(w, x), r) == DatedKeys(w, r) + if x.row.paidDate.Some? then {x.key} else {}
    ensures x.key in DatedKeys(w, r) <==> Dated(w, x.key)
  {
  }

  lemma PutDates(w: World, x: Write, r: int)
    requires Guard(w, x) && x.PutContribution? && x.key.round == r
    ensures |DatedKeys(Apply(w, x), r)| == |DatedKeys(w, r)|
      + (if x.row.paidDate.Some? && !Dated(w, x.key) then 1 else 0)
  {
    hide DatedKeys, Apply, RowSound, Dated;
    PutDatedKeys(w, x, r);
    var dated, dated' := DatedKeys(w, r), DatedKeys(Apply(w, x), r);
    if x.row.paidDate.Some? && x.key !in dated {
      assert |dated + {x.key}| == |dated| + 1;
    } else {
      assert dated' == dated;
    }
  }

  lemma PutCredits(w: World, x: Write, r: int)
    requires Valid(w) && Guard(w, x) && x.PutContribution? && x.key.round == r
    ensures var w' := Apply(w, x);
      && HasRound(w, r) && HasRound(w', r)
      && (InActiveCycle(w', r) ==>
           (InActiveCycle(w, r) && AmountOf(w', r) == AmountOf(w, r)
            && w'.rounds[r].total == w.rounds[r].total + if x.credited then AmountOf(w, r) else 0))
  {
    assert RowSound(w, x.key, x.row) && RowRefers(w, x.key, x.row);
  }

  lemma PutKeepsLaw(w: World, x: Write, r: int, d: int)
    requires Valid(w) && Guard(w, x) && LawAt(w, r, d) && x.PutContribution? && x.key.round == r
    ensures LawAt(Apply(w, x), r, d + WriteDrift(w, x, r))
  {
    hide Times, Apply, Valid, Guard, DatedKeys, AmountOf, InActiveCycle;
    PutDates(w, x, r);
    PutCredits(w, x, r);
    if InActiveCycle(w, r) { TimesStep(|DatedKeys(w, r)| + d, AmountOf(w, r)); }
  }

  function WritesDrift(w: World, xs: seq<Write>, r: int): int {
    if xs == [] then 0 else
      WritesDrift(w, xs[..|xs| - 1], r) + WriteDrift(ApplyAll(w, xs[..|xs| - 1]), xs[|xs| - 1], r)
  }

  lemma {:induction false} WritesKeepLaw(w: World, xs: seq<Write>, r: int, d: int)
    requires Valid(w) && Guarded(w, xs) && LawAt(w, r, d)
    ensures LawAt(ApplyAll(w, xs), r, d + WritesDrift(w, xs, r))
  {
    hide LawAt, Valid, Guard, Apply, WriteDrift;
    if xs != [] {
      var front := xs[..|xs| - 1];
      WritesKeepLaw(w, front, r, d);
      WritesKeepValid(w, front);
      WriteKeepsLaw(ApplyAll(w, front), xs[|xs| - 1], r, d + WritesDrift(w, front, r));
    }
  }

  // ---- the follow-up writes of a call leave the contribution rows alone ----

  predicate StatusOnly(xs: seq<Write>) {
    forall i :: 0 <= i < |xs| ==> xs[i].SetRoundStatus? || xs[i].SetCycleStatus? || xs[i].InsertCycle?
  }

  lemma CompleteRoundStatusOnly(w: World, r: int, now: int, clock: nat -> nat)
    requires HasRound(w, r)
    ensures StatusOnly(CompleteRoundWrites(w, r, now, clock))
  {
  }

  lemma AdvanceStatusOnly(w: World, r: int, now: int, clock: nat -> nat)
    requires HasRound(w, r)
    ensures StatusOnly(AdvanceWrites(w, r, now, clock))
  {
    hide CompleteRoundWrites;
    CompleteRoundStatusOnly(w, r, now, clock);
    CompleteRoundStatusOnly(Apply(w, SetRoundStatus(r, Collecting)), r, now, clock);
  }

  lemma {:induction false} StatusOnlyNoDrift(w: World, x: seq<Write>, xs: seq<Write>, r: int)
    requires StatusOnly(xs)
    ensures WritesDrift(w, x + xs, r) == WritesDrift(w, x, r)
  {
    if xs == [] {
      assert x + xs == x;
    } else {
      StatusOnlyNoDrift(w, x, xs[..|xs| - 1], r);
      assert (x + xs)[..|x + xs| - 1] == x + xs[..|xs| - 1];
    }
  }

  lemma OneDrift(w: World, x: Write, r: int)
    ensures WritesDrift(w, [x], r) == WriteDrift(w, x, r)
  {
    assert [x][..0] == [];
  }

  lemma DriftOfContributionEvent(w: World, ev: Event, r: int)
    requires Valid(w) && CallOf(w, ev).Accepted?
    requires ev.Upload? || ev.Record? || ev.Approve? || ev.Reject? || ev.Waive?
    ensures WriteDrift(w, CallOf(w, ev).writes[0], r) == EventDrift(w, ev, r)
  {
    var k := Key(ev.c, ev.r, ev.m);
    if k in w.contributions { assert RowSound(w, k, w.contributions[k]); }
  }

  lemma DriftOfEvent(w: World, ev: Event, r: int)
    requires Valid(w) && CallOf(w, ev).Accepted?
    ensures WritesDrift(w, CallOf(w, ev).writes, r) == EventDrift(w, ev, r)
  {
    var xs := CallOf(w, ev).writes;
    if ev.Upload? || ev.Record? || ev.Approve? || ev.Reject? || ev.Waive? {
      DriftOfContributionEvent(w, ev, r);
      OneDrift(w, xs[0], r);
      assert xs == [xs[0]] + xs[1..];
      if ev.Record? || ev.Approve? { AdvanceStatusOnly(Apply(w, xs[0]), ev.r, ev.now, ev.clock); }
      StatusOnlyNoDrift(w, [xs[0]], xs[1..], r);
    } else {
      OtherEventsTouchNoRow(w, ev);
      NoRowNoDrift(w, xs, r);
    }
  }

  lemma OtherEventsTouchNoRow(w: World, ev: Event)
    requires CallOf(w, ev).Accepted?
    requires !(ev.Upload? || ev.Record? || ev.Approve? || ev.Reject? || ev.Waive?)
    ensures forall i :: 0 <= i < |CallOf(w, ev).writes| ==> !CallOf(w, ev).writes[i].PutContribution?
  {
    hide CompleteRoundWrites, AdvanceWrites, RerollPlan, EarlierPaid, NewPlan;
    if ev.PayOut? {
      CompleteRoundStatusOnly(Apply(w, PayWrite(w, ev.g, ev.r, ev.paidAt)), ev.r, ev.now, ev.clock);
    }
  }

  lemma {:induction false} NoRowNoDrift(w: World, xs: seq<Write>, r: int)
    requires forall i :: 0 <= i < |xs| ==> !xs[i].PutContribution?
    ensures WritesDrift(w, xs, r) == 0
  {
    if xs != [] { NoRowNoDrift(w, xs[..|xs| - 1], r); }
  }

  // ---- the law over runs ----

  lemma StepKeepsLaw(w: World, ev: Event, r: int, d: int)
    requires Valid(w) && LawAt(w, r, d)
    ensures LawAt(Step(w, ev), r, d + EventDrift(w, ev, r))
  {
    hide LawAt, Valid, CallOf, EventDrift;
    if CallOf(w, ev).Accepted? {
      EventGuarded(w, ev);
      WritesKeepLaw(w, CallOf(w, ev).writes, r, d);
      DriftOfEvent(w, ev, r);
    } else {
      RefusedNoDrift(w, ev, r);
    }
  }

  lemma RefusedNoDrift(w: World, ev: Event, r: int)
    requires CallOf(w, ev).Refused?
    ensures EventDrift(w, ev, r) == 0
  {
  }

  /** The exact ledger law, in every reachable state: while its cycle is active, a round's stored total is the
      contribution amount times (dated rows + approvals of already-dated rows - records over an undated waiver). */
  lemma {:induction false} ExactLedgerLaw(w: World, evs: seq<Event>, r: int)
    requires Fresh(w)
    ensures LawAt(Run(w, evs), r, RunDrift(w, evs, r))
  {
    hide Valid, Step, EventDrift, Times;
    if evs != [] {
      var front := evs[..|evs| - 1];
      ExactLedgerLaw(w, front, r);
      FreshIsValid(w);
      RunKeepsValid(w, front);
      StepKeepsLaw(Run(w, front), evs[|evs| - 1], r, RunDrift(w, front, r));
    }
  }

  function AmountAt(w: World): Key -> int {
    k => if k in w.contributions then w.contributions[k].amount else 0
  }

  ghost function DatedSum(w: World, r: int): int {
    Sum(DatedKeys(w, r), AmountAt(w))
  }

  lemma RowAmount(w: World, r: int, k: Key)
    requires Valid(w) && InActiveCycle(w, r) && k in w.contributions && k.round == r
    ensures w.contributions[k].amount == AmountOf(w, r)
  {
    assert RowRefers(w, k, w.contributions[k]) && RowSound(w, k, w.contributions[k]);
  }

  /** The stored total is the sum of the dated rows exactly when the drifts cancel out (or contributions are free). */
  lemma TotalIsDatedSumIff(w: World, evs: seq<Event>, r: int)
    requires Fresh(w) && InActiveCycle(Run(w, evs), r)
    ensures var w' := Run(w, evs);
      w'.rounds[r].total == DatedSum(w', r) <==> (RunDrift(w, evs, r) == 0 || AmountOf(w', r) == 0)
  {
    hide Run, RunDrift, Valid, Times;
    var w', d := Run(w, evs), RunDrift(w, evs, r);
    ExactLedgerLaw(w, evs, r);
    FreshIsValid(w);
    RunKeepsValid(w, evs);
    DatedSumIs(w', r);
    TimesAdd(|DatedKeys(w', r)|, d, AmountOf(w', r));
    TimesZero(d, AmountOf(w', r));
  }

  lemma DatedSumIs(w: World, r: int)
    requires Valid(w) && InActiveCycle(w, r)
    ensures DatedSum(w, r) == Times(|DatedKeys(w, r)|, AmountOf(w, r))
  {
    hide Valid;
    forall k | k in DatedKeys(w, r) ensures AmountAt(w)(k) == AmountOf(w, r) { RowAmount(w, r, k); }
    SumConstant(DatedKeys(w, r), AmountAt(w), AmountOf(w, r));
  }
}
