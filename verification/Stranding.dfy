/** What becomes of a running cycle that has nothing left to complete. */
module Stranding {
  import opened Tables
  import opened Cycles
  import opened Contributions
  import opened Payouts
  import opened Backend
  import opened History
  import opened Completion

  /** A running cycle with pre-assigned recipients whose rounds are all completed. */
  predicate Stranded(w: World, c: int) {
    && HasCycle(w, c) && w.cycles[c].status == InProgress && AllRoundsCompleted(w, c)
    && HasGroup(w, w.cycles[c].groupId) && PreAssigned(w.groups[w.cycles[c].groupId].settings)
  }

  predicate SparesCycle(xs: seq<Write>, c: int) {
    forall i :: 0 <= i < |xs| ==> !(xs[i].SetCycleStatus? && xs[i].cycle == c)
  }

  lemma WriteKeepsStranded(w: World, x: Write, c: int)
    requires Valid(w) && Guard(w, x) && Stranded(w, c) && !(x.SetCycleStatus? && x.cycle == c)
    ensures Stranded(Apply(w, x), c)
  {
    hide RowSound, RowRefers, Fits, PayoutRefers, PlanSound, AnyDistributed, AllDistributed, PayoutsOf, CountCycles;
    var w', r := Apply(w, x), 0;
    assert x.UpdateSettings? && x.group == w.cycles[c].groupId ==> HasActiveCycle(w, x.group);
    r :| 0 <= r < |w.rounds| && w.rounds[r].cycleId == c;
    assert w'.rounds[r].cycleId == c;
  }

  lemma {:induction false} WritesKeepStranded(w: World, xs: seq<Write>, c: int)
    requires Valid(w) && Guarded(w, xs) && Stranded(w, c) && SparesCycle(xs, c)
    ensures Stranded(ApplyAll(w, xs), c)
  {
    hide Valid, Guard, Apply, Stranded;
    if xs != [] {
      var front := xs[..|xs| - 1];
      WritesKeepStranded(w, front, c);
      WritesKeepValid(w, front);
      WriteKeepsStranded(ApplyAll(w, front), xs[|xs| - 1], c);
    }
  }

  lemma CompleteRoundSpares(w: World, r: int, now: int, clock: nat -> nat, c: int)
    requires HasRound(w, r) && w.rounds[r].cycleId != c
    ensures SparesCycle(CompleteRoundWrites(w, r, now, clock), c)
  {
    hide NewPlan;
  }

  /** Money for a round of another cycle leaves this one's status alone; for a completed round it leads nowhere. */
  lemma AdvanceSpares(w: World, r: int, now: int, clock: nat -> nat, c: int)
    requires HasRound(w, r) && (w.rounds[r].cycleId == c ==> w.rounds[r].status == RoundCompleted)
    ensures SparesCycle(AdvanceWrites(w, r, now, clock), c)
  {
    hide CompleteRoundWrites;
    if w.rounds[r].cycleId != c {
      CompleteRoundSpares(w, r, now, clock, c);
      CompleteRoundSpares(Apply(w, SetRoundStatus(r, Collecting)), r, now, clock, c);
    }
  }

  lemma PaidRoundPaidSomebody(w: World, r: int)
    requires PayoutsOf(w, r) != {} && AllDistributed(w, r)
    ensures AnyDistributed(w, r)
  {
    var p :| p in PayoutsOf(w, r);
    assert Distributed(w, p);
  }

  /** A stranded cycle has paid all its recipients, so that no payout is accepted there. */
  lemma NoPayOutInStranded(w: World, ev: Event, c: int)
    requires Valid(w) && Stranded(w, c) && ev.PayOut? && CallOf(w, ev).Accepted?
    ensures ev.c != c
  {
    hide References, RowsSound, Numbered, PayoutsAlike, RoundsBounded, Distributed, PayoutsOf, AnyDistributed,
      AllDistributed, CompleteRoundWrites;
    if ev.c == c {
      assert Preset(w, ev.r) && w.rounds[ev.r].status == RoundCompleted;
      PaidRoundPaidSomebody(w, ev.r);
    }
  }

  lemma MoneySparesStranded(w: World, ev: Event, c: int)
    requires Valid(w) && Stranded(w, c) && CallOf(w, ev).Accepted? && (ev.Record? || ev.Approve? || ev.PayOut?)
    ensures SparesCycle(CallOf(w, ev).writes, c)
  {
    hide Valid, CompleteRoundWrites, AdvanceWrites, AllDistributed;
    if ev.PayOut? { NoPayOutInStranded(w, ev, c); }
    MoneyCallParts(w, ev);
    MoneyKeepsStatus(w, ev);
    hide CallOf, Apply;
    var xs := CallOf(w, ev).writes;
    var w1 := Apply(w, xs[0]);
    assert xs == [xs[0]] + xs[1..];
    if ev.PayOut? {
      CompleteRoundSpares(w1, ev.r, ev.now, ev.clock, c);
    } else {
      AdvanceSpares(w1, ev.r, ev.now, ev.clock, c);
    }
  }

  lemma MoneyKeepsStatus(w: World, ev: Event)
    requires CallOf(w, ev).Accepted? && (ev.Record? || ev.Approve? || ev.PayOut?)
    ensures HasRound(w, ev.r)
    ensures var xs := CallOf(w, ev).writes;
      && xs != [] && !xs[0].SetCycleStatus?
      && HasRound(Apply(w, xs[0]), ev.r) && Apply(w, xs[0]).rounds[ev.r].status == w.rounds[ev.r].status
  {
    hide CompleteRoundWrites, AdvanceWrites;
  }

  /** The owner completes this cycle by hand. */
  predicate CompletesCycle(w: World, ev: Event, c: int) {
    ev.Complete? && ev.c == c && CallOf(w, ev).Accepted?
  }

  lemma OthersSpareStranded(w: World, ev: Event, c: int)
    requires Valid(w) && Stranded(w, c) && CallOf(w, ev).Accepted? && !CompletesCycle(w, ev, c)
    ensures SparesCycle(CallOf(w, ev).writes, c)
  {
    hide Valid, NewPlan, RerollPlan, EarlierPaid, AnyDistributed, AdvanceWrites, CompleteRoundWrites;
    if ev.Record? || ev.Approve? || ev.PayOut? { MoneySparesStranded(w, ev, c); }
  }

  lemma StepKeepsStranded(w: World, ev: Event, c: int)
    requires Valid(w) && Stranded(w, c) && !CompletesCycle(w, ev, c)
    ensures Stranded(Step(w, ev), c)
  {
    hide Valid, Stranded, CallOf;
    if CallOf(w, ev).Accepted? {
      EventGuarded(w, ev);
      OthersSpareStranded(w, ev, c);
      WritesKeepStranded(w, CallOf(w, ev).writes, c);
    }
  }

  lemma CompletingCompletes(w: World, ev: Event, c: int)
    requires Valid(w) && CompletesCycle(w, ev, c)
    ensures HasCycle(Step(w, ev), c) && Step(w, ev).cycles[c].status == CycleCompleted
  {
    hide AutoOpenWrites, Valid, Later;
    if w.cycles[c].status != CycleCompleted {
      var done := SetCycleStatus(c, CycleCompleted);
      var w1 := Apply(w, done);
      var next := AutoOpenWrites(w1, w.cycles[c].groupId, ev.now, ev.clock);
      ApplyOne(w, done);
      ApplyAllConcat(w, [done], next);
      WriteKeepsValid(w, done);
      AutoOpenGuarded(w1, w.cycles[c].groupId, ev.now, ev.clock);
      WritesAreLater(w1, next);
      CompletedStays(w1, ApplyAll(w1, next), c);
    }
  }

  lemma CompletedStays(w: World, w': World, c: int)
    requires Later(w, w') && HasCycle(w, c) && w.cycles[c].status == CycleCompleted
    ensures HasCycle(w', c) && w'.cycles[c].status == CycleCompleted
  {
  }

  ghost predicate NeverCompleted(w: World, evs: seq<Event>, c: int) {
    evs == []
      || (NeverCompleted(w, evs[..|evs| - 1], c) && !CompletesCycle(Run(w, evs[..|evs| - 1]), evs[|evs| - 1], c))
  }

  /** Nothing but the owner's own completion ends a stranded queue or random cycle: after any run it is still in
      progress with all rounds completed unless the run completed it by hand, and then it is completed. */
  lemma {:induction false} StrandedUntilCompleted(w: World, evs: seq<Event>, c: int)
    requires Valid(w) && Stranded(w, c)
    ensures NeverCompleted(w, evs, c) ==> Stranded(Run(w, evs), c)
    ensures !NeverCompleted(w, evs, c) ==> HasCycle(Run(w, evs), c) && Run(w, evs).cycles[c].status == CycleCompleted
  {
    hide Valid, Stranded, Step, CompletesCycle, Later;
    if evs != [] {
      var front, last := evs[..|evs| - 1], evs[|evs| - 1];
      StrandedUntilCompleted(w, front, c);
      RunKeepsValid(w, front);
      if CompletesCycle(Run(w, front), last, c) {
        CompletingCompletes(Run(w, front), last, c);
      } else if NeverCompleted(w, front, c) {
        StepKeepsStranded(Run(w, front), last, c);
      } else {
        StepIsLater(Run(w, front), last);
        CompletedStays(Run(w, front), Step(Run(w, front), last), c);
      }
    }
  }
}
