/** When rounds and cycles complete: what a completed round means, and exactly when a running cycle always keeps
    an incomplete round. */
module Completion {
  import opened Tables
  import opened Cycles
  import opened Contributions
  import opened Backend
  import opened History

  /** All recipients of the round are paid this one amount. */
  predicate AllPaid(w: World, r: int, amount: int) {
    forall p :: p in PayoutsOf(w, r) ==> Distributed(w, p) && w.payouts[p].amount == amount
  }

  /** In every reachable state: no round is in status paid_out, and in an active queue or random cycle with k > 0
      every round has a recipient and a completed one has paid them all one amount. */
  lemma CompletedRoundsArePaid(w: World, evs: seq<Event>, r: int)
    requires Fresh(w) && HasRound(Run(w, evs), r)
    ensures Run(w, evs).rounds[r].status != PaidOut
    ensures Preset(Run(w, evs), r) ==> PayoutsOf(Run(w, evs), r) != {}
    ensures Preset(Run(w, evs), r) && Run(w, evs).rounds[r].status == RoundCompleted ==>
      exists amount :: AllPaid(Run(w, evs), r, amount)
  {
    FreshIsValid(w);
    RunKeepsValid(w, evs);
    var w' := Run(w, evs);
    if Preset(w', r) && w'.rounds[r].status == RoundCompleted {
      var p :| p in PayoutsOf(w', r);
      assert Distributed(w', p);
      assert AllPaid(w', r, w'.payouts[p].amount);
    }
  }

  // ---- running cycles keep an incomplete round ----

  /** An in-progress cycle that has rounds has an incomplete one. */
  ghost predicate Unfinished(w: World) {
    forall c :: 0 <= c < |w.cycles| ==> CycleUnfinished(w, c)
  }

  predicate CycleUnfinished(w: World, c: int)
    requires HasCycle(w, c)
  {
    w.cycles[c].status == InProgress ==> !AllRoundsCompleted(w, c)
  }

  /** The write neither completes a round nor starts a cycle. */
  predicate Safe(x: Write) {
    !(x.SetRoundStatus? && x.roundStatus == RoundCompleted) && !(x.SetCycleStatus? && x.cycleStatus == InProgress)
  }

  predicate AllSafe(xs: seq<Write>) {
    forall i :: 0 <= i < |xs| ==> Safe(xs[i])
  }

  lemma SafeWriteKeeps(w: World, x: Write)
    requires Valid(w) && Guard(w, x) && Unfinished(w) && Safe(x)
    ensures Unfinished(Apply(w, x))
  {
    var w' := Apply(w, x);
    forall c | 0 <= c < |w'.cycles| ensures CycleUnfinished(w', c) {
      if c < |w.cycles| {
        assert CycleUnfinished(w, c);
        SafeWriteKeepsCycle(w, x, c);
      }
    }
  }

  lemma SafeWriteKeepsCycle(w: World, x: Write, c: int)
    requires Valid(w) && Guard(w, x) && HasCycle(w, c) && CycleUnfinished(w, c) && Safe(x)
    ensures CycleUnfinished(Apply(w, x), c)
  {
    hide Valid, PlanSound, RowSound, RowRefers, AllDistributed, AnyDistributed, Fits, PayoutRefers;
    var w' := Apply(w, x);
    assert forall r :: 0 <= r < |w'.rounds| && w'.rounds[r].cycleId == c ==>
      0 <= r < |w.rounds| && w.rounds[r].cycleId == c;
    assert forall r :: 0 <= r < |w.rounds| && w.rounds[r].cycleId == c ==>
      (w'.rounds[r].cycleId == c && (w'.rounds[r].status == RoundCompleted ==> w.rounds[r].status == RoundCompleted));
    assert AllRoundsCompleted(w', c) ==> AllRoundsCompleted(w, c);
  }

  lemma {:induction false} SafeWritesKeep(w: World, xs: seq<Write>)
    requires Valid(w) && Guarded(w, xs) && Unfinished(w) && AllSafe(xs)
    ensures Unfinished(ApplyAll(w, xs))
  {
    hide Valid, Guard, Unfinished, Apply;
    if xs != [] {
      var front := xs[..|xs| - 1];
      SafeWritesKeep(w, front);
      WritesKeepValid(w, front);
      SafeWriteKeeps(ApplyAll(w, front), xs[|xs| - 1]);
    }
  }

  /** Completing a round of a running cycle completes the cycle too when it was the last one. */
  lemma CompleteRoundKeeps(w: World, r: int, now: int, clock: nat -> nat)
    requires Valid(w) && Unfinished(w) && HasRound(w, r) && AllDistributed(w, r)
    ensures Unfinished(ApplyAll(w, CompleteRoundWrites(w, r, now, clock)))
  {
    var complete, c := SetRoundStatus(r, RoundCompleted), w.rounds[r].cycleId;
    var w1 := Apply(w, complete);
    OthersUnfinished(w, r);
    WriteKeepsValid(w, complete);
    ApplyOne(w, complete);
    ApplyAllConcat(w, [complete], AutoCompleteWrites(w1, c, now, clock));
    if w1.cycles[c].status == InProgress && AllRoundsCompleted(w1, c) {
      FinishKeeps(w1, c, now, clock);
    } else {
      assert CycleUnfinished(w1, c);
    }
  }

  lemma OthersUnfinished(w: World, r: int)
    requires Unfinished(w) && HasRound(w, r)
    ensures forall d :: 0 <= d < |w.cycles| && d != w.rounds[r].cycleId ==>
      CycleUnfinished(Apply(w, SetRoundStatus(r, RoundCompleted)), d)
  {
    var w1 := Apply(w, SetRoundStatus(r, RoundCompleted));
    forall d | 0 <= d < |w.cycles| && d != w.rounds[r].cycleId ensures CycleUnfinished(w1, d) {
      assert CycleUnfinished(w, d);
      assert forall q :: 0 <= q < |w.rounds| && w.rounds[q].cycleId == d ==> w1.rounds[q] == w.rounds[q];
      if AllRoundsCompleted(w1, d) { assert AllRoundsCompleted(w, d); }
    }
  }

  lemma FinishKeeps(w: World, c: int, now: int, clock: nat -> nat)
    requires Valid(w) && Active(w, c) && forall d :: 0 <= d < |w.cycles| && d != c ==> CycleUnfinished(w, d)
    ensures Unfinished(ApplyAll(w, CompletionWrites(w, c, now, clock)))
  {
    var done, g := SetCycleStatus(c, CycleCompleted), w.cycles[c].groupId;
    var w1 := Apply(w, done);
    OthersStayUnfinished(w, c);
    assert Guard(w, done);
    hide Valid, Unfinished, AutoOpenWrites, Guard, CycleUnfinished;
    WriteKeepsValid(w, done);
    ApplyOne(w, done);
    ApplyAllConcat(w, [done], AutoOpenWrites(w1, g, now, clock));
    AutoOpenGuarded(w1, g, now, clock);
    AutoOpenSafe(w1, g, now, clock);
    SafeWritesKeep(w1, AutoOpenWrites(w1, g, now, clock));
  }

  lemma AutoOpenSafe(w: World, g: int, now: int, clock: nat -> nat)
    ensures AllSafe(AutoOpenWrites(w, g, now, clock))
  {
    hide NewPlan;
  }

  lemma OthersStayUnfinished(w: World, c: int)
    requires Active(w, c) && forall d :: 0 <= d < |w.cycles| && d != c ==> CycleUnfinished(w, d)
    ensures Unfinished(Apply(w, SetCycleStatus(c, CycleCompleted)))
  {
    var w1 := Apply(w, SetCycleStatus(c, CycleCompleted));
    forall d | 0 <= d < |w1.cycles| ensures CycleUnfinished(w1, d) {
      if d != c {
        assert CycleUnfinished(w, d);
        if AllRoundsCompleted(w1, d) { assert AllRoundsCompleted(w, d); }
      }
    }
  }

  lemma AllPaidKeeps(w: World, r: int, now: int, clock: nat -> nat)
    requires Valid(w) && Unfinished(w) && HasRound(w, r)
    ensures Unfinished(ApplyAll(w, AllPaidWrites(w, r, now, clock)))
  {
    if AllPaidWrites(w, r, now, clock) != [] { CompleteRoundKeeps(w, r, now, clock); }
  }

  lemma AdvanceKeeps(w: World, r: int, now: int, clock: nat -> nat)
    requires Valid(w) && Unfinished(w) && HasRound(w, r)
    ensures Unfinished(ApplyAll(w, AdvanceWrites(w, r, now, clock)))
  {
    if w.rounds[r].status == RoundPending && AllCollected(w, r) {
      if PayoutsOf(w, r) == {} {
        CompleteRoundKeeps(w, r, now, clock);
      } else {
        var collecting := SetRoundStatus(r, Collecting);
        SafeWriteKeeps(w, collecting);
        WriteKeepsValid(w, collecting);
        AllPaidKeeps(Apply(w, collecting), r, now, clock);
        ApplyOne(w, collecting);
        ApplyAllConcat(w, [collecting], AllPaidWrites(Apply(w, collecting), r, now, clock));
      }
    } else {
      AllPaidKeeps(w, r, now, clock);
    }
  }

  /** A money call is one safe write, followed by what completes the round. */
  lemma MoneyCallParts(w: World, ev: Event)
    requires Valid(w) && CallOf(w, ev).Accepted? && (ev.Record? || ev.Approve? || ev.PayOut?)
    ensures HasRound(w, ev.r) && w.rounds[ev.r].cycleId == ev.c && HasCycle(w, ev.c)
    ensures var xs := CallOf(w, ev).writes; xs != [] && Safe(xs[0])
    ensures var xs := CallOf(w, ev).writes; var w1 := Apply(w, xs[0]);
      && w1.cycles == w.cycles && HasRound(w1, ev.r) && w1.rounds[ev.r].cycleId == ev.c
      && (ev.PayOut? ==> AllDistributed(w1, ev.r))
      && xs[1..] ==
        if ev.PayOut? then CompleteRoundWrites(w1, ev.r, ev.now, ev.clock)
        else AdvanceWrites(w1, ev.r, ev.now, ev.clock)
  {
    hide CompleteRoundWrites, AdvanceWrites, Valid;
  }

  lemma MoneyKeepsUnfinished(w: World, ev: Event)
    requires Valid(w) && Unfinished(w) && CallOf(w, ev).Accepted?
    requires ev.Record? || ev.Approve? || ev.PayOut?
    ensures Unfinished(Step(w, ev))
  {
    hide CallOf, CompleteRoundWrites, AdvanceWrites, Apply, Valid, Unfinished, Guard, Guarded, AllDistributed;
    var xs := CallOf(w, ev).writes;
    MoneyCallParts(w, ev);
    var x := xs[0];
    var w1 := Apply(w, x);
    EventGuarded(w, ev);
    FirstGuard(w, xs);
    assert xs == [x] + xs[1..];
    ApplyOne(w, x);
    ApplyAllConcat(w, [x], xs[1..]);
    SafeWriteKeeps(w, x);
    WriteKeepsValid(w, x);
    if ev.PayOut? {
      CompleteRoundKeeps(w1, ev.r, ev.now, ev.clock);
    } else {
      AdvanceKeeps(w1, ev.r, ev.now, ev.clock);
    }
  }

  lemma {:induction false} FirstGuard(w: World, xs: seq<Write>)
    requires Guarded(w, xs) && xs != []
    ensures Guard(w, xs[0])
  {
    if |xs| > 1 {
      FirstGuard(w, xs[..|xs| - 1]);
    } else {
      assert xs[..0] == [];
    }
  }

  /** A start is sound unless every round of the cycle was completed before. */
  predicate SoundStart(w: World, ev: Event) {
    ev.Start? && CallOf(w, ev).Accepted? ==> !AllRoundsCompleted(w, ev.c)
  }

  ghost predicate SoundStarts(w: World, evs: seq<Event>) {
    evs == [] || (SoundStarts(w, evs[..|evs| - 1]) && SoundStart(Run(w, evs[..|evs| - 1]), evs[|evs| - 1]))
  }

  lemma StepKeepsUnfinished(w: World, ev: Event)
    requires Valid(w) && Unfinished(w) && SoundStart(w, ev)
    ensures Unfinished(Step(w, ev))
  {
    hide CallOf, Valid, Unfinished;
    if CallOf(w, ev).Accepted? {
      if ev.Record? || ev.Approve? || ev.PayOut? {
        MoneyKeepsUnfinished(w, ev);
      } else if ev.Start? {
        StartKeepsOthers(w, ev);
      } else {
        EventGuarded(w, ev);
        OtherEventsSafe(w, ev);
        SafeWritesKeep(w, CallOf(w, ev).writes);
      }
    }
  }

  lemma OtherEventsSafe(w: World, ev: Event)
    requires CallOf(w, ev).Accepted? && !(ev.Record? || ev.Approve? || ev.PayOut? || ev.Start?)
    ensures AllSafe(CallOf(w, ev).writes)
  {
  }

  lemma StartFacts(w: World, ev: Event)
    requires ev.Start? && CallOf(w, ev).Accepted?
    ensures HasCycle(w, ev.c) && w.cycles[ev.c].status == Open
      && Step(w, ev) == Apply(w, SetCycleStatus(ev.c, InProgress))
  {
    ApplyOne(w, SetCycleStatus(ev.c, InProgress));
  }

  lemma StartKeepsOthers(w: World, ev: Event)
    requires Unfinished(w) && ev.Start? && CallOf(w, ev).Accepted? && !AllRoundsCompleted(w, ev.c)
    ensures Unfinished(Step(w, ev))
  {
    StartFacts(w, ev);
    hide Step, CallOf;
    forall c | 0 <= c < |w.cycles| ensures CycleUnfinished(Step(w, ev), c) {
      assert CycleUnfinished(w, c);
      assert AllRoundsCompleted(Step(w, ev), c) == AllRoundsCompleted(w, c);
    }
  }

  lemma UnsoundStartFinishes(w: World, ev: Event)
    requires !SoundStart(w, ev)
    ensures !Unfinished(Step(w, ev))
  {
    StartFacts(w, ev);
    hide Step, CallOf;
    assert AllRoundsCompleted(Step(w, ev), ev.c);
    assert !CycleUnfinished(Step(w, ev), ev.c);
  }

  lemma FreshIsUnfinished(w: World)
    requires Fresh(w)
    ensures Unfinished(w)
  {
  }

  lemma {:induction false} SoundStartsSuffice(w: World, evs: seq<Event>)
    requires Fresh(w) && SoundStarts(w, evs)
    ensures Unfinished(Run(w, evs))
  {
    hide Fresh, Valid, Unfinished, Step, SoundStart;
    if evs == [] {
      FreshIsUnfinished(w);
    } else {
      var front := evs[..|evs| - 1];
      SoundStartsSuffice(w, front);
      FreshIsValid(w);
      RunKeepsValid(w, front);
      StepKeepsUnfinished(Run(w, front), evs[|evs| - 1]);
    }
  }

  lemma {:induction false} SoundStartsOfPrefix(w: World, evs: seq<Event>, n: nat)
    requires SoundStarts(w, evs) && n <= |evs|
    ensures SoundStarts(w, evs[..n])
  {
    if n == |evs| {
      assert evs[..n] == evs;
    } else {
      SoundStartsOfPrefix(w, evs[..|evs| - 1], n);
      assert evs[..|evs| - 1][..n] == evs[..n];
    }
  }

  ghost predicate AlwaysUnfinished(w: World, evs: seq<Event>) {
    forall n :: 0 <= n <= |evs| ==> Unfinished(Run(w, evs[..n]))
  }

  lemma {:induction false} UnfinishedNeedsSoundStarts(w: World, evs: seq<Event>)
    requires AlwaysUnfinished(w, evs)
    ensures SoundStarts(w, evs)
  {
    hide Unfinished, Step, SoundStart;
    if evs != [] {
      var front, last := evs[..|evs| - 1], evs[|evs| - 1];
      forall n | 0 <= n <= |front| ensures Unfinished(Run(w, front[..n])) { assert front[..n] == evs[..n]; }
      UnfinishedNeedsSoundStarts(w, front);
      assert evs[..|evs|] == evs;
      assert Unfinished(Step(Run(w, front), last));
      if !SoundStart(Run(w, front), last) { UnsoundStartFinishes(Run(w, front), last); }
    }
  }

  /** Exactly when a running cycle with rounds has an incomplete one throughout a run: if and only if no cycle is
      started whose rounds are all completed already. The owner can see that before the start. */
  lemma RunningCyclesAreUnfinishedIff(w: World, evs: seq<Event>)
    requires Fresh(w)
    ensures AlwaysUnfinished(w, evs) <==> SoundStarts(w, evs)
  {
    hide Fresh, Run, Unfinished;
    if SoundStarts(w, evs) {
      forall n | 0 <= n <= |evs| ensures Unfinished(Run(w, evs[..n])) {
        SoundStartsOfPrefix(w, evs, n);
        SoundStartsSuffice(w, evs[..n]);
      }
    }
    if AlwaysUnfinished(w, evs) { UnfinishedNeedsSoundStarts(w, evs); }
  }

  // ---- a discipline that is enough: money on started cycles only ----

  /** No record, approval or payout goes to a cycle still open. */
  predicate OnStarted(w: World, ev: Event) {
    (ev.Record? || ev.Approve? || ev.PayOut?) && HasCycle(w, ev.c) ==> w.cycles[ev.c].status != Open
  }

  ghost predicate Disciplined(w: World, evs: seq<Event>) {
    evs == [] || (Disciplined(w, evs[..|evs| - 1]) && OnStarted(Run(w, evs[..|evs| - 1]), evs[|evs| - 1]))
  }

  predicate StartedRound(w: World, r: int) {
    HasRound(w, r) && HasCycle(w, w.rounds[r].cycleId) && w.cycles[w.rounds[r].cycleId].status != Open
  }

  /** No round of an open cycle is completed. */
  ghost predicate OpenUntouched(w: World) {
    forall r :: 0 <= r < |w.rounds| && w.rounds[r].status == RoundCompleted ==> StartedRound(w, r)
  }

  predicate CompletesStarted(w: World, xs: seq<Write>) {
    forall i :: 0 <= i < |xs| && xs[i].SetRoundStatus? && xs[i].roundStatus == RoundCompleted ==>
      StartedRound(w, xs[i].round)
  }

  lemma WriteKeepsOpenUntouched(w: World, x: Write)
    requires Valid(w) && Guard(w, x) && OpenUntouched(w)
    requires x.SetRoundStatus? && x.roundStatus == RoundCompleted ==> StartedRound(w, x.round)
    ensures OpenUntouched(Apply(w, x))
  {
    hide RowSound, RowRefers, Fits, PayoutRefers, PlanSound, AnyDistributed, AllDistributed, PayoutsOf, CountCycles;
    forall r | 0 <= r < |Apply(w, x).rounds| && Apply(w, x).rounds[r].status == RoundCompleted
      ensures StartedRound(Apply(w, x), r)
    {
      assert HasRound(w, r) && StartedRound(w, r);
    }
  }

  lemma {:induction false} WritesKeepOpenUntouched(w: World, xs: seq<Write>)
    requires Valid(w) && Guarded(w, xs) && OpenUntouched(w) && CompletesStarted(w, xs)
    ensures OpenUntouched(ApplyAll(w, xs))
  {
    hide Valid, Guard, Apply, OpenUntouched;
    if xs != [] {
      var front, last := xs[..|xs| - 1], xs[|xs| - 1];
      WritesKeepOpenUntouched(w, front);
      WritesKeepValid(w, front);
      WritesAreLater(w, front);
      WriteKeepsOpenUntouched(ApplyAll(w, front), last);
    }
  }

  /** The writes that follow the money complete this round and no other. */
  predicate CompletesOnly(xs: seq<Write>, r: int) {
    forall i :: 0 <= i < |xs| && xs[i].SetRoundStatus? && xs[i].roundStatus == RoundCompleted ==> xs[i].round == r
  }

  lemma CompleteRoundCompletesOnly(w: World, r: int, now: int, clock: nat -> nat)
    requires HasRound(w, r)
    ensures CompletesOnly(CompleteRoundWrites(w, r, now, clock), r)
  {
    hide NewPlan;
  }

  lemma AdvanceCompletesOnly(w: World, r: int, now: int, clock: nat -> nat)
    requires HasRound(w, r)
    ensures CompletesOnly(AdvanceWrites(w, r, now, clock), r)
  {
    hide CompleteRoundWrites;
    CompleteRoundCompletesOnly(w, r, now, clock);
    CompleteRoundCompletesOnly(Apply(w, SetRoundStatus(r, Collecting)), r, now, clock);
  }

  lemma DisciplinedCall(w: World, ev: Event)
    requires Valid(w) && CallOf(w, ev).Accepted? && OnStarted(w, ev)
    ensures CompletesStarted(w, CallOf(w, ev).writes)
  {
    hide CallOf, Valid, CompleteRoundWrites, AdvanceWrites, Apply, AllDistributed;
    if ev.Record? || ev.Approve? || ev.PayOut? {
      MoneyCallParts(w, ev);
      var w1 := Apply(w, CallOf(w, ev).writes[0]);
      CompleteRoundCompletesOnly(w1, ev.r, ev.now, ev.clock);
      AdvanceCompletesOnly(w1, ev.r, ev.now, ev.clock);
      assert CallOf(w, ev).writes == [CallOf(w, ev).writes[0]] + CallOf(w, ev).writes[1..];
    } else if ev.Start? {
      StartWrites(w, ev);
    } else {
      OtherEventsSafe(w, ev);
    }
  }

  lemma StartWrites(w: World, ev: Event)
    requires ev.Start? && CallOf(w, ev).Accepted?
    ensures CallOf(w, ev).writes == [SetCycleStatus(ev.c, InProgress)]
  {
  }

  /** As long as money is recorded on started cycles only, no open cycle has a completed round, hence every start
      is sound and every running cycle with rounds has an incomplete one. */
  lemma {:induction false} RunningCyclesAreUnfinished(w: World, evs: seq<Event>)
    requires Fresh(w) && Disciplined(w, evs)
    ensures OpenUntouched(Run(w, evs)) && SoundStarts(w, evs) && Unfinished(Run(w, evs))
  {
    hide Valid, Unfinished, Step, CallOf, OnStarted;
    if evs != [] {
      var front, last := evs[..|evs| - 1], evs[|evs| - 1];
      RunningCyclesAreUnfinished(w, front);
      FreshIsValid(w);
      RunKeepsValid(w, front);
      DisciplinedStep(Run(w, front), last);
    }
    SoundStartsSuffice(w, evs);
  }

  lemma DisciplinedStep(w: World, ev: Event)
    requires Valid(w) && OpenUntouched(w) && OnStarted(w, ev)
    ensures OpenUntouched(Step(w, ev)) && SoundStart(w, ev)
  {
    hide Valid, CallOf, OnStarted;
    if CallOf(w, ev).Accepted? {
      EventGuarded(w, ev);
      DisciplinedCall(w, ev);
      WritesKeepOpenUntouched(w, CallOf(w, ev).writes);
      if ev.Start? {
        StartFacts(w, ev);
        assert forall r :: 0 <= r < |w.rounds| && w.rounds[r].cycleId == ev.c ==> w.rounds[r].status != RoundCompleted;
      }
    }
  }
}
