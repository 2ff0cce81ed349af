/** The manual payout method as a rotation: if each round is assigned only once all earlier rounds are paid,
    nobody is paid twice, and the rotation closes exactly when k divides the roster. */
module Rotation {
  import opened Arith
  import opened Common
  import opened Scheduler
  import opened Tables
  import opened Cycles
  import opened Contributions
  import opened Payouts
  import opened Backend
  import LedgerLaw

  function Recipients(w: World, r: int): set<int> {
    set p | p in w.payouts && p.round == r :: p.member
  }

  predicate Settled(w: World, r: int) {
    PayoutsOf(w, r) != {} && AllDistributed(w, r)
  }

  /** One manual cycle: its rounds are the rows base .. base + count - 1, k recipients each, from a fixed roster. */
  datatype Lap = Lap(cycle: int, base: int, count: nat, k: nat, roster: set<int>)

  ghost predicate Rounds(w: World, t: Lap) {
    && HasCycle(w, t.cycle)
    && 0 <= t.base && t.base + t.count <= |w.rounds|
    && (forall r :: 0 <= r < |w.rounds| ==> (w.rounds[r].cycleId == t.cycle <==> t.base <= r < t.base + t.count))
    && (forall r :: t.base <= r < t.base + t.count ==> w.rounds[r].number == r - t.base + 1)
  }

  predicate ManualTerms(w: World, t: Lap) {
    Active(w, t.cycle) ==>
      var g := w.cycles[t.cycle].groupId;
      HasGroup(w, g) && w.groups[g].settings.payoutMethod == Manual && w.groups[g].settings.recipients == t.k
  }

  predicate FullOrEmpty(w: World, t: Lap, r: int) {
    Recipients(w, r) <= t.roster && (Recipients(w, r) == {} || |Recipients(w, r)| == t.k)
  }

  /** Round q has recipients only once the earlier round r is paid, and shares none with it. */
  predicate InTurn(w: World, r: int, q: int) {
    Recipients(w, q) != {} ==> Settled(w, r) && Recipients(w, r) !! Recipients(w, q)
  }

  /** A round has recipients only once all earlier rounds of the cycle are paid, and shares none with them. */
  ghost predicate Turns(w: World, t: Lap) {
    Rounds(w, t) && ManualTerms(w, t) && forall r, q :: t.base <= r < q < t.base + t.count ==> InTurn(w, r, q)
  }

  ghost predicate Sized(w: World, t: Lap) {
    forall r :: t.base <= r < t.base + t.count ==> FullOrEmpty(w, t, r)
  }

  /** Moreover every assigned round has k recipients from the roster. */
  ghost predicate Rotates(w: World, t: Lap) {
    Turns(w, t) && Sized(w, t)
  }

  lemma RecipientsMatch(w: World, r: int)
    ensures Recipients(w, r) == {} <==> PayoutsOf(w, r) == {}
    ensures forall m :: m in Recipients(w, r) <==> PayoutKey(r, m) in w.payouts
  {
    forall m | PayoutKey(r, m) in w.payouts ensures m in Recipients(w, r) { assert PayoutKey(r, m).member == m; }
    if PayoutsOf(w, r) != {} {
      var p :| p in PayoutsOf(w, r);
      assert p.member in Recipients(w, r);
    }
    if Recipients(w, r) != {} {
      var m :| m in Recipients(w, r);
      assert PayoutKey(r, m) in PayoutsOf(w, r);
    }
  }

  // ---- one write ----

  predicate InsideLap(w: World, x: Write, t: Lap) {
    x.ReplaceRecipients? && HasRound(w, x.round) && w.rounds[x.round].cycleId == t.cycle
  }

  /** New recipients inside the lap come after all earlier rounds were paid, and are none of theirs. */
  ghost predicate TurnSafe(w: World, x: Write, t: Lap) {
    InsideLap(w, x, t) ==> forall r :: t.base <= r < x.round ==>
      Settled(w, r) && Recipients(w, r) !! Elements(x.members)
  }

  /** New recipients inside the lap are k members of the roster. */
  predicate SizeSafe(w: World, x: Write, t: Lap) {
    InsideLap(w, x, t) ==> Elements(x.members) <= t.roster && |Elements(x.members)| == t.k
  }

  /** A write leaves a round's recipients alone unless it replaces them, and never unsettles a round. */
  lemma WriteOnRound(w: World, x: Write, r: int)
    requires Valid(w) && Guard(w, x) && HasRound(w, r)
    ensures var w' := Apply(w, x);
      && HasRound(w', r) && w'.rounds[r].cycleId == w.rounds[r].cycleId && w'.rounds[r].number == w.rounds[r].number
      && (x.ReplaceRecipients? && x.round == r ==> Recipients(w', r) == Elements(x.members) && !Settled(w, r))
      && (!(x.ReplaceRecipients? && x.round == r) ==>
          Recipients(w', r) == Recipients(w, r) && (Settled(w, r) ==> Settled(w', r)))
  {
    var w' := Apply(w, x);
    assert HasRound(w', r) && w'.rounds[r].cycleId == w.rounds[r].cycleId && w'.rounds[r].number == w.rounds[r].number;
    WriteOnPayouts(w, x, r);
    hide Valid, Guard, Apply;
    if x.ReplaceRecipients? && x.round == r {
      forall m ensures m in Recipients(w', r) <==> m in Elements(x.members) {
        RecipientsMatch(w', r);
        assert PayoutKey(r, m) in RecipientKeys(r, x.members) <==> m in x.members;
      }
      if p :| p in PayoutsOf(w, r) { assert !Distributed(w, p); }
    } else {
      RecipientsOfSame(w, w', r);
    }
  }

  lemma RecipientsOfSame(w: World, w': World, r: int)
    requires forall p :: p in PayoutsOf(w', r) <==> p in PayoutsOf(w, r)
    ensures Recipients(w', r) == Recipients(w, r)
  {
    forall m ensures m in Recipients(w', r) <==> m in Recipients(w, r) {
      RecipientsMatch(w, r);
      RecipientsMatch(w', r);
      assert PayoutKey(r, m) in PayoutsOf(w', r) <==> PayoutKey(r, m) in PayoutsOf(w, r);
    }
  }

  lemma WriteKeepsTerms(w: World, x: Write, t: Lap)
    requires Valid(w) && Guard(w, x) && Rounds(w, t) && ManualTerms(w, t)
    ensures Rounds(Apply(w, x), t) && ManualTerms(Apply(w, x), t)
  {
    hide RowSound, RowRefers, PayoutRefers, Fits, PlanSound, AnyDistributed, AllDistributed, PayoutsOf, CountCycles;
    if x.UpdateSettings? && Active(w, t.cycle) && x.group == w.cycles[t.cycle].groupId {
      assert HasActiveCycle(w, x.group);
    }
  }

  lemma WriteKeepsTurn(w: World, x: Write, t: Lap, r: int, q: int)
    requires Valid(w) && Guard(w, x) && TurnSafe(w, x, t) && t.base <= r < q && InTurn(w, r, q)
    requires HasRound(w, r) && HasRound(w, q) && w.rounds[q].cycleId == t.cycle
    ensures InTurn(Apply(w, x), r, q)
  {
    hide Valid, Guard, Apply, Recipients, Settled;
    WriteOnRound(w, x, r);
    WriteOnRound(w, x, q);
  }

  lemma WriteKeepsTurns(w: World, x: Write, t: Lap)
    requires Valid(w) && Guard(w, x) && Turns(w, t) && TurnSafe(w, x, t)
    ensures Turns(Apply(w, x), t)
  {
    hide Valid, Guard, Apply, ManualTerms, Recipients, Settled, TurnSafe, InTurn;
    WriteKeepsTerms(w, x, t);
    forall r, q | t.base <= r < q < t.base + t.count ensures InTurn(Apply(w, x), r, q) {
      assert InTurn(w, r, q);
      WriteKeepsTurn(w, x, t, r, q);
    }
  }

  lemma WriteKeepsSizes(w: World, x: Write, t: Lap)
    requires Valid(w) && Guard(w, x) && Rounds(w, t) && Sized(w, t) && SizeSafe(w, x, t)
    ensures Sized(Apply(w, x), t)
  {
    hide Valid, Guard, Apply, Recipients, Settled;
    forall r | t.base <= r < t.base + t.count ensures FullOrEmpty(Apply(w, x), t, r) {
      assert FullOrEmpty(w, t, r);
      WriteOnRound(w, x, r);
    }
  }

  predicate ReplacesNothing(xs: seq<Write>) {
    forall i :: 0 <= i < |xs| ==> !xs[i].ReplaceRecipients?
  }

  lemma {:induction false} WritesKeepTurns(w: World, xs: seq<Write>, t: Lap)
    requires Valid(w) && Guarded(w, xs) && Turns(w, t) && ReplacesNothing(xs)
    ensures Turns(ApplyAll(w, xs), t) && (Sized(w, t) ==> Sized(ApplyAll(w, xs), t))
  {
    hide Valid, Guard, Apply, ManualTerms, InTurn, Sized;
    if xs != [] {
      var front, last := xs[..|xs| - 1], xs[|xs| - 1];
      WritesKeepTurns(w, front, t);
      WritesKeepValid(w, front);
      WriteKeepsTurns(ApplyAll(w, front), last, t);
      if Sized(w, t) { WriteKeepsSizes(ApplyAll(w, front), last, t); }
    }
  }

  // ---- one call ----

  /** The owner waits for their turn: recipients of this cycle are assigned only when every earlier round is
      paid, and not drawn again once it is completed. */
  ghost predicate Patient(w: World, ev: Event, t: Lap) {
    (ev.Assign? || ev.Reroll?) && ev.c == t.cycle && CallOf(w, ev).Accepted? ==>
      if ev.Assign? then forall r :: t.base <= r < ev.r ==> Settled(w, r) else Active(w, t.cycle)
  }

  /** Moreover recipients are assigned while the cycle is active, and the group's active members are still those
      the lap started with. */
  ghost predicate Orderly(w: World, ev: Event, t: Lap) {
    && Patient(w, ev, t)
    && (ev.Assign? && ev.c == t.cycle && CallOf(w, ev).Accepted? ==>
        Active(w, t.cycle) && ActiveMembers(w, ev.g) == t.roster)
  }

  lemma EarlierRecipientsExcluded(w: World, ev: Event, t: Lap, q: int)
    requires Rounds(w, t) && ev.Assign? && CallOf(w, ev).Accepted? && ev.c == t.cycle
    requires t.base <= q < ev.r && Settled(w, q)
    ensures Recipients(w, q) !! Elements(ev.ids)
  {
    assert HasRound(w, q) && w.rounds[q].cycleId == t.cycle && w.rounds[q].number < w.rounds[ev.r].number;
    forall m | m in Recipients(w, q) ensures m !in ev.ids {
      RecipientsMatch(w, q);
      var p := PayoutKey(q, m);
      assert p in PayoutsOf(w, q) && Distributed(w, p);
      assert InEarlierRound(w, ev.c, ev.r, p);
      assert p.member in EarlierPaid(w, ev.c, ev.r);
    }
  }

  /** What an accepted change of recipients writes. */
  lemma ReplacementWrite(w: World, ev: Event)
    requires CallOf(w, ev).Accepted? && (ev.Assign? || ev.Reroll?)
    ensures var xs := CallOf(w, ev).writes;
      |xs| == 1 && xs[0].ReplaceRecipients? && xs[0].round == ev.r && (ev.Assign? ==> xs[0].members == ev.ids)
    ensures LoadRound(w, ev.g, ev.c, ev.r)
    ensures w.groups[ev.g].settings.payoutMethod == if ev.Assign? then Manual else Random
  {
    hide RerollPlan, EarlierPaid, AnyDistributed;
  }

  lemma ReplacementTurnSafe(w: World, ev: Event, t: Lap)
    requires Turns(w, t) && Patient(w, ev, t) && CallOf(w, ev).Accepted? && (ev.Assign? || ev.Reroll?)
    ensures |CallOf(w, ev).writes| == 1 && TurnSafe(w, CallOf(w, ev).writes[0], t)
  {
    hide CallOf, Settled, Recipients, InTurn;
    ReplacementWrite(w, ev);
    if ev.Assign? && ev.c == t.cycle {
      forall r | t.base <= r < ev.r ensures Settled(w, r) && Recipients(w, r) !! Elements(ev.ids) {
        EarlierRecipientsExcluded(w, ev, t, r);
      }
    }
  }

  lemma ReplacementSizeSafe(w: World, ev: Event, t: Lap)
    requires ManualTerms(w, t) && Orderly(w, ev, t) && CallOf(w, ev).Accepted? && (ev.Assign? || ev.Reroll?)
    ensures |CallOf(w, ev).writes| == 1 && SizeSafe(w, CallOf(w, ev).writes[0], t)
  {
    hide RerollPlan, EarlierPaid, AnyDistributed, Settled;
    ReplacementWrite(w, ev);
    if ev.Assign? && ev.c == t.cycle {
      forall id | id in Elements(ev.ids) ensures id in t.roster { assert IsActiveMember(w, ev.g, id); }
    }
  }

  lemma FirstOfOne(w: World, x: Write)
    requires Guarded(w, [x])
    ensures Guard(w, x) && ApplyAll(w, [x]) == Apply(w, x)
  {
    ApplyOne(w, x);
    assert [x][..0] == [];
  }

  lemma OthersReplaceNothing(w: World, ev: Event)
    requires CallOf(w, ev).Accepted? && !ev.Assign? && !ev.Reroll?
    ensures ReplacesNothing(CallOf(w, ev).writes)
  {
    hide AdvanceWrites, CompleteRoundWrites;
    if ev.Record? || ev.Approve? {
      LedgerLaw.AdvanceStatusOnly(Apply(w, CallOf(w, ev).writes[0]), ev.r, ev.now, ev.clock);
    } else if ev.PayOut? {
      LedgerLaw.CompleteRoundStatusOnly(Apply(w, CallOf(w, ev).writes[0]), ev.r, ev.now, ev.clock);
    }
  }

  /** A call that changes recipients is one guarded write. */
  lemma ReplacementStep(w: World, ev: Event)
    requires Valid(w) && CallOf(w, ev).Accepted? && |CallOf(w, ev).writes| == 1
    ensures Guard(w, CallOf(w, ev).writes[0]) && Step(w, ev) == Apply(w, CallOf(w, ev).writes[0])
  {
    hide CallOf, Valid, Guard, Apply;
    var xs := CallOf(w, ev).writes;
    EventGuarded(w, ev);
    assert xs == [xs[0]];
    FirstOfOne(w, xs[0]);
  }

  lemma StepKeepsTurns(w: World, ev: Event, t: Lap)
    requires Valid(w) && Turns(w, t) && Patient(w, ev, t)
    ensures Turns(Step(w, ev), t)
  {
    hide CallOf, Valid, Turns, Patient;
    if CallOf(w, ev).Accepted? {
      if ev.Assign? || ev.Reroll? {
        ReplacementTurnSafe(w, ev, t);
        ReplacementStep(w, ev);
        WriteKeepsTurns(w, CallOf(w, ev).writes[0], t);
      } else {
        EventGuarded(w, ev);
        OthersReplaceNothing(w, ev);
        WritesKeepTurns(w, CallOf(w, ev).writes, t);
      }
    }
  }

  lemma StepKeepsRotation(w: World, ev: Event, t: Lap)
    requires Valid(w) && Rotates(w, t) && Orderly(w, ev, t)
    ensures Rotates(Step(w, ev), t)
  {
    hide CallOf, Valid, Patient, Sized, Settled, InTurn;
    StepKeepsTurns(w, ev, t);
    if CallOf(w, ev).Accepted? {
      if ev.Assign? || ev.Reroll? {
        ReplacementSizeSafe(w, ev, t);
        ReplacementStep(w, ev);
        WriteKeepsSizes(w, CallOf(w, ev).writes[0], t);
      } else {
        EventGuarded(w, ev);
        OthersReplaceNothing(w, ev);
        WritesKeepTurns(w, CallOf(w, ev).writes, t);
      }
    }
  }

  ghost predicate PatientRun(w: World, evs: seq<Event>, t: Lap) {
    evs == [] || (PatientRun(w, evs[..|evs| - 1], t) && Patient(Run(w, evs[..|evs| - 1]), evs[|evs| - 1], t))
  }

  ghost predicate OrderlyRun(w: World, evs: seq<Event>, t: Lap) {
    evs == [] || (OrderlyRun(w, evs[..|evs| - 1], t) && Orderly(Run(w, evs[..|evs| - 1]), evs[|evs| - 1], t))
  }

  /** Whoever joins, leaves or changes places meanwhile: as long as each round waits for the earlier ones to be
      paid, rounds are assigned in turn and share no recipient. */
  lemma {:induction false} RunKeepsTurns(w: World, evs: seq<Event>, t: Lap)
    requires Valid(w) && Turns(w, t) && PatientRun(w, evs, t)
    ensures Turns(Run(w, evs), t)
  {
    hide Valid, Turns, Patient, Step;
    if evs != [] {
      var front := evs[..|evs| - 1];
      RunKeepsTurns(w, front, t);
      RunKeepsValid(w, front);
      StepKeepsTurns(Run(w, front), evs[|evs| - 1], t);
    }
  }

  /** With a fixed roster every assigned round moreover has k recipients from it. */
  lemma {:induction false} RunKeepsRotation(w: World, evs: seq<Event>, t: Lap)
    requires Valid(w) && Rotates(w, t) && OrderlyRun(w, evs, t)
    ensures Rotates(Run(w, evs), t)
  {
    hide Valid, Rotates, Orderly, Step;
    if evs != [] {
      var front := evs[..|evs| - 1];
      RunKeepsRotation(w, front, t);
      RunKeepsValid(w, front);
      StepKeepsRotation(Run(w, front), evs[|evs| - 1], t);
    }
  }

  // ---- the theorems ----

  /** The lap that starts when a group opens its next manual cycle now. */
  function NextLap(w: World, g: int): Lap
    requires HasGroup(w, g)
  {
    var k := w.groups[g].settings.recipients;
    Lap(|w.cycles|, |w.rounds|, RoundsCount(|Ordered(Roster(w, g))|, k), k, ActiveMembers(w, g))
  }

  /** A freshly opened manual cycle starts a lap over the group's active members, with ceil(n / k) rounds when
      all of them have a payout position, and no recipients. */
  lemma OpeningStartsLap(w: World, g: int, now: int, clock: nat -> nat)
    requires Valid(w) && OpenInternalCall(w, g, now, clock).Accepted?
    requires w.groups[g].settings.payoutMethod == Manual
    ensures var w', t := Outcome(w, OpenInternalCall(w, g, now, clock)), NextLap(w, g);
      Rotates(w', t) && forall r :: t.base <= r < t.base + t.count ==> Recipients(w', r) == {}
  {
    hide OpenInternalCall, NewPlan, RowsSound, Numbered, PayoutsAlike, RoundsSound, RoundsBounded, References;
    hide Apply, Rounds, ManualTerms, Recipients, RoundsCount, Roster, Ordered;
    ManualOpening(w, g, now, clock);
    var t, x := NextLap(w, g), InsertCycle(g, LastNumber(w.cycles, g) + 1, NewPlan(w, g, now, clock));
    ApplyOne(w, x);
    OpenedLap(w, x, t);
    forall r | t.base <= r < t.base + t.count ensures Recipients(Apply(w, x), r) == {} { NobodyAssigned(w, x, r); }
  }

  lemma ManualOpening(w: World, g: int, now: int, clock: nat -> nat)
    requires OpenInternalCall(w, g, now, clock).Accepted? && w.groups[g].settings.payoutMethod == Manual
    ensures HasGroup(w, g)
    ensures OpenInternalCall(w, g, now, clock)
      == Accepted([InsertCycle(g, LastNumber(w.cycles, g) + 1, NewPlan(w, g, now, clock))])
    ensures var plan := NewPlan(w, g, now, clock);
      && |plan| == NextLap(w, g).count
      && forall i :: 0 <= i < |plan| ==> plan[i].recipients == [] && plan[i].roundNumber == i + 1
  {
    hide RoundsCount, Roster, Ordered;
  }

  lemma OpenedLap(w: World, x: Write, t: Lap)
    requires References(w) && x.InsertCycle? && HasGroup(w, x.group)
      && w.groups[x.group].settings.payoutMethod == Manual
    requires t.cycle == |w.cycles| && t.base == |w.rounds| && t.count == |x.plan|
      && t.k == w.groups[x.group].settings.recipients
    requires forall i :: 0 <= i < |x.plan| ==> x.plan[i].roundNumber == i + 1
    ensures Rounds(Apply(w, x), t) && ManualTerms(Apply(w, x), t)
  {
  }

  lemma NobodyAssigned(w: World, x: Write, r: int)
    requires References(w) && x.InsertCycle? && |w.rounds| <= r < |w.rounds| + |x.plan|
      && x.plan[r - |w.rounds|].recipients == []
    ensures Recipients(Apply(w, x), r) == {}
  {
    forall p | p in Apply(w, x).payouts ensures p.round != r {
      PlanKeyPlace(|w.rounds|, x.plan, p);
      assert p in w.payouts ==> PayoutRefers(w, p.round, p.member);
    }
  }

  predicate InLap(w: World, t: Lap, r: int) {
    HasRound(w, r) && w.rounds[r].cycleId == t.cycle
  }

  /** In a patient run, from the opening on and whoever joins or leaves, no member is paid twice in the cycle: two
      paid payouts of one member are the same row. */
  lemma NobodyPaidTwice(w: World, evs: seq<Event>, t: Lap, p: PayoutKey, q: PayoutKey)
    requires Valid(w) && Turns(w, t) && PatientRun(w, evs, t)
    requires Distributed(Run(w, evs), p) && InLap(Run(w, evs), t, p.round)
    requires Distributed(Run(w, evs), q) && InLap(Run(w, evs), t, q.round)
    requires p.member == q.member
    ensures p == q
  {
    hide Run, Valid, PatientRun, Turns;
    RunKeepsTurns(w, evs, t);
    SameMemberSameRound(Run(w, evs), t, p, q);
  }

  lemma SameMemberSameRound(w: World, t: Lap, p: PayoutKey, q: PayoutKey)
    requires Turns(w, t) && p in w.payouts && q in w.payouts && InLap(w, t, p.round) && InLap(w, t, q.round)
    requires p.member == q.member
    ensures p.round == q.round
  {
    RecipientsMatch(w, p.round);
    RecipientsMatch(w, q.round);
    assert p == PayoutKey(p.round, p.member) && q == PayoutKey(q.round, q.member);
    assert p.member in Recipients(w, p.round) * Recipients(w, q.round);
    assert p.round < q.round ==> InTurn(w, p.round, q.round);
    assert q.round < p.round ==> InTurn(w, q.round, p.round);
  }

  /** The members assigned in the rounds of the lap before round q. */
  ghost function AssignedIn(w: World, t: Lap, q: int): set<int>
    decreases q - t.base
  {
    if q <= t.base then {} else AssignedIn(w, t, q - 1) + Recipients(w, q - 1)
  }

  lemma {:induction false} AssignedWhere(w: World, t: Lap, q: int, m: int)
    requires t.base <= q
    ensures m in AssignedIn(w, t, q) <==> exists r :: t.base <= r < q && m in Recipients(w, r)
    decreases q - t.base
  {
    if t.base < q {
      AssignedWhere(w, t, q - 1, m);
      assert m in Recipients(w, q - 1) || m !in Recipients(w, q - 1);
    }
  }

  lemma {:induction false} AssignedSize(w: World, t: Lap, q: int)
    requires Rotates(w, t) && t.base <= q <= t.base + t.count && forall r :: t.base <= r < q ==> Recipients(w, r) != {}
    ensures AssignedIn(w, t, q) <= t.roster && |AssignedIn(w, t, q)| == Times(q - t.base, t.k)
    decreases q - t.base
  {
    hide Times, Recipients, Settled;
    TimesStep(q - t.base, t.k);
    if t.base < q {
      AssignedSize(w, t, q - 1);
      var before, last := AssignedIn(w, t, q - 1), Recipients(w, q - 1);
      assert FullOrEmpty(w, t, q - 1);
      forall m | m in before ensures m !in last {
        AssignedWhere(w, t, q - 1, m);
        var r :| t.base <= r < q - 1 && m in Recipients(w, r);
        assert InTurn(w, r, q - 1);
      }
      assert |before + last| == |before| + |last|;
    }
  }

  /** The lap has as many rounds as it takes k recipients at a time to cover its roster. */
  predicate CoversRoster(t: Lap) {
    t.k > 0 && t.roster != {} && t.count == RoundsCount(|t.roster|, t.k)
  }

  /** A fully assigned lap names every roster member in exactly one round, and so needs k to divide the roster. */
  lemma FullLapNamesEveryone(w: World, t: Lap)
    requires Rotates(w, t) && CoversRoster(t) && forall r :: t.base <= r < t.base + t.count ==> Recipients(w, r) != {}
    ensures t.k > 0 && |t.roster| % t.k == 0
    ensures forall m :: m in t.roster ==> exists r :: t.base <= r < t.base + t.count && m in Recipients(w, r)
    ensures forall r, q :: t.base <= r < q < t.base + t.count ==> Recipients(w, r) !! Recipients(w, q)
  {
    hide Recipients, FullOrEmpty, Settled, AssignedIn, CoversRoster, Times;
    forall r, q | t.base <= r < q < t.base + t.count ensures Recipients(w, r) !! Recipients(w, q) {
      assert InTurn(w, r, q);
    }
    var all := AssignedIn(w, t, t.base + t.count);
    AssignedSize(w, t, t.base + t.count);
    SubsetCardinality(all, t.roster);
    FullLapSize(t);
    forall m | m in t.roster ensures exists r :: t.base <= r < t.base + t.count && m in Recipients(w, r) {
      AssignedWhere(w, t, t.base + t.count, m);
    }
  }

  lemma FullLapSize(t: Lap)
    requires CoversRoster(t) && Times(t.count, t.k) <= |t.roster|
    ensures t.k > 0 && Times(t.count, t.k) == |t.roster| && |t.roster| % t.k == 0
  {
    CeilExact(|t.roster|, t.k, t.count);
  }

  /** What the owner needs for the last round of a lap: the earlier rounds are paid, this one is not. */
  ghost predicate AtLastRound(w: World, t: Lap) {
    && Rotates(w, t) && Active(w, t.cycle) && CoversRoster(t)
    && HasGroup(w, w.cycles[t.cycle].groupId) && ActiveMembers(w, w.cycles[t.cycle].groupId) == t.roster
    && (forall r :: t.base <= r < t.base + t.count - 1 ==> Settled(w, r))
    && !AnyDistributed(w, t.base + t.count - 1)
  }

  predicate LastAssignAccepted(w: World, t: Lap, ids: seq<int>)
    requires HasCycle(w, t.cycle)
  {
    AssignCall(w, w.cycles[t.cycle].groupId, t.cycle, t.base + t.count - 1, ids, Owner).Accepted?
  }

  lemma BeforeLast(w: World, t: Lap)
    requires AtLastRound(w, t)
    ensures t.count >= 1 && AssignedIn(w, t, t.base + t.count - 1) <= t.roster
    ensures |t.roster - AssignedIn(w, t, t.base + t.count - 1)| == |t.roster| - Times(t.count - 1, t.k)
  {
    hide Rotates, AssignedIn, Recipients, Times, CoversRoster, ActiveMembers, AnyDistributed;
    LapHasRounds(t);
    var last := t.base + t.count - 1;
    forall r | t.base <= r < last ensures Recipients(w, r) != {} {
      assert Settled(w, r);
      RecipientsMatch(w, r);
    }
    AssignedSize(w, t, last);
    DifferenceSize(t.roster, AssignedIn(w, t, last));
  }

  lemma LapHasRounds(t: Lap)
    requires CoversRoster(t)
    ensures t.k > 0 && t.count >= 1
  {
    CeilOne(|t.roster|, t.k, t.count);
  }

  lemma DifferenceSize<T>(a: set<T>, b: set<T>)
    requires b <= a
    ensures |a - b| == |a| - |b|
  {
    assert a == (a - b) + b;
  }

  /** After all rounds but the last, at most k members are left, and k exactly when k divides n. */
  lemma LastRoundRoom(t: Lap)
    requires CoversRoster(t)
    ensures t.k > 0 && t.count >= 1
    ensures var left := |t.roster| - Times(t.count - 1, t.k); left <= t.k && (left == t.k <==> |t.roster| % t.k == 0)
  {
    CeilOne(|t.roster|, t.k, t.count);
    CeilExact(|t.roster|, t.k, t.count);
    TimesStep(t.count - 1, t.k);
  }

  /** The last round can be assigned if and only if k divides the roster: otherwise only n mod k < k unpaid
      members remain, and every assignment is refused. */
  lemma LastRoundAssignableIff(w: World, t: Lap)
    requires Valid(w) && AtLastRound(w, t)
    ensures t.k > 0 && ((exists ids :: LastAssignAccepted(w, t, ids)) <==> |t.roster| % t.k == 0)
  {
    var n, free := |t.roster|, t.roster - AssignedIn(w, t, t.base + t.count - 1);
    BeforeLast(w, t);
    LastRoundRoom(t);
    hide Valid, AtLastRound, CoversRoster, LastAssignAccepted, AssignedIn, Times;
    if exists ids :: LastAssignAccepted(w, t, ids) {
      var ids :| LastAssignAccepted(w, t, ids);
      AcceptedIdsAreFree(w, t, ids);
      SubsetCardinality(Elements(ids), free);
    }
    if n % t.k == 0 {
      var ids := ListOf(free);
      FreeIdsAreAccepted(w, t, ids);
    }
  }

  lemma AcceptedFacts(w: World, t: Lap, ids: seq<int>)
    requires AtLastRound(w, t) && LastAssignAccepted(w, t, ids)
    ensures Rounds(w, t) && t.count >= 1 && |Elements(ids)| == t.k
    ensures forall id :: id in ids ==> id in t.roster
    ensures forall r :: t.base <= r < t.base + t.count - 1 ==> Settled(w, r)
  {
    hide CoversRoster, Settled, FullOrEmpty, InTurn, EarlierPaid;
    LapHasRounds(t);
    forall id | id in ids ensures id in t.roster {
      assert IsActiveMember(w, w.cycles[t.cycle].groupId, id);
      assert id in ActiveMembers(w, w.cycles[t.cycle].groupId);
    }
  }

  lemma AcceptedIdsAreFree(w: World, t: Lap, ids: seq<int>)
    requires Valid(w) && AtLastRound(w, t) && LastAssignAccepted(w, t, ids)
    ensures |Elements(ids)| == t.k && Elements(ids) <= t.roster - AssignedIn(w, t, t.base + t.count - 1)
  {
    hide Apply;
    var g, last := w.cycles[t.cycle].groupId, t.base + t.count - 1;
    var ev := Assign(g, t.cycle, last, ids, Owner);
    assert CallOf(w, ev).Accepted?;
    hide Valid, AtLastRound, LastAssignAccepted, AssignedIn, CallOf, Recipients, Settled, Rounds;
    AcceptedFacts(w, t, ids);
    forall id | id in Elements(ids) ensures id in t.roster && id !in AssignedIn(w, t, last) {
      AssignedWhere(w, t, last, id);
      if r :| t.base <= r < last && id in Recipients(w, r) { EarlierRecipientsExcluded(w, ev, t, r); }
    }
  }

  lemma FreeIdsAreAccepted(w: World, t: Lap, ids: seq<int>)
    requires Valid(w) && AtLastRound(w, t) && |ids| == t.k == |Elements(ids)|
    requires Elements(ids) <= t.roster - AssignedIn(w, t, t.base + t.count - 1)
    ensures LastAssignAccepted(w, t, ids)
  {
    hide Valid, AssignedIn, EarlierPaid, CoversRoster, Recipients, Settled, FullOrEmpty, InTurn;
    var g, last := w.cycles[t.cycle].groupId, t.base + t.count - 1;
    LapHasRounds(t);
    forall id | id in ids ensures IsActiveMember(w, g, id) && id !in EarlierPaid(w, t.cycle, last) {
      assert id in Elements(ids);
      assert id in ActiveMembers(w, g);
      EarlierPaidIsAssigned(w, t, last, id);
    }
  }

  lemma EarlierPaidIsAssigned(w: World, t: Lap, r: int, id: int)
    requires Rounds(w, t) && t.base <= r < t.base + t.count
    ensures id in EarlierPaid(w, t.cycle, r) ==> id in AssignedIn(w, t, r)
  {
    AssignedWhere(w, t, r, id);
    if id in EarlierPaid(w, t.cycle, r) {
      var p :| p in w.payouts && Distributed(w, p) && InEarlierRound(w, t.cycle, r, p) && p.member == id;
      RecipientsMatch(w, p.round);
      assert p == PayoutKey(p.round, id);
      assert t.base <= p.round < r && id in Recipients(w, p.round);
    }
  }
}
