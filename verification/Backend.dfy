/** The backend as a state machine: one event per service call, runs of events, and the facts that every
    single write of every call keeps true. */
module Backend {
  import opened Common
  import opened Scheduler
  import opened Tables
  import opened Cycles
  import opened Contributions
  import opened Payouts
  import opened LateDetection
  import opened Members
  import opened Groups
  import Fairness

  /** A request as it reaches a service: g, c, r, m name a group, cycle, round and member. */
  datatype Event =
    | Upload(g: int, c: int, r: int, m: int, user: int, role: Role, file: ProofFile)
    | Record(g: int, c: int, r: int, m: int, role: Role, now: int, clock: nat -> nat)
    | Approve(g: int, c: int, r: int, m: int, role: Role, now: int, clock: nat -> nat)
    | Reject(g: int, c: int, r: int, m: int, role: Role)
    | Waive(g: int, c: int, r: int, m: int, role: Role)
    | PayOut(g: int, c: int, r: int, role: Role, receipt: Receipt, paidAt: int -> int, now: int, clock: nat -> nat)
    | Assign(g: int, c: int, r: int, ids: seq<int>, role: Role)
    | Reroll(g: int, c: int, r: int, role: Role, now: int, clock: nat -> nat)
    | OpenNext(g: int, role: Role, now: int, clock: nat -> nat)
    | Start(g: int, c: int, role: Role)
    | Complete(g: int, c: int, role: Role, now: int, clock: nat -> nat)
    | Sweep(now: int)
    | Join(g: int, role: Role, user: int, memberRole: Option<Role>, position: Option<int>)
    | Edit(g: int, m: int, role: Role, newRole: Option<Role>, position: Option<int>)
    | Leave(g: int, m: int, role: Role)
    | Configure(g: int, patch: SettingsPatch)
    | Suspend(g: int)
    | Reactivate(g: int)

  function CallOf(w: World, ev: Event): Call {
    match ev
    case Upload(g, c, r, m, user, role, file) => UploadCall(w, g, c, r, m, user, role, file)
    case Record(g, c, r, m, role, now, clock) => RecordCall(w, g, c, r, m, role, now, clock)
    case Approve(g, c, r, m, role, now, clock) => ApproveCall(w, g, c, r, m, role, now, clock)
    case Reject(g, c, r, m, role) => RejectCall(w, g, c, r, m, role)
    case Waive(g, c, r, m, role) => WaiveCall(w, g, c, r, m, role)
    case PayOut(g, c, r, role, receipt, paidAt, now, clock) =>
      RecordPayoutCall(w, g, c, r, role, receipt, paidAt, now, clock)
    case Assign(g, c, r, ids, role) => AssignCall(w, g, c, r, ids, role)
    case Reroll(g, c, r, role, now, clock) => RerollCall(w, g, c, r, role, now, clock)
    case OpenNext(g, role, now, clock) => OpenCall(w, g, role, now, clock)
    case Start(g, c, role) => StartCall(w, g, c, role)
    case Complete(g, c, role, now, clock) => CompleteCall(w, g, c, role, now, clock)
    case Sweep(now) => SweepCall(w, now)
    case Join(g, role, user, memberRole, position) => AddMemberCall(w, g, role, user, memberRole, position)
    case Edit(g, m, role, newRole, position) => UpdateMemberCall(w, g, m, role, newRole, position)
    case Leave(g, m, role) => RemoveMemberCall(w, g, m, role)
    case Configure(g, patch) => UpdateSettingsCall(w, g, patch)
    case Suspend(g) => SuspendCall(w, g)
    case Reactivate(g) => ReactivateCall(w, g)
  }

  function Step(w: World, ev: Event): World {
    Outcome(w, CallOf(w, ev))
  }

  /** A run: the calls one after the other, each atomic; a refused call leaves the tables alone. */
  function Run(w: World, evs: seq<Event>): World {
    if evs == [] then w else Step(Run(w, evs[..|evs| - 1]), evs[|evs| - 1])
  }

  // ---- the invariant ----

  /** Foreign keys hold, every contribution carries the cycle and the group of its round, and payouts go to
      members of the round's own group. */
  ghost predicate References(w: World) {
    && (forall m :: 0 <= m < |w.members| ==> HasGroup(w, w.members[m].groupId))
    && (forall c :: 0 <= c < |w.cycles| ==> HasGroup(w, w.cycles[c].groupId))
    && (forall r :: 0 <= r < |w.rounds| ==> HasCycle(w, w.rounds[r].cycleId))
    && (forall k :: k in w.contributions ==> RowRefers(w, k, w.contributions[k]))
    && (forall p :: p in w.payouts ==> PayoutRefers(w, p.round, p.member))
  }

  predicate PayoutRefers(w: World, r: int, m: int) {
    HasRound(w, r) && HasCycle(w, w.rounds[r].cycleId) && BelongsTo(w, m, w.cycles[w.rounds[r].cycleId].groupId)
  }

  predicate BelongsTo(w: World, m: int, g: int) {
    HasMember(w, m) && w.members[m].groupId == g
  }

  predicate RowRefers(w: World, k: Key, row: Contribution) {
    && HasRound(w, k.round) && HasMember(w, k.member)
    && w.rounds[k.round].cycleId == k.cycle && HasCycle(w, k.cycle) && w.cycles[k.cycle].groupId == row.groupId
  }

  /** A pending row has no payment date and a paid row has one. While its cycle is active a row's amount is
      the group's contribution amount. */
  predicate RowSound(w: World, k: Key, row: Contribution) {
    && (row.status == Pending ==> row.paidDate.None?)
    && (row.status == Paid ==> row.paidDate.Some?)
    && row.amount >= 0
    && (Active(w, k.cycle) && HasGroup(w, row.groupId) ==> row.amount == w.groups[row.groupId].settings.amount)
  }

  ghost predicate RowsSound(w: World) {
    forall k :: k in w.contributions ==> RowSound(w, k, w.contributions[k])
  }

  /** How many of the first n cycles belong to the group. */
  function CountCycles(cycles: seq<Cycle>, g: int, n: nat): nat
    requires n <= |cycles|
  {
    if n == 0 then 0 else CountCycles(cycles, g, n - 1) + if cycles[n - 1].groupId == g then 1 else 0
  }

  /** A group's cycles are numbered 1, 2, 3, ... in the order of their creation. */
  ghost predicate Consecutive(cycles: seq<Cycle>) {
    forall c :: 0 <= c < |cycles| ==> cycles[c].number == CountCycles(cycles, cycles[c].groupId, c) + 1
  }

  /** All cycles of a group but its last are completed. */
  ghost predicate OnlyLastActive(cycles: seq<Cycle>) {
    forall c, d :: 0 <= c < d < |cycles| && cycles[c].groupId == cycles[d].groupId ==>
      cycles[c].status == CycleCompleted
  }

  /** The rounds of a cycle are numbered upwards from 1, and no total is negative. */
  ghost predicate Ascending(rounds: seq<Round>) {
    && (forall r, q :: 0 <= r < q < |rounds| && rounds[r].cycleId == rounds[q].cycleId ==>
        rounds[r].number < rounds[q].number)
    && (forall r :: 0 <= r < |rounds| ==> rounds[r].number >= 1 && rounds[r].total >= 0)
  }

  ghost predicate Numbered(w: World) {
    Consecutive(w.cycles) && OnlyLastActive(w.cycles) && Ascending(w.rounds)
  }

  predicate Alike(a: Payout, b: Payout) {
    a.amount == b.amount && (a.paidAt.Some? <==> b.paidAt.Some?)
  }

  /** The payout rows of a round are alike: all unpaid, or all paid with one amount. */
  ghost predicate PayoutsAlike(w: World) {
    forall p, q :: p in w.payouts && q in w.payouts && p.round == q.round ==> Alike(w.payouts[p], w.payouts[q])
  }

  predicate PreAssigned(s: Settings) {
    (s.payoutMethod == Queue || s.payoutMethod == Random) && s.recipients > 0
  }

  /** The round belongs to an active cycle of a group that assigns recipients in advance. */
  predicate Preset(w: World, r: int) {
    && HasRound(w, r) && Active(w, w.rounds[r].cycleId) && HasGroup(w, w.cycles[w.rounds[r].cycleId].groupId)
    && PreAssigned(w.groups[w.cycles[w.rounds[r].cycleId].groupId].settings)
  }

  /** Rounds never reach paid_out. In an active cycle with pre-assigned recipients every round has a payout,
      and a completed round has paid all of them. */
  ghost predicate RoundsSound(w: World) {
    && (forall r :: 0 <= r < |w.rounds| ==> w.rounds[r].status != PaidOut)
    && (forall r :: 0 <= r < |w.rounds| && Preset(w, r) ==>
          PayoutsOf(w, r) != {} && (w.rounds[r].status == RoundCompleted ==> AllDistributed(w, r)))
  }

  /** While the round's cycle is active, n recipients are no more than the group allows per round. */
  predicate Fits(w: World, r: int, n: int) {
    && HasRound(w, r)
    && (Active(w, w.rounds[r].cycleId) && HasGroup(w, w.cycles[w.rounds[r].cycleId].groupId) ==>
         n <= w.groups[w.cycles[w.rounds[r].cycleId].groupId].settings.recipients)
  }

  /** No round of an active cycle has more recipients than the group's setting. */
  ghost predicate RoundsBounded(w: World) {
    forall r :: 0 <= r < |w.rounds| ==> Fits(w, r, |PayoutsOf(w, r)|)
  }

  ghost predicate Valid(w: World) {
    References(w) && RowsSound(w) && Numbered(w) && PayoutsAlike(w) && RoundsSound(w) && RoundsBounded(w)
  }

  // ---- what the services guarantee about every single write ----

  function GroupOfRound(w: World, r: int): int
    requires HasRound(w, r) && HasCycle(w, w.rounds[r].cycleId)
  {
    w.cycles[w.rounds[r].cycleId].groupId
  }

  predicate SameTerms(s: Settings, t: Settings) {
    && s.maxMembers == t.maxMembers && s.amount == t.amount && s.frequency == t.frequency
    && s.recipients == t.recipients && s.payoutMethod == t.payoutMethod
  }

  ghost predicate PlanSound(w: World, g: int, plan: seq<GeneratedRound>)
    requires HasGroup(w, g)
  {
    && (forall i :: 0 <= i < |plan| ==> plan[i].roundNumber == i + 1)
    && (forall i, m :: 0 <= i < |plan| && m in plan[i].recipients ==> BelongsTo(w, m, g))
    && (PreAssigned(w.groups[g].settings) ==> forall i :: 0 <= i < |plan| ==> plan[i].recipients != [])
    && (forall i :: 0 <= i < |plan| ==> |plan[i].recipients| <= w.groups[g].settings.recipients)
  }

  ghost predicate Guard(w: World, x: Write) {
    match x
    case PutContribution(k, row, credited) =>
      RowRefers(w, k, row) && RowSound(w, k, row) && (Dated(w, k) ==> row.paidDate.Some?)
    case MarkLate(keys) => forall k :: k in keys ==> k in w.contributions && w.contributions[k].status == Pending
    case SetRoundStatus(r, s) =>
      && HasRound(w, r)
      && ((s == Collecting && w.rounds[r].status == RoundPending) || (s == RoundCompleted && AllDistributed(w, r)))
    case SetCycleStatus(c, s) =>
      && HasCycle(w, c)
      && ((s == InProgress && w.cycles[c].status == Open)
          || (s == CycleCompleted && w.cycles[c].status != CycleCompleted))
    case InsertCycle(g, number, plan) =>
      && HasGroup(w, g) && !HasActiveCycle(w, g) && number == CountCycles(w.cycles, g, |w.cycles|) + 1
      && PlanSound(w, g, plan)
    case PayRecipients(r, amount, at) =>
      HasRound(w, r) && PayoutsOf(w, r) != {} && !AnyDistributed(w, r)
    case ReplaceRecipients(r, ms) =>
      Fits(w, r, |ms|) && !AnyDistributed(w, r) && ms != [] && forall m :: m in ms ==> PayoutRefers(w, r, m)
    case InsertMember(row) => HasGroup(w, row.groupId)
    case UpdateMember(m, row) => HasMember(w, m) && row.groupId == w.members[m].groupId
    case UpdateSettings(g, s) => HasGroup(w, g) && (HasActiveCycle(w, g) ==> SameTerms(s, w.groups[g].settings))
    case SetGroupStatus(g, s) => HasGroup(w, g)
  }

  ghost predicate Guarded(w: World, xs: seq<Write>) {
    xs == [] || (Guarded(w, xs[..|xs| - 1]) && Guard(ApplyAll(w, xs[..|xs| - 1]), xs[|xs| - 1]))
  }

  lemma {:induction false} GuardedConcat(w: World, xs: seq<Write>, ys: seq<Write>)
    requires Guarded(w, xs) && Guarded(ApplyAll(w, xs), ys)
    ensures Guarded(w, xs + ys)
  {
    if ys == [] {
      assert xs + ys == xs;
    } else {
      var front := ys[..|ys| - 1];
      GuardedConcat(w, xs, front);
      ApplyAllConcat(w, xs, front);
      assert (xs + ys)[..|xs + ys| - 1] == xs + front;
    }
  }

  lemma GuardedOne(w: World, x: Write)
    requires Guard(w, x)
    ensures Guarded(w, [x]) && ApplyAll(w, [x]) == Apply(w, x)
  {
    ApplyOne(w, x);
    assert [x][..0] == [];
    assert Guarded(w, []);
  }

  // ---- every guarded write keeps the invariant ----

  lemma PlanKeyPlace(base: int, plan: seq<GeneratedRound>, p: PayoutKey)
    ensures p in PlanKeys(base, plan) <==>
      base <= p.round < base + |plan| && p.member in plan[p.round - base].recipients
  {
    if base <= p.round < base + |plan| && p.member in plan[p.round - base].recipients {
      assert p == PayoutKey(base + (p.round - base), p.member);
    }
  }

  lemma WriteKeepsReferences(w: World, x: Write)
    requires References(w) && Guard(w, x)
    ensures References(Apply(w, x))
  {
    if x.InsertCycle? {
      InsertKeepsReferences(w, x);
    } else {
      hide RowSound, PlanSound, CountCycles, AnyDistributed, AllDistributed, PayoutsOf, RowRefers, PayoutRefers;
      var w' := Apply(w, x);
      forall k | k in w'.contributions ensures RowRefers(w', k, w'.contributions[k]) { RowStaysReferring(w, x, k); }
      forall p | p in w'.payouts ensures PayoutRefers(w', p.round, p.member) { PayoutStaysReferring(w, x, p); }
    }
  }

  lemma RowStaysReferring(w: World, x: Write, k: Key)
    requires References(w) && Guard(w, x) && !x.InsertCycle? && k in Apply(w, x).contributions
    ensures RowRefers(Apply(w, x), k, Apply(w, x).contributions[k])
  {
    hide RowSound, PlanSound, CountCycles, AnyDistributed, AllDistributed, PayoutsOf, PayoutRefers;
    if k in w.contributions { assert RowRefers(w, k, w.contributions[k]); }
  }

  lemma PayoutStaysReferring(w: World, x: Write, p: PayoutKey)
    requires References(w) && Guard(w, x) && !x.InsertCycle? && p in Apply(w, x).payouts
    ensures PayoutRefers(Apply(w, x), p.round, p.member)
  {
    hide RowSound, PlanSound, CountCycles, AnyDistributed, AllDistributed, PayoutsOf, RowRefers;
    if p in w.payouts { assert PayoutRefers(w, p.round, p.member); }
  }

  lemma InsertKeepsReferences(w: World, x: Write)
    requires References(w) && Guard(w, x) && x.InsertCycle?
    ensures References(Apply(w, x))
  {
    var w' := Apply(w, x);
    forall k | k in w'.contributions ensures RowRefers(w', k, w'.contributions[k]) {
      assert RowRefers(w, k, w.contributions[k]);
    }
    forall p | p in w'.payouts ensures PayoutRefers(w', p.round, p.member) {
      PlanKeyPlace(|w.rounds|, x.plan, p);
      if p in PlanKeys(|w.rounds|, x.plan) {
        assert p.member in x.plan[p.round - |w.rounds|].recipients;
        assert BelongsTo(w, p.member, x.group);
      } else {
        assert p in w.payouts;
        assert PayoutRefers(w, p.round, p.member);
      }
    }
  }

  lemma WriteKeepsRows(w: World, x: Write)
    requires References(w) && RowsSound(w) && Guard(w, x)
    ensures RowsSound(Apply(w, x))
  {
    hide PlanSound, CountCycles, AnyDistributed, AllDistributed, PayoutsOf, PayoutRefers;
    var w' := Apply(w, x);
    match x
    case UpdateSettings(g, s) =>
      forall k | k in w'.contributions ensures RowSound(w', k, w'.contributions[k]) {
        assert RowSound(w, k, w.contributions[k]);
        assert RowRefers(w, k, w.contributions[k]);
      }
    case _ =>
  }

  lemma {:induction false} CountCyclesSame(a: seq<Cycle>, b: seq<Cycle>, g: int, n: nat)
    requires n <= |a| && n <= |b| && forall c :: 0 <= c < n ==> a[c].groupId == b[c].groupId
    ensures CountCycles(a, g, n) == CountCycles(b, g, n)
  {
    if n > 0 { CountCyclesSame(a, b, g, n - 1); }
  }

  lemma CyclesStayConsecutive(a: seq<Cycle>, b: seq<Cycle>)
    requires Consecutive(a) && |a| <= |b| <= |a| + 1
    requires forall c :: 0 <= c < |a| ==> b[c].groupId == a[c].groupId && b[c].number == a[c].number
    requires |b| == |a| + 1 ==> b[|a|].number == CountCycles(a, b[|a|].groupId, |a|) + 1
    ensures Consecutive(b)
  {
    forall c | 0 <= c < |b| ensures b[c].number == CountCycles(b, b[c].groupId, c) + 1 {
      CountCyclesSame(a, b, b[c].groupId, c);
    }
  }

  lemma WriteKeepsNumbers(w: World, x: Write)
    requires References(w) && Numbered(w) && Guard(w, x)
    ensures Numbered(Apply(w, x))
  {
    hide Consecutive, Ascending, OnlyLastActive;
    WriteKeepsConsecutive(w, x);
    WriteKeepsLastActive(w, x);
    if x.InsertCycle? { InsertedRoundsAscend(w, x); } else { OtherRoundsAscend(w, x); }
  }

  lemma WriteKeepsConsecutive(w: World, x: Write)
    requires Consecutive(w.cycles) && Guard(w, x)
    ensures Consecutive(Apply(w, x).cycles)
  {
    hide Consecutive, PlanSound, RowSound, RowRefers, AllDistributed, AnyDistributed;
    CyclesStayConsecutive(w.cycles, Apply(w, x).cycles);
  }

  lemma WriteKeepsLastActive(w: World, x: Write)
    requires OnlyLastActive(w.cycles) && Guard(w, x)
    ensures OnlyLastActive(Apply(w, x).cycles)
  {
    hide CountCycles, PlanSound, RowSound, RowRefers, AllDistributed, AnyDistributed;
    if x.InsertCycle? {
      forall c | 0 <= c < |w.cycles| && w.cycles[c].groupId == x.group ensures w.cycles[c].status == CycleCompleted {
        assert !Active(w, c);
      }
    }
  }

  lemma OtherRoundsAscend(w: World, x: Write)
    requires Ascending(w.rounds) && Guard(w, x) && !x.InsertCycle?
    ensures Ascending(Apply(w, x).rounds)
  {
    hide CountCycles, PlanSound, RowRefers, AllDistributed, AnyDistributed;
  }

  lemma InsertedRoundsAscend(w: World, x: Write)
    requires References(w) && Ascending(w.rounds) && Guard(w, x) && x.InsertCycle?
    ensures Ascending(Apply(w, x).rounds)
  {
  }

  lemma RowsStayAlike(w: World, x: Write, r: int)
    requires References(w) && PayoutsAlike(w) && Guard(w, x)
    ensures forall p, q :: p in PayoutsOf(Apply(w, x), r) && q in PayoutsOf(Apply(w, x), r) ==>
      Alike(Apply(w, x).payouts[p], Apply(w, x).payouts[q])
  {
    hide RowRefers, RowSound, CountCycles, PlanSound, SameTerms, Fits;
    if x.InsertCycle? {
      hide Apply, References, Guard, PayoutRefers, AnyDistributed;
      forall p | p in PayoutsOf(Apply(w, x), r) { InsertedPayout(w, x, p); }
    }
  }

  /** Opening a cycle leaves the payouts of the older rounds alone, and those of the new ones are unpaid. */
  lemma InsertedPayout(w: World, x: Write, p: PayoutKey)
    requires References(w) && x.InsertCycle? && p in Apply(w, x).payouts
    ensures p in w.payouts <==> p.round < |w.rounds|
    ensures Apply(w, x).payouts[p] == if p in w.payouts then w.payouts[p] else Payout(0, None)
  {
    hide RowRefers;
    PlanKeyPlace(|w.rounds|, x.plan, p);
    assert p in w.payouts ==> PayoutRefers(w, p.round, p.member);
  }

  lemma WriteKeepsPayoutsAlike(w: World, x: Write)
    requires References(w) && PayoutsAlike(w) && Guard(w, x)
    ensures PayoutsAlike(Apply(w, x))
  {
    hide References, Guard, Apply;
    var w' := Apply(w, x);
    forall p, q | p in w'.payouts && q in w'.payouts && p.round == q.round ensures Alike(w'.payouts[p], w'.payouts[q]) {
      RowsStayAlike(w, x, p.round);
      assert p in PayoutsOf(w', p.round) && q in PayoutsOf(w', p.round);
    }
  }

  lemma WriteKeepsRounds(w: World, x: Write)
    requires Valid(w) && Guard(w, x)
    ensures RoundsSound(Apply(w, x))
  {
    var w' := Apply(w, x);
    forall r | 0 <= r < |w'.rounds| && Preset(w', r)
      ensures PayoutsOf(w', r) != {} && (w'.rounds[r].status == RoundCompleted ==> AllDistributed(w', r))
    {
      if r < |w.rounds| { OldRoundStaysSound(w, x, r); } else { NewRoundIsSound(w, x, r); }
    }
  }

  /** What a write does to the payouts of a round: a replacement sets new ones, if none was paid; any other
      write leaves the set as it is and the paid rows untouched. */
  lemma WriteOnPayouts(w: World, x: Write, r: int)
    requires Guard(w, x) && HasRound(w, r)
    ensures x.ReplaceRecipients? && x.round == r ==>
      (!AnyDistributed(w, r) && PayoutsOf(Apply(w, x), r) == RecipientKeys(r, x.members) != {})
    ensures !(x.ReplaceRecipients? && x.round == r) ==> PayoutsOf(Apply(w, x), r) == PayoutsOf(w, r)
    ensures forall p :: p in PayoutsOf(w, r) && Distributed(w, p) ==>
      p in Apply(w, x).payouts && Apply(w, x).payouts[p] == w.payouts[p]
  {
    hide RowRefers, RowSound, PlanSound, CountCycles, Fits, PayoutRefers, AllDistributed, SameTerms;
    var w' := Apply(w, x);
    match x
    case ReplaceRecipients(q, ms) =>
      assert PayoutKey(q, ms[0]) in RecipientKeys(q, ms);
    case InsertCycle(g, number, plan) =>
      forall p ensures p in PayoutsOf(w', r) <==> p in PayoutsOf(w, r) { PlanKeyPlace(|w.rounds|, plan, p); }
      forall p | p in PayoutsOf(w, r) ensures w'.payouts[p] == w.payouts[p] { PlanKeyPlace(|w.rounds|, plan, p); }
    case _ =>
  }

  lemma OldPresetRound(w: World, x: Write, r: int)
    requires Valid(w) && Guard(w, x) && HasRound(w, r) && Preset(Apply(w, x), r)
    ensures Preset(w, r)
    ensures Apply(w, x).rounds[r].status == RoundCompleted ==>
      (w.rounds[r].status == RoundCompleted || (x == SetRoundStatus(r, RoundCompleted) && AllDistributed(w, r)))
  {
    hide AnyDistributed, AllDistributed, PayoutsOf, RowSound, RowRefers, CountCycles, PlanSound;
    if x.UpdateSettings? && x.group == GroupOfRound(w, r) { assert HasActiveCycle(w, x.group); }
  }

  lemma OldRoundStaysSound(w: World, x: Write, r: int)
    requires Valid(w) && Guard(w, x) && HasRound(w, r) && Preset(Apply(w, x), r)
    ensures var w' := Apply(w, x);
      PayoutsOf(w', r) != {} && (w'.rounds[r].status == RoundCompleted ==> AllDistributed(w', r))
  {
    OldPresetRound(w, x, r);
    WriteOnPayouts(w, x, r);
    assert PayoutsOf(w, r) != {} && (w.rounds[r].status == RoundCompleted ==> AllDistributed(w, r));
    hide Valid, Guard, Apply, Preset, RecipientKeys;
    if x.ReplaceRecipients? && x.round == r {
      var p :| p in PayoutsOf(w, r);
      assert !Distributed(w, p);
    }
  }

  lemma NewRoundIsSound(w: World, x: Write, r: int)
    requires Valid(w) && Guard(w, x) && !HasRound(w, r) && Preset(Apply(w, x), r)
    ensures var w' := Apply(w, x);
      PayoutsOf(w', r) != {} && (w'.rounds[r].status == RoundCompleted ==> AllDistributed(w', r))
  {
    var w' := Apply(w, x);
    assert x.InsertCycle?;
    var i := r - |w.rounds|;
    var key := PayoutKey(r, x.plan[i].recipients[0]);
    PlanKeyPlace(|w.rounds|, x.plan, key);
    assert key in PayoutsOf(w', r);
  }

  lemma {:induction false} RecipientKeysSize(r: int, ms: seq<int>)
    ensures |RecipientKeys(r, ms)| <= |ms|
  {
    if ms == [] {
      assert RecipientKeys(r, ms) == {};
    } else {
      var front, last := ms[..|ms| - 1], ms[|ms| - 1];
      RecipientKeysSize(r, front);
      assert RecipientKeys(r, ms) == RecipientKeys(r, front) + {PayoutKey(r, last)};
    }
  }

  lemma FitsStill(w: World, x: Write, r: int, n: int)
    requires Valid(w) && Guard(w, x) && Fits(w, r, n)
    ensures Fits(Apply(w, x), r, n)
  {
    hide AnyDistributed, AllDistributed, PayoutsOf, RowSound, RowRefers, CountCycles, PlanSound, PayoutRefers;
    if x.UpdateSettings? && Active(w, w.rounds[r].cycleId) && x.group == w.cycles[w.rounds[r].cycleId].groupId {
      assert HasActiveCycle(w, x.group);
    }
  }

  lemma NewRoundFits(w: World, x: Write, r: int)
    requires Valid(w) && Guard(w, x) && !HasRound(w, r) && HasRound(Apply(w, x), r)
    ensures Fits(Apply(w, x), r, |PayoutsOf(Apply(w, x), r)|)
  {
    hide RowRefers, RowSound, CountCycles, AllDistributed, AnyDistributed, BelongsTo, Consecutive, OnlyLastActive,
      Ascending;
    var w' := Apply(w, x);
    assert x.InsertCycle?;
    var recipients := x.plan[r - |w.rounds|].recipients;
    forall p ensures p in PayoutsOf(w', r) <==> p in RecipientKeys(r, recipients) {
      PlanKeyPlace(|w.rounds|, x.plan, p);
      assert p in w.payouts ==> PayoutRefers(w, p.round, p.member);
      assert p == PayoutKey(p.round, p.member);
    }
    assert PayoutsOf(w', r) == RecipientKeys(r, recipients);
    RecipientKeysSize(r, recipients);
  }

  lemma WriteKeepsBounds(w: World, x: Write)
    requires Valid(w) && Guard(w, x)
    ensures RoundsBounded(Apply(w, x))
  {
    var w' := Apply(w, x);
    forall r | 0 <= r < |w'.rounds| ensures Fits(w', r, |PayoutsOf(w', r)|) {
      if r < |w.rounds| { OldRoundFits(w, x, r); } else { NewRoundFits(w, x, r); }
    }
  }

  lemma OldRoundFits(w: World, x: Write, r: int)
    requires Valid(w) && Guard(w, x) && HasRound(w, r)
    ensures Fits(Apply(w, x), r, |PayoutsOf(Apply(w, x), r)|)
  {
    assert Fits(w, r, |PayoutsOf(w, r)|);
    assert x.ReplaceRecipients? && x.round == r ==> Fits(w, r, |x.members|);
    hide Valid, Guard, Apply, Fits, PayoutsOf;
    WriteOnPayouts(w, x, r);
    if x.ReplaceRecipients? && x.round == r {
      FitsStill(w, x, r, |x.members|);
      RecipientKeysSize(r, x.members);
      FitsFewer(Apply(w, x), r, |x.members|, |PayoutsOf(Apply(w, x), r)|);
    } else {
      FitsStill(w, x, r, |PayoutsOf(w, r)|);
    }
  }

  lemma FitsFewer(w: World, r: int, n: int, m: int)
    requires Fits(w, r, n) && m <= n
    ensures Fits(w, r, m)
  {
  }

  lemma WriteKeepsValid(w: World, x: Write)
    requires Valid(w) && Guard(w, x)
    ensures Valid(Apply(w, x))
  {
    hide References, RowsSound, Numbered, PayoutsAlike, RoundsSound, RoundsBounded, Guard, Apply;
    WriteKeepsBounds(w, x);
    WriteKeepsReferences(w, x);
    WriteKeepsRows(w, x);
    WriteKeepsNumbers(w, x);
    WriteKeepsPayoutsAlike(w, x);
    WriteKeepsRounds(w, x);
  }

  lemma {:induction false} WritesKeepValid(w: World, xs: seq<Write>)
    requires Valid(w) && Guarded(w, xs)
    ensures Valid(ApplyAll(w, xs))
  {
    if xs != [] {
      WritesKeepValid(w, xs[..|xs| - 1]);
      WriteKeepsValid(ApplyAll(w, xs[..|xs| - 1]), xs[|xs| - 1]);
    }
  }

  // ---- every service call issues guarded writes only ----

  lemma {:induction false} RosterFacts(members: seq<GroupMember>, g: int, n: nat)
    requires n <= |members|
    ensures var r := RosterUpTo(members, g, n);
      && Distinct(Ids(r))
      && (forall e :: e in r ==>
            && 0 <= e.id < n && members[e.id].groupId == g && members[e.id].status == ActiveMember
            && e.position == members[e.id].position)
      && (forall m :: 0 <= m < n && members[m].groupId == g && members[m].status == ActiveMember ==>
            RosterEntry(m, members[m].position) in r)
  {
    if n > 0 {
      RosterFacts(members, g, n - 1);
      var front, r := RosterUpTo(members, g, n - 1), RosterUpTo(members, g, n);
      forall i, j | 0 <= i < j < |r| ensures Ids(r)[i] != Ids(r)[j] {
        if j < |front| { assert Ids(front)[i] != Ids(front)[j]; } else { assert front[i] in front; }
      }
    }
  }

  lemma RosterIds(w: World, g: int)
    ensures var ids := Ids(Ordered(Roster(w, g)));
      Distinct(ids) && Elements(ids) <= ActiveMembers(w, g)
  {
    RosterFacts(w.members, g, |w.members|);
    OrderedKeepsDistinctIds(Roster(w, g));
    var r := Ordered(Roster(w, g));
    forall x | x in Ids(r) ensures x in ActiveMembers(w, g) {
      var i :| 0 <= i < |r| && Ids(r)[i] == x;
      assert r[i] in Roster(w, g);
    }
  }

  lemma PlannedRoundSound(ordered: seq<MemberId>, k: nat, how: PayoutMethod, prev: set<MemberId>, clock: nat -> nat,
                          i: nat)
    requires Distinct(ordered) && ordered != []
    ensures var r := PlannedRound(ordered, k, how, prev, clock, i);
      Elements(r) <= Elements(ordered) && |r| <= k && (k > 0 && (how == Queue || how == Random) ==> r != [])
  {
    if k > 0 && how == Random {
      Fairness.RandomRoundSize(ordered, k, prev, clock, i);
    } else if k > 0 && how == Queue {
      QueuePicksInside(ordered, i * k, k);
    }
  }

  lemma {:induction false} QueuePicksInside(ordered: seq<MemberId>, base: nat, t: nat)
    requires ordered != []
    ensures Elements(QueuePicks(ordered, base, t)) <= Elements(ordered) && |QueuePicks(ordered, base, t)| <= t
    ensures t > 0 ==> QueuePicks(ordered, base, t) != []
  {
    if t > 0 { QueuePicksInside(ordered, base, t - 1); }
  }

  lemma GeneratedSound(w: World, g: int, how: PayoutMethod, k: nat, f: Frequency, start: int, prev: set<int>,
                       clock: nat -> nat)
    ensures var plan := Generated(Roster(w, g), k, f, start, how, prev, clock);
      && (forall i :: 0 <= i < |plan| ==> plan[i].roundNumber == i + 1)
      && (forall i, m :: 0 <= i < |plan| && m in plan[i].recipients ==> BelongsTo(w, m, g))
      && (k > 0 && (how == Queue || how == Random) ==> forall i :: 0 <= i < |plan| ==> plan[i].recipients != [])
      && (forall i :: 0 <= i < |plan| ==> |plan[i].recipients| <= k)
  {
    var plan, ordered := Generated(Roster(w, g), k, f, start, how, prev, clock), Ids(Ordered(Roster(w, g)));
    RosterIds(w, g);
    hide PlannedRound;
    forall i | 0 <= i < |plan|
      ensures plan[i].roundNumber == i + 1 && (forall m :: m in plan[i].recipients ==> BelongsTo(w, m, g))
        && (k > 0 && (how == Queue || how == Random) ==> plan[i].recipients != []) && |plan[i].recipients| <= k
    {
      PlannedRoundSound(ordered, k, how, prev, clock, i);
      forall m | m in plan[i].recipients ensures BelongsTo(w, m, g) {
        assert m in Elements(plan[i].recipients);
        assert m in Elements(ordered);
        assert m in ActiveMembers(w, g);
      }
    }
  }

  lemma {:induction false} LastNumberCounts(w: World, g: int, n: nat)
    requires Consecutive(w.cycles) && n <= |w.cycles|
    ensures LastNumber(w.cycles[..n], g) == CountCycles(w.cycles, g, n)
  {
    if n > 0 {
      LastNumberCounts(w, g, n - 1);
      assert w.cycles[..n][..n - 1] == w.cycles[..n - 1];
    }
  }

  lemma OpenGuarded(w: World, g: int, now: int, clock: nat -> nat)
    requires Valid(w) && OpenInternalCall(w, g, now, clock).Accepted?
    ensures Guarded(w, OpenInternalCall(w, g, now, clock).writes)
  {
    var s := w.groups[g].settings;
    GeneratedSound(w, g, s.payoutMethod, s.recipients, s.frequency, now, {}, clock);
    LastNumberCounts(w, g, |w.cycles|);
    assert w.cycles[..|w.cycles|] == w.cycles;
    hide Generated, Apply;
    GuardedOne(w, InsertCycle(g, LastNumber(w.cycles, g) + 1, NewPlan(w, g, now, clock)));
  }

  lemma AutoOpenGuarded(w: World, g: int, now: int, clock: nat -> nat)
    requires Valid(w)
    ensures Guarded(w, AutoOpenWrites(w, g, now, clock))
  {
    if AutoOpenWrites(w, g, now, clock) != [] { OpenGuarded(w, g, now, clock); }
  }

  lemma CompletionGuarded(w: World, c: int, now: int, clock: nat -> nat)
    requires Valid(w) && Active(w, c)
    ensures Guarded(w, CompletionWrites(w, c, now, clock))
  {
    var done := SetCycleStatus(c, CycleCompleted);
    GuardedOne(w, done);
    WriteKeepsValid(w, done);
    AutoOpenGuarded(Apply(w, done), w.cycles[c].groupId, now, clock);
    GuardedConcat(w, [done], AutoOpenWrites(Apply(w, done), w.cycles[c].groupId, now, clock));
  }

  lemma AutoCompleteGuarded(w: World, c: int, now: int, clock: nat -> nat)
    requires Valid(w)
    ensures Guarded(w, AutoCompleteWrites(w, c, now, clock))
  {
    if AutoCompleteWrites(w, c, now, clock) != [] { CompletionGuarded(w, c, now, clock); }
  }

  lemma CompleteRoundGuarded(w: World, r: int, now: int, clock: nat -> nat)
    requires Valid(w) && HasRound(w, r) && AllDistributed(w, r)
    ensures Guarded(w, CompleteRoundWrites(w, r, now, clock))
  {
    var complete := SetRoundStatus(r, RoundCompleted);
    GuardedOne(w, complete);
    WriteKeepsValid(w, complete);
    AutoCompleteGuarded(Apply(w, complete), w.rounds[r].cycleId, now, clock);
    GuardedConcat(w, [complete], AutoCompleteWrites(Apply(w, complete), w.rounds[r].cycleId, now, clock));
  }

  lemma AllPaidGuarded(w: World, r: int, now: int, clock: nat -> nat)
    requires Valid(w) && HasRound(w, r)
    ensures Guarded(w, AllPaidWrites(w, r, now, clock))
  {
    if AllPaidWrites(w, r, now, clock) != [] { CompleteRoundGuarded(w, r, now, clock); }
  }

  lemma AdvanceGuarded(w: World, r: int, now: int, clock: nat -> nat)
    requires Valid(w) && HasRound(w, r)
    ensures Guarded(w, AdvanceWrites(w, r, now, clock))
  {
    if w.rounds[r].status == RoundPending && AllCollected(w, r) {
      if PayoutsOf(w, r) == {} {
        CompleteRoundGuarded(w, r, now, clock);
      } else {
        var collecting := SetRoundStatus(r, Collecting);
        GuardedOne(w, collecting);
        WriteKeepsValid(w, collecting);
        AllPaidGuarded(Apply(w, collecting), r, now, clock);
        GuardedConcat(w, [collecting], AllPaidWrites(Apply(w, collecting), r, now, clock));
      }
    } else {
      AllPaidGuarded(w, r, now, clock);
    }
  }

  lemma ContributionGuarded(w: World, x: Write, r: int, now: int, clock: nat -> nat)
    requires Valid(w) && x.PutContribution? && Guard(w, x) && HasRound(w, r)
    ensures Guarded(w, [x] + AdvanceWrites(Apply(w, x), r, now, clock))
  {
    GuardedOne(w, x);
    WriteKeepsValid(w, x);
    AdvanceGuarded(Apply(w, x), r, now, clock);
    GuardedConcat(w, [x], AdvanceWrites(Apply(w, x), r, now, clock));
  }

  lemma ContributionWriteGuarded(w: World, ev: Event)
    requires Valid(w) && CallOf(w, ev).Accepted?
    requires ev.Upload? || ev.Record? || ev.Approve? || ev.Reject? || ev.Waive?
    ensures CallOf(w, ev).writes != [] && Guard(w, CallOf(w, ev).writes[0])
  {
    hide AdvanceWrites, Numbered, PayoutsAlike, RoundsSound, RoundsBounded;
    var k := Key(ev.c, ev.r, ev.m);
    if k in w.contributions {
      assert RowRefers(w, k, w.contributions[k]) && RowSound(w, k, w.contributions[k]);
    }
  }

  lemma ContributionEventGuarded(w: World, ev: Event)
    requires Valid(w) && CallOf(w, ev).Accepted?
    requires ev.Upload? || ev.Record? || ev.Approve? || ev.Reject? || ev.Waive?
    ensures Guarded(w, CallOf(w, ev).writes)
  {
    hide AdvanceWrites, Apply;
    var x := CallOf(w, ev).writes[0];
    ContributionWriteGuarded(w, ev);
    if ev.Record? || ev.Approve? {
      ContributionGuarded(w, x, ev.r, ev.now, ev.clock);
    } else {
      assert CallOf(w, ev).writes == [x];
      GuardedOne(w, x);
    }
  }

  lemma PayingPaysAll(w: World, r: int, amount: int, at: int -> int)
    requires HasRound(w, r)
    ensures var w' := Apply(w, PayRecipients(r, amount, at)); HasRound(w', r) && AllDistributed(w', r)
  {
  }

  lemma PayOutGuarded(w: World, ev: Event)
    requires Valid(w) && ev.PayOut? && CallOf(w, ev).Accepted?
    ensures Guarded(w, CallOf(w, ev).writes)
  {
    hide CompleteRoundWrites, Apply, PayoutRefers, RowRefers, RowSound, Numbered, References;
    var x := PayWrite(w, ev.g, ev.r, ev.paidAt);
    GuardedOne(w, x);
    WriteKeepsValid(w, x);
    PayingPaysAll(w, ev.r, x.amount, ev.paidAt);
    CompleteRoundGuarded(Apply(w, x), ev.r, ev.now, ev.clock);
    GuardedConcat(w, [x], CompleteRoundWrites(Apply(w, x), ev.r, ev.now, ev.clock));
  }

  lemma RerollGuarded(w: World, ev: Event)
    requires Valid(w) && ev.Reroll? && CallOf(w, ev).Accepted?
    ensures Guarded(w, CallOf(w, ev).writes)
  {
    hide Generated, RowSound, RowRefers, Roster, EarlierAssigned, Apply;
    var s, plan := w.groups[ev.g].settings, RerollPlan(w, ev.g, ev.c, ev.r, ev.now, ev.clock);
    GeneratedSound(w, ev.g, Random, s.recipients, s.frequency, ev.now, EarlierAssigned(w, ev.c, ev.r), ev.clock);
    GuardedOne(w, ReplaceRecipients(ev.r, plan[w.rounds[ev.r].number - 1].recipients));
  }

  lemma EditGuarded(w: World, ev: Event)
    requires Valid(w) && ev.Edit? && CallOf(w, ev).Accepted?
    ensures Guarded(w, CallOf(w, ev).writes)
  {
    var xs := CallOf(w, ev).writes;
    GuardedOne(w, xs[0]);
    if |xs| == 2 {
      GuardedOne(Apply(w, xs[0]), xs[1]);
      GuardedConcat(w, [xs[0]], [xs[1]]);
      assert xs == [xs[0]] + [xs[1]];
    } else {
      assert xs == [xs[0]];
    }
  }

  /** The services issue guarded writes only: what Guard asks of a write, some check of the call established. */
  lemma EventGuarded(w: World, ev: Event)
    requires Valid(w) && CallOf(w, ev).Accepted?
    ensures Guarded(w, CallOf(w, ev).writes)
  {
    match ev
    case Upload(_, _, _, _, _, _, _) => ContributionEventGuarded(w, ev);
    case Record(_, _, _, _, _, _, _) => ContributionEventGuarded(w, ev);
    case Approve(_, _, _, _, _, _, _) => ContributionEventGuarded(w, ev);
    case Reject(_, _, _, _, _) => ContributionEventGuarded(w, ev);
    case Waive(_, _, _, _, _) => ContributionEventGuarded(w, ev);
    case PayOut(_, _, _, _, _, _, _, _) => PayOutGuarded(w, ev);
    case Reroll(_, _, _, _, _, _) => RerollGuarded(w, ev);
    case OpenNext(g, _, now, clock) => OpenGuarded(w, g, now, clock);
    case Complete(_, c, _, now, clock) =>
      if Active(w, c) { CompletionGuarded(w, c, now, clock); }
    case Edit(_, _, _, _, _) => EditGuarded(w, ev);
    case _ => SingleWriteGuarded(w, ev);
  }

  lemma SingleWriteGuarded(w: World, ev: Event)
    requires Valid(w) && CallOf(w, ev).Accepted?
    requires ev.Assign? || ev.Start? || ev.Sweep? || ev.Join? || ev.Leave? || ev.Configure? || ev.Suspend?
      || ev.Reactivate?
    ensures Guarded(w, CallOf(w, ev).writes)
  {
    var x := CallOf(w, ev).writes[0];
    assert CallOf(w, ev).writes == [x];
    GuardedOne(w, x);
  }

  lemma StepKeepsValid(w: World, ev: Event)
    requires Valid(w)
    ensures Valid(Step(w, ev))
  {
    if CallOf(w, ev).Accepted? {
      EventGuarded(w, ev);
      WritesKeepValid(w, CallOf(w, ev).writes);
    }
  }

  /** Safety over whole runs: whatever calls arrive in whatever order, the invariant holds. */
  lemma {:induction false} RunKeepsValid(w: World, evs: seq<Event>)
    requires Valid(w)
    ensures Valid(Run(w, evs))
  {
    if evs != [] {
      RunKeepsValid(w, evs[..|evs| - 1]);
      StepKeepsValid(Run(w, evs[..|evs| - 1]), evs[|evs| - 1]);
    }
  }

  /** A database without cycles, rounds, contributions and payouts, whatever its groups and members. */
  ghost predicate Fresh(w: World) {
    && w.cycles == [] && w.rounds == [] && w.contributions == map[] && w.payouts == map[]
    && forall m :: 0 <= m < |w.members| ==> HasGroup(w, w.members[m].groupId)
  }

  lemma FreshIsValid(w: World)
    requires Fresh(w)
    ensures Valid(w)
  {
  }
}
