/** backend/src/modules/reports/reports.service.ts: the cycle summary, the member statement and the payout
    status, how they agree with each other, and how they differ from the stored round totals. */
module Reports {
  import opened Arith
  import opened Common
  import opened Tables
  import opened Contributions
  import opened Backend
  import opened LedgerLaw
  import opened History
  import opened Rotation

  // ---- specification ----

  /** Reports count paid and late rows, whether or not they carry a payment date. */
  predicate Counts(row: Contribution) {
    row.status == Paid || row.status == Late
  }

  function CountedKeys(w: World, r: int): set<Key> {
    set k | k in w.contributions && k.round == r && Counts(w.contributions[k])
  }

  predicate InCycle(w: World, r: int, c: int) {
    HasRound(w, r) && w.rounds[r].cycleId == c
  }

  /** The counted rows of the cycle's rounds below n. */
  function CountedUpTo(w: World, c: int, n: int): set<Key> {
    set k | k in w.contributions && k.round < n && InCycle(w, k.round, c) && Counts(w.contributions[k])
  }

  function PaidUpTo(w: World, c: int, n: int): set<PayoutKey> {
    set p | p in w.payouts && p.round < n && InCycle(w, p.round, c) && w.payouts[p].paidAt.Some?
  }

  function CycleCounted(w: World, c: int): set<Key> { CountedUpTo(w, c, |w.rounds|) }

  function CyclePaid(w: World, c: int): set<PayoutKey> { PaidUpTo(w, c, |w.rounds|) }

  ghost function Balance(w: World, c: int): int {
    Sum(CycleCounted(w, c), AmountAt(w)) - Sum(CyclePaid(w, c), PayoutAmount(w))
  }

  datatype RoundSummary = RoundSummary(
    round: int, number: int, status: RoundStatus, dueDate: int, collected: int, paidOut: int, contributionCount: nat,
    payoutCount: nat)
  datatype CycleSummary = CycleSummary(
    cycle: Option<int>, totalCollected: int, totalPaidOut: int, balance: int, rounds: seq<RoundSummary>)

  function RowsOf(w: World, r: int): set<Key> {
    set k | k in w.contributions && k.round == r
  }

  ghost function SummaryOfRound(w: World, r: int): RoundSummary
    requires HasRound(w, r)
  {
    RoundSummary(r, w.rounds[r].number, w.rounds[r].status, w.rounds[r].dueDate, Sum(CountedKeys(w, r), AmountAt(w)),
                 PaidOutSum(w, r), |RowsOf(w, r)|, |PayoutsOf(w, r)|)
  }

  ghost function RoundSummaries(w: World, c: int, n: nat): seq<RoundSummary>
    requires n <= |w.rounds|
  {
    if n == 0 then []
    else RoundSummaries(w, c, n - 1) + if w.rounds[n - 1].cycleId == c then [SummaryOfRound(w, n - 1)] else []
  }

  /** The group's cycle with the highest number, among all or among those not completed. */
  function Latest(cycles: seq<Cycle>, g: int, activeOnly: bool): (r: Option<int>)
    ensures r.Some? ==>
      && 0 <= r.value < |cycles| && cycles[r.value].groupId == g
      && (activeOnly ==> cycles[r.value].status != CycleCompleted)
    ensures forall c ::
      0 <= c < |cycles| && cycles[c].groupId == g && (activeOnly ==> cycles[c].status != CycleCompleted) ==>
      r.Some? && cycles[c].number <= cycles[r.value].number
  {
    if cycles == [] then None else
      var n := |cycles| - 1;
      var best, last := Latest(cycles[..n], g, activeOnly), cycles[n];
      if last.groupId == g && (activeOnly ==> last.status != CycleCompleted)
        && (best.None? || last.number > cycles[best.value].number)
      then Some(n) else best
  }

  function ResolveCycle(w: World, g: int, cycleId: Option<int>): Result<Option<int>, Error> {
    if cycleId.Some? then
      if HasCycle(w, cycleId.value) && w.cycles[cycleId.value].groupId == g then Success(cycleId) else Failure(NotFound)
    else if Latest(w.cycles, g, true).Some? then Success(Latest(w.cycles, g, true))
    else Success(Latest(w.cycles, g, false))
  }

  ghost function SummaryOf(w: World, g: int, cycleId: Option<int>): Result<CycleSummary, Error> {
    if !HasGroup(w, g) then Failure(NotFound)
    else
      match ResolveCycle(w, g, cycleId)
      case Failure(e) => Failure(e)
      case Success(None) => Success(CycleSummary(None, 0, 0, 0, []))
      case Success(Some(c)) =>
        Success(CycleSummary(Some(c), Sum(CycleCounted(w, c), AmountAt(w)), Sum(CyclePaid(w, c), PayoutAmount(w)),
                             Balance(w, c), RoundSummaries(w, c, |w.rounds|)))
  }

  predicate OnStatement(w: World, k: Key, g: int, m: int, cycleId: Option<int>)
    requires k in w.contributions
  {
    w.contributions[k].groupId == g && k.member == m && (cycleId.Some? ==> k.cycle == cycleId.value)
  }

  function MemberCounted(w: World, g: int, m: int, cycleId: Option<int>): set<Key> {
    set k | k in w.contributions && OnStatement(w, k, g, m, cycleId) && Counts(w.contributions[k])
  }

  predicate InGroupCycle(w: World, r: int, g: int, cycleId: Option<int>) {
    && HasRound(w, r) && HasCycle(w, w.rounds[r].cycleId) && w.cycles[w.rounds[r].cycleId].groupId == g
    && (cycleId.Some? ==> w.rounds[r].cycleId == cycleId.value)
  }

  function MemberReceived(w: World, g: int, m: int, cycleId: Option<int>): set<PayoutKey> {
    set p | p in w.payouts && p.member == m && InGroupCycle(w, p.round, g, cycleId) && w.payouts[p].paidAt.Some?
  }

  ghost function NetPosition(w: World, g: int, m: int, cycleId: Option<int>): int {
    Sum(MemberCounted(w, g, m, cycleId), AmountAt(w)) - Sum(MemberReceived(w, g, m, cycleId), PayoutAmount(w))
  }

  datatype Statement = Statement(totalContributed: int, totalReceived: int, netPosition: int)

  ghost function StatementOf(w: World, g: int, m: int, cycleId: Option<int>): Result<Statement, Error> {
    if !HasGroup(w, g) || !BelongsTo(w, m, g) then Failure(NotFound)
    else Success(Statement(Sum(MemberCounted(w, g, m, cycleId), AmountAt(w)),
                           Sum(MemberReceived(w, g, m, cycleId), PayoutAmount(w)),
                           NetPosition(w, g, m, cycleId)))
  }

  datatype PayoutLabel = RecipientsNotSet | PaidLabel | Partial | AwaitingPayment

  function PayoutRoundStatus(w: World, r: int): PayoutLabel
    requires HasRound(w, r)
  {
    var payouts, paid := PayoutsOf(w, r), PaidKeys(w, r);
    if |payouts| == 0 then RecipientsNotSet
    else if |paid| == |payouts| || w.rounds[r].status == RoundCompleted then PaidLabel
    else if |paid| > 0 then Partial
    else AwaitingPayment
  }

  // ---- the service ----

  method GetCycleSummary(db: Database, g: int, cycleId: Option<int>) returns (result: Result<CycleSummary, Error>)
    ensures result == SummaryOf(db.Snapshot(), g, cycleId)
  {
    var w := db.Snapshot();
    if !HasGroup(w, g) { return Failure(NotFound); }
    var resolved := ResolveCycle(w, g, cycleId);
    if resolved.Failure? { return Failure(resolved.error); }
    if resolved.value.None? { return Success(CycleSummary(None, 0, 0, 0, [])); }
    var c := resolved.value.value;
    var totalCollected, totalPaidOut, summaries := SummarizeRounds(w, c);
    result := Success(CycleSummary(Some(c), totalCollected, totalPaidOut, totalCollected - totalPaidOut, summaries));
  }

  /** The loop over the cycle's rounds, with its two running totals. */
  method SummarizeRounds(w: World, c: int)
    returns (totalCollected: int, totalPaidOut: int, summaries: seq<RoundSummary>)
    ensures totalCollected == Sum(CycleCounted(w, c), AmountAt(w))
    ensures totalPaidOut == Sum(CyclePaid(w, c), PayoutAmount(w))
    ensures summaries == RoundSummaries(w, c, |w.rounds|)
  {
    hide CountedUpTo, PaidUpTo, CountedKeys, PaidKeys, AmountAt, PayoutAmount;
    totalCollected, totalPaidOut, summaries := 0, 0, [];
    NothingBelowZero(w, c);
    for r := 0 to |w.rounds|
      invariant totalCollected == Sum(CountedUpTo(w, c, r), AmountAt(w))
      invariant totalPaidOut == Sum(PaidUpTo(w, c, r), PayoutAmount(w))
      invariant summaries == RoundSummaries(w, c, r)
    {
      UpToStep(w, c, r);
      var round := w.rounds[r];
      if round.cycleId == c {
        var collected := AddUp(CountedKeys(w, r), AmountAt(w));
        var paidOut := AddUp(PaidKeys(w, r), PayoutAmount(w));
        totalCollected := totalCollected + collected;
        totalPaidOut := totalPaidOut + paidOut;
        var line := RoundSummary(r, round.number, round.status, round.dueDate, collected, paidOut, |RowsOf(w, r)|,
                                 |PayoutsOf(w, r)|);
        summaries := summaries + [line];
      }
    }
  }

  lemma NothingBelowZero(w: World, c: int)
    ensures CountedUpTo(w, c, 0) == {} && PaidUpTo(w, c, 0) == {}
  {
  }

  lemma UpToStep(w: World, c: int, r: int)
    requires HasRound(w, r)
    ensures Sum(CountedUpTo(w, c, r + 1), AmountAt(w))
            == Sum(CountedUpTo(w, c, r), AmountAt(w))
               + if w.rounds[r].cycleId == c then Sum(CountedKeys(w, r), AmountAt(w)) else 0
    ensures Sum(PaidUpTo(w, c, r + 1), PayoutAmount(w))
            == Sum(PaidUpTo(w, c, r), PayoutAmount(w)) + if w.rounds[r].cycleId == c then PaidOutSum(w, r) else 0
  {
    if w.rounds[r].cycleId == c {
      assert CountedUpTo(w, c, r + 1) == CountedUpTo(w, c, r) + CountedKeys(w, r);
      assert PaidUpTo(w, c, r + 1) == PaidUpTo(w, c, r) + PaidKeys(w, r);
      SumUnion(CountedUpTo(w, c, r), CountedKeys(w, r), AmountAt(w));
      SumUnion(PaidUpTo(w, c, r), PaidKeys(w, r), PayoutAmount(w));
    } else {
      assert CountedUpTo(w, c, r + 1) == CountedUpTo(w, c, r);
      assert PaidUpTo(w, c, r + 1) == PaidUpTo(w, c, r);
    }
  }

  /** One line for each of the cycle's first n rounds, in ascending round number. */
  ghost predicate OneLinePerRound(w: World, c: int, n: nat, lines: seq<RoundSummary>)
    requires n <= |w.rounds|
  {
    && (forall i :: 0 <= i < |lines| ==> LineOf(w, c, n, lines[i]))
    && (forall i, j :: 0 <= i < j < |lines| ==> lines[i].round < lines[j].round && lines[i].number < lines[j].number)
    && (forall r :: 0 <= r < n && w.rounds[r].cycleId == c ==> SummaryOfRound(w, r) in lines)
  }

  ghost predicate LineOf(w: World, c: int, n: nat, line: RoundSummary)
    requires n <= |w.rounds|
  {
    && 0 <= line.round < n && w.rounds[line.round].cycleId == c && line == SummaryOfRound(w, line.round)
    && line.number == w.rounds[line.round].number
  }

  lemma LineAdded(w: World, c: int, n: nat, lines: seq<RoundSummary>)
    requires Ascending(w.rounds) && 0 < n <= |w.rounds| && OneLinePerRound(w, c, n - 1, lines)
    ensures w.rounds[n - 1].cycleId == c ==> OneLinePerRound(w, c, n, lines + [SummaryOfRound(w, n - 1)])
    ensures w.rounds[n - 1].cycleId != c ==> OneLinePerRound(w, c, n, lines)
  {
    var last := SummaryOfRound(w, n - 1);
    assert last.round == n - 1 && last.number == w.rounds[n - 1].number;
    hide SummaryOfRound;
    forall r | 0 <= r < n - 1 && w.rounds[r].cycleId == c ensures SummaryOfRound(w, r) in lines + [last] {
      assert SummaryOfRound(w, r) in lines;
    }
  }

  lemma {:induction false} LinesUpTo(w: World, c: int, n: nat)
    requires Ascending(w.rounds) && n <= |w.rounds|
    ensures OneLinePerRound(w, c, n, RoundSummaries(w, c, n))
  {
    hide SummaryOfRound, Ascending, LineOf;
    if n > 0 {
      LinesUpTo(w, c, n - 1);
      hide OneLinePerRound;
      LineAdded(w, c, n, RoundSummaries(w, c, n - 1));
    }
  }

  /** In every reachable state the summary has exactly one line for each round of the cycle, in ascending round
      number. */
  lemma SummaryIsOrdered(w: World, evs: seq<Event>, g: int, c: int)
    requires Fresh(w) && HasGroup(Run(w, evs), g) && HasCycle(Run(w, evs), c) && Run(w, evs).cycles[c].groupId == g
    ensures var w' := Run(w, evs); var summary := SummaryOf(w', g, Some(c));
      summary.Success? && OneLinePerRound(w', c, |w'.rounds|, summary.value.rounds)
  {
    hide Run, OneLinePerRound, RoundSummaries;
    FreshIsValid(w);
    RunKeepsValid(w, evs);
    LinesUpTo(Run(w, evs), c, |Run(w, evs).rounds|);
  }

  method GetMemberStatement(db: Database, g: int, m: int, cycleId: Option<int>)
    returns (result: Result<Statement, Error>)
    ensures result == StatementOf(db.Snapshot(), g, m, cycleId)
  {
    var w := db.Snapshot();
    if !HasGroup(w, g) { return Failure(NotFound); }
    if !(0 <= m < |db.members|) || db.members[m].groupId != g { return Failure(NotFound); }
    var totalContributed := AddUp(MemberCounted(w, g, m, cycleId), AmountAt(w));
    var totalReceived := AddUp(MemberReceived(w, g, m, cycleId), PayoutAmount(w));
    result := Success(Statement(totalContributed, totalReceived, totalContributed - totalReceived));
  }

  // ---- the default cycle ----

  /** In every reachable state a report without a cycle shows the group's newest cycle: whenever one is open or
      in progress, it is the newest. */
  lemma DefaultCycleIsNewest(w: World, evs: seq<Event>, g: int)
    requires Fresh(w)
    ensures ResolveCycle(Run(w, evs), g, None) == Success(Latest(Run(w, evs).cycles, g, false))
  {
    hide Run, Latest, CountCycles, OneTo;
    GroupLifecycle(w, evs, g);
    NewestIsActive(Run(w, evs).cycles, g);
  }

  lemma NewestIsActive(cycles: seq<Cycle>, g: int)
    requires forall c, d :: 0 <= c < d < |cycles| && cycles[c].groupId == g && cycles[d].groupId == g ==>
      (cycles[c].number < cycles[d].number && cycles[c].status == CycleCompleted)
    ensures Latest(cycles, g, true).Some? ==> Latest(cycles, g, true) == Latest(cycles, g, false)
  {
    hide Latest;
    var active, newest := Latest(cycles, g, true), Latest(cycles, g, false);
    if active.Some? {
      assert active.value <= newest.value;
    }
  }

  // ---- member statements against the cycle summary ----

  function MembersOf(w: World, g: int): set<int> {
    set m | 0 <= m < |w.members| && w.members[m].groupId == g
  }

  function RowMember(): Key -> int { (k: Key) => k.member }

  function PayoutMember(): PayoutKey -> int { (p: PayoutKey) => p.member }

  ghost function NetPositions(w: World, g: int, c: int): int -> int {
    m => NetPosition(w, g, m, Some(c))
  }

  /** Counted rows of the cycle that belong to somebody who was never a member of the group. */
  function OutsiderRows(w: World, g: int, c: int): set<Key> {
    set k | k in CycleCounted(w, c) && k.member !in MembersOf(w, g)
  }

  lemma StatementRows(w: World, g: int, c: int, m: int)
    requires Valid(w) && HasCycle(w, c) && w.cycles[c].groupId == g
    ensures MemberCounted(w, g, m, Some(c)) == ClassOf(CycleCounted(w, c), RowMember(), m)
    ensures MemberReceived(w, g, m, Some(c)) == ClassOf(CyclePaid(w, c), PayoutMember(), m)
  {
    assert References(w);
    hide Valid;
    forall k ensures k in MemberCounted(w, g, m, Some(c)) <==> k in ClassOf(CycleCounted(w, c), RowMember(), m) {
      if k in w.contributions { assert RowRefers(w, k, w.contributions[k]); }
    }
  }

  lemma MemberSums(w: World, g: int, c: int)
    requires Valid(w) && HasCycle(w, c) && w.cycles[c].groupId == g
    ensures Sum(MembersOf(w, g), NetPositions(w, g, c)) ==
      Sum(InClasses(CycleCounted(w, c), RowMember(), MembersOf(w, g)), AmountAt(w))
      - Sum(InClasses(CyclePaid(w, c), PayoutMember(), MembersOf(w, g)), PayoutAmount(w))
  {
    hide Valid, CountedUpTo, PaidUpTo, MemberCounted, MemberReceived, MembersOf, InClasses, ClassOf;
    var ms, rows, paid := MembersOf(w, g), CycleCounted(w, c), CyclePaid(w, c);
    var contributed := ClassSum(rows, RowMember(), AmountAt(w));
    var received := ClassSum(paid, PayoutMember(), PayoutAmount(w));
    forall m | m in ms ensures NetPositions(w, g, c)(m) == contributed(m) - received(m) {
      StatementRows(w, g, c, m);
    }
    SumMinus(ms, contributed, received, NetPositions(w, g, c));
    SumByClass(rows, RowMember(), AmountAt(w), ms);
    SumByClass(paid, PayoutMember(), PayoutAmount(w), ms);
  }

  /** Report agreement: the net positions of all members the group ever had add up to the balance of the cycle
      summary, less what was recorded for people outside the group. */
  lemma ReportAgreement(w: World, g: int, c: int)
    requires Valid(w) && HasCycle(w, c) && w.cycles[c].groupId == g
    ensures Sum(MembersOf(w, g), NetPositions(w, g, c)) == Balance(w, c) - Sum(OutsiderRows(w, g, c), AmountAt(w))
  {
    MemberSums(w, g, c);
    PaidToMembersOnly(w, g, c);
    hide Valid, CountedUpTo, PaidUpTo;
    var inside := InClasses(CycleCounted(w, c), RowMember(), MembersOf(w, g));
    assert CycleCounted(w, c) == inside + OutsiderRows(w, g, c);
    SumUnion(inside, OutsiderRows(w, g, c), AmountAt(w));
  }

  lemma PaidToMembersOnly(w: World, g: int, c: int)
    requires Valid(w) && HasCycle(w, c) && w.cycles[c].groupId == g
    ensures InClasses(CyclePaid(w, c), PayoutMember(), MembersOf(w, g)) == CyclePaid(w, c)
  {
    assert References(w);
    hide Valid;
    forall p | p in CyclePaid(w, c) ensures p.member in MembersOf(w, g) {
      assert PayoutRefers(w, p.round, p.member);
    }
  }

  /** The two reports agree exactly when nobody outside the group holds a counted row with money on it. */
  lemma ReportsAgreeIff(w: World, g: int, c: int)
    requires Valid(w) && HasCycle(w, c) && w.cycles[c].groupId == g
    ensures Sum(MembersOf(w, g), NetPositions(w, g, c)) == Balance(w, c) <==>
      forall k :: k in OutsiderRows(w, g, c) ==> w.contributions[k].amount == 0
  {
    ReportAgreement(w, g, c);
    hide Balance, NetPositions, MembersOf;
    forall k | k in OutsiderRows(w, g, c) ensures AmountAt(w)(k) >= 0 { assert RowSound(w, k, w.contributions[k]); }
    SumOfNonNegatives(OutsiderRows(w, g, c), AmountAt(w));
    assert forall k :: k in OutsiderRows(w, g, c) ==> AmountAt(w)(k) == w.contributions[k].amount;
  }

  /** Such a row is within reach: recording never checks the member's group, so a treasurer who names a member
      of another group is served, and the reports of the cycle then disagree. */
  lemma OutsiderRecordBreaksAgreement(w: World, ev: Event)
    requires Valid(w) && ev.Record? && Privileged(ev.role) && LoadRound(w, ev.g, ev.c, ev.r)
    requires HasMember(w, ev.m) && w.members[ev.m].groupId != ev.g
    requires Key(ev.c, ev.r, ev.m) !in w.contributions && w.groups[ev.g].settings.amount > 0
    ensures CallOf(w, ev).Accepted?
    ensures var w' := Step(w, ev); Sum(MembersOf(w', ev.g), NetPositions(w', ev.g, ev.c)) != Balance(w', ev.c)
  {
    hide Valid, CallOf, Step, CountedUpTo, NetPositions, MembersOf, Balance;
    OutsiderRecordAccepted(w, ev);
    StepKeepsValid(w, ev);
    StepIsLater(w, ev);
    OutsiderRowCounts(Step(w, ev), ev);
    ReportsAgreeIff(Step(w, ev), ev.g, ev.c);
  }

  lemma OutsiderRowCounts(w: World, ev: Event)
    requires ev.Record? && OutsiderRow(w, ev) && HasRound(w, ev.r) && w.rounds[ev.r].cycleId == ev.c
    ensures Key(ev.c, ev.r, ev.m) in OutsiderRows(w, ev.g, ev.c)
  {
  }

  /** The recorded row counts, has money on it, and belongs to a member of another group. */
  predicate OutsiderRow(w: World, ev: Event)
    requires ev.Record?
  {
    var k := Key(ev.c, ev.r, ev.m);
    && k in w.contributions && Counts(w.contributions[k]) && w.contributions[k].amount > 0
    && HasMember(w, ev.m) && w.members[ev.m].groupId != ev.g
  }

  lemma OutsiderRecordAccepted(w: World, ev: Event)
    requires ev.Record? && Privileged(ev.role) && LoadRound(w, ev.g, ev.c, ev.r)
    requires HasMember(w, ev.m) && w.members[ev.m].groupId != ev.g
    requires Key(ev.c, ev.r, ev.m) !in w.contributions && w.groups[ev.g].settings.amount > 0
    ensures CallOf(w, ev).Accepted? && OutsiderRow(Step(w, ev), ev)
  {
    var x := RecordWrite(w, ev.g, ev.c, ev.r, ev.m, ev.now);
    var w1 := Apply(w, x);
    var rest := AdvanceWrites(w1, ev.r, ev.now, ev.clock);
    hide AdvanceWrites;
    assert CallOf(w, ev) == Accepted([x] + rest);
    assert OutsiderRow(w1, ev);
    AdvanceStatusOnly(w1, ev.r, ev.now, ev.clock);
    ApplyOne(w, x);
    ApplyAllConcat(w, [x], rest);
    StatusOnlyKeepsRows(w1, rest);
  }

  lemma {:induction false} StatusOnlyKeepsRows(w: World, xs: seq<Write>)
    requires StatusOnly(xs)
    ensures ApplyAll(w, xs).contributions == w.contributions && ApplyAll(w, xs).members == w.members
  {
    if xs != [] { StatusOnlyKeepsRows(w, xs[..|xs| - 1]); }
  }

  // ---- the summary against the stored totals ----

  function WaivedDated(w: World, r: int): set<Key> {
    set k | k in w.contributions && k.round == r && w.contributions[k].status == Waived
      && w.contributions[k].paidDate.Some?
  }

  function LateUndated(w: World, r: int): set<Key> {
    set k | k in w.contributions && k.round == r && w.contributions[k].status == Late
      && w.contributions[k].paidDate.None?
  }

  lemma CountedAndDated(w: World, r: int)
    requires RowsSound(w)
    ensures |DatedKeys(w, r)| - |CountedKeys(w, r)| == |WaivedDated(w, r)| - |LateUndated(w, r)|
  {
    var both := CountedKeys(w, r) * DatedKeys(w, r);
    assert forall k :: k in w.contributions ==> RowSound(w, k, w.contributions[k]);
    assert DatedKeys(w, r) == both + WaivedDated(w, r);
    assert CountedKeys(w, r) == both + LateUndated(w, r);
  }

  /** How far a reachable state's stored total lies above what the cycle summary counts for the round. */
  lemma StoredVersusReported(w: World, evs: seq<Event>, r: int)
    requires Fresh(w) && InActiveCycle(Run(w, evs), r)
    ensures var w' := Run(w, evs);
      w'.rounds[r].total - Sum(CountedKeys(w', r), AmountAt(w'))
      == Times(|WaivedDated(w', r)| - |LateUndated(w', r)| + RunDrift(w, evs, r), AmountOf(w', r))
  {
    hide Run, RunDrift, Valid, Times, DatedKeys, CountedKeys, WaivedDated, LateUndated, AmountOf;
    var w', d := Run(w, evs), RunDrift(w, evs, r);
    ExactLedgerLaw(w, evs, r);
    FreshIsValid(w);
    RunKeepsValid(w, evs);
    CountedSumIs(w', r);
    CountedAndDated(w', r) by { assert Valid(w'); AreSound(w'); }
    var gap := |WaivedDated(w', r)| - |LateUndated(w', r)| + d;
    TimesAdd(|CountedKeys(w', r)|, gap, AmountOf(w', r));
    assert |DatedKeys(w', r)| + d == |CountedKeys(w', r)| + gap;
  }

  lemma AreSound(w: World)
    requires Valid(w)
    ensures RowsSound(w)
  {
  }

  lemma CountedSumIs(w: World, r: int)
    requires Valid(w) && InActiveCycle(w, r)
    ensures Sum(CountedKeys(w, r), AmountAt(w)) == Times(|CountedKeys(w, r)|, AmountOf(w, r))
  {
    hide Valid;
    forall k | k in CountedKeys(w, r) ensures AmountAt(w)(k) == AmountOf(w, r) { RowAmount(w, r, k); }
    SumConstant(CountedKeys(w, r), AmountAt(w), AmountOf(w, r));
  }

  /** The stored total and the reported figure coincide exactly when these corrections cancel out. */
  lemma StoredIsReportedIff(w: World, evs: seq<Event>, r: int)
    requires Fresh(w) && InActiveCycle(Run(w, evs), r)
    ensures var w' := Run(w, evs);
      w'.rounds[r].total == Sum(CountedKeys(w', r), AmountAt(w')) <==>
        (|WaivedDated(w', r)| + RunDrift(w, evs, r) == |LateUndated(w', r)| || AmountOf(w', r) == 0)
  {
    hide Run, RunDrift, Times;
    StoredVersusReported(w, evs, r);
    TimesZero(|WaivedDated(Run(w, evs), r)| - |LateUndated(Run(w, evs), r)| + RunDrift(w, evs, r),
              AmountOf(Run(w, evs), r));
  }

  // ---- the payout ledger ----

  /** While the invariant holds no round is reported partially paid, and a round with pre-assigned recipients in
      an active cycle is reported paid exactly when all its recipients are paid. */
  lemma PayoutLabels(w: World, r: int)
    requires Valid(w) && HasRound(w, r)
    ensures PayoutRoundStatus(w, r) != Partial
    ensures Preset(w, r) ==> (PayoutRoundStatus(w, r) == PaidLabel <==> Settled(w, r))
  {
    assert PayoutsAlike(w) && RoundsSound(w);
    hide Valid;
    SubsetCardinality(PaidKeys(w, r), PayoutsOf(w, r));
    if p :| p in PaidKeys(w, r) {
      forall q | q in PayoutsOf(w, r) ensures q in PaidKeys(w, r) { assert Alike(w.payouts[q], w.payouts[p]); }
      assert PaidKeys(w, r) == PayoutsOf(w, r);
    }
    if AllDistributed(w, r) {
      forall q | q in PayoutsOf(w, r) ensures q in PaidKeys(w, r) { assert Distributed(w, q); }
      assert PaidKeys(w, r) == PayoutsOf(w, r);
    }
  }

  // ---- the figures, in rows and numbers ----

  function RowMoney(w: World): Key -> int {
    k => if k in w.contributions then w.contributions[k].amount else 0
  }

  function PayoutMoney(w: World): PayoutKey -> int {
    p => if p in w.payouts then w.payouts[p].amount else 0
  }

  /** A paid or late row of a round of the cycle. */
  predicate PaidInto(w: World, k: Key, c: int) {
    && k in w.contributions && (w.contributions[k].status == Paid || w.contributions[k].status == Late)
    && 0 <= k.round < |w.rounds| && w.rounds[k.round].cycleId == c
  }

  predicate PaidOutOf(w: World, p: PayoutKey, c: int) {
    && p in w.payouts && w.payouts[p].paidAt.Some?
    && 0 <= p.round < |w.rounds| && w.rounds[p.round].cycleId == c
  }

  function RowsInto(w: World, c: int): set<Key> {
    set k | k in w.contributions && PaidInto(w, k, c)
  }

  function RowsOutOf(w: World, c: int): set<PayoutKey> {
    set p | p in w.payouts && PaidOutOf(w, p, c)
  }

  /** The cycle a report shows when none is named: the one with the highest number among those under way, or, with
      none under way, among all. */
  predicate IsDefault(w: World, g: int, c: int) {
    && 0 <= c < |w.cycles| && w.cycles[c].groupId == g
    && forall d :: 0 <= d < |w.cycles| && w.cycles[d].groupId == g ==>
         if w.cycles[c].status == CycleCompleted
         then w.cycles[d].status == CycleCompleted && w.cycles[d].number <= w.cycles[c].number
         else w.cycles[d].status != CycleCompleted ==> w.cycles[d].number <= w.cycles[c].number
  }

  predicate NoCycle(w: World, g: int) {
    forall c :: 0 <= c < |w.cycles| ==> w.cycles[c].groupId != g
  }

  lemma CycleSums(w: World, c: int)
    ensures Sum(CycleCounted(w, c), AmountAt(w)) == Sum(RowsInto(w, c), RowMoney(w))
    ensures Sum(CyclePaid(w, c), PayoutAmount(w)) == Sum(RowsOutOf(w, c), PayoutMoney(w))
  {
    assert CycleCounted(w, c) == RowsInto(w, c) && CyclePaid(w, c) == RowsOutOf(w, c);
    SumCongruent(RowsInto(w, c), AmountAt(w), RowMoney(w));
    SumCongruent(RowsOutOf(w, c), PayoutAmount(w), PayoutMoney(w));
  }

  /** Which cycle the summary shows, and what its totals add up. */
  lemma SummaryLaw(w: World, g: int, cycleId: Option<int>)
    ensures var result := SummaryOf(w, g, cycleId);
      var known := cycleId.None? || (0 <= cycleId.value < |w.cycles| && w.cycles[cycleId.value].groupId == g);
      && (result == Failure(NotFound) <==> !(0 <= g < |w.groups|) || !known)
      && (result.Success? && NoCycle(w, g) ==> result.value == CycleSummary(None, 0, 0, 0, []))
      && (result.Success? && !NoCycle(w, g) ==>
          var s := result.value;
          && s.cycle.Some? && (if cycleId.Some? then s.cycle == cycleId else IsDefault(w, g, s.cycle.value))
          && s.totalCollected == Sum(RowsInto(w, s.cycle.value), RowMoney(w))
          && s.totalPaidOut == Sum(RowsOutOf(w, s.cycle.value), PayoutMoney(w))
          && s.balance == s.totalCollected - s.totalPaidOut)
  {
    hide RoundSummaries, Latest;
    var resolved := ResolveCycle(w, g, cycleId);
    if resolved.Success? && resolved.value.Some? { CycleSums(w, resolved.value.value); }
  }

  /** The line of a round: what was paid into it and out of it, and how many rows it has of either kind. */
  lemma LineLaw(w: World, r: int)
    requires 0 <= r < |w.rounds|
    ensures var line, round := SummaryOfRound(w, r), w.rounds[r];
      && line.round == r && line.number == round.number && line.status == round.status && line.dueDate == round.dueDate
      && line.collected == Sum(set k | k in RowsInto(w, round.cycleId) && k.round == r :: k, RowMoney(w))
      && line.paidOut == Sum(set p | p in RowsOutOf(w, round.cycleId) && p.round == r :: p, PayoutMoney(w))
      && line.contributionCount == |set k | k in w.contributions && k.round == r|
      && line.payoutCount == |set p | p in w.payouts && p.round == r|
  {
    var c := w.rounds[r].cycleId;
    assert CountedKeys(w, r) == set k | k in RowsInto(w, c) && k.round == r :: k;
    assert PaidKeys(w, r) == set p | p in RowsOutOf(w, c) && p.round == r :: p;
    assert RowsOf(w, r) == set k | k in w.contributions && k.round == r;
    assert PayoutsOf(w, r) == set p | p in w.payouts && p.round == r;
    SumCongruent(CountedKeys(w, r), AmountAt(w), RowMoney(w));
    SumCongruent(PaidKeys(w, r), PayoutAmount(w), PayoutMoney(w));
  }

  /** The row stands on the member's statement for the group, or for one cycle. */
  predicate OnList(w: World, k: Key, g: int, m: int, cycleId: Option<int>) {
    && k in w.contributions && k.member == m && w.contributions[k].groupId == g
    && (cycleId.None? || k.cycle == cycleId.value)
    && (w.contributions[k].status == Paid || w.contributions[k].status == Late)
  }

  predicate OnPayoutList(w: World, p: PayoutKey, g: int, m: int, cycleId: Option<int>) {
    && p in w.payouts && p.member == m && w.payouts[p].paidAt.Some? && 0 <= p.round < |w.rounds|
    && var c := w.rounds[p.round].cycleId;
       0 <= c < |w.cycles| && w.cycles[c].groupId == g && (cycleId.None? || c == cycleId.value)
  }

  function ListedRows(w: World, g: int, m: int, cycleId: Option<int>): set<Key> {
    set k | k in w.contributions && OnList(w, k, g, m, cycleId)
  }

  function ListedPayouts(w: World, g: int, m: int, cycleId: Option<int>): set<PayoutKey> {
    set p | p in w.payouts && OnPayoutList(w, p, g, m, cycleId)
  }

  /** The statement is for anybody the group ever had, and adds up these rows and payouts. */
  lemma StatementLaw(w: World, g: int, m: int, cycleId: Option<int>)
    ensures var result := StatementOf(w, g, m, cycleId);
      && (result == Failure(NotFound) <==>
          !(0 <= g < |w.groups|) || !(0 <= m < |w.members|) || w.members[m].groupId != g)
      && (result.Success? ==>
          && result.value.totalContributed == Sum(ListedRows(w, g, m, cycleId), RowMoney(w))
          && result.value.totalReceived == Sum(ListedPayouts(w, g, m, cycleId), PayoutMoney(w))
          && result.value.netPosition == result.value.totalContributed - result.value.totalReceived)
  {
    assert MemberCounted(w, g, m, cycleId) == ListedRows(w, g, m, cycleId);
    assert MemberReceived(w, g, m, cycleId) == ListedPayouts(w, g, m, cycleId);
    SumCongruent(MemberCounted(w, g, m, cycleId), AmountAt(w), RowMoney(w));
    SumCongruent(MemberReceived(w, g, m, cycleId), PayoutAmount(w), PayoutMoney(w));
  }

  predicate SomeRow(w: World, r: int, paid: bool) {
    exists p :: p in w.payouts && p.round == r && w.payouts[p].paidAt.Some? == paid
  }

  /** The payout ledger's label of a round, by its payout rows and its status. */
  lemma LabelLaw(w: World, r: int)
    requires 0 <= r < |w.rounds|
    ensures var paid, unpaid, done := SomeRow(w, r, true), SomeRow(w, r, false), w.rounds[r].status == RoundCompleted;
      PayoutRoundStatus(w, r) ==
        if !paid && !unpaid then RecipientsNotSet
        else if done || !unpaid then PaidLabel
        else if paid then Partial
        else AwaitingPayment
  {
    var rows, paid := PayoutsOf(w, r), PaidKeys(w, r);
    SubsetCardinality(paid, rows);
    forall p ensures p in rows <==> p in w.payouts && p.round == r {}
    forall p ensures p in paid <==> p in rows && w.payouts[p].paidAt.Some? {}
    hide PayoutsOf, PaidKeys;
    SomeRowIff(w, r, rows, paid);
    assert rows == {} ==> paid == {};
    assert rows == paid + (rows - paid) && |rows| == |paid| + |rows - paid|;
  }

  lemma SomeRowIff(w: World, r: int, rows: set<PayoutKey>, paid: set<PayoutKey>)
    requires forall p :: p in rows <==> p in w.payouts && p.round == r
    requires forall p :: p in paid <==> p in rows && w.payouts[p].paidAt.Some?
    ensures SomeRow(w, r, true) <==> paid != {}
    ensures SomeRow(w, r, false) <==> rows - paid != {}
  {
    if paid != {} {
      var p :| p in paid;
      assert p in w.payouts && p.round == r && w.payouts[p].paidAt.Some? == true;
    }
    if rows - paid != {} {
      var p :| p in rows - paid;
      assert p in w.payouts && p.round == r && w.payouts[p].paidAt.Some? == false;
    }
    if SomeRow(w, r, false) {
      var p :| p in w.payouts && p.round == r && w.payouts[p].paidAt.Some? == false;
      assert p in rows - paid;
    }
  }
}
