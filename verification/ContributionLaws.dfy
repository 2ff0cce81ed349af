/** What the contribution calls do, said of the tables and of the numbers in them: who may make them, when they
    are refused, and every row they touch. */
module ContributionLaws {
  import opened Common
  import opened Tables
  import opened Contributions
  import opened Backend
  import opened RoundLaws

  /** The request names a round of that cycle of that group. */
  predicate Found(w: World, g: int, c: int, r: int) {
    && 0 <= g < |w.groups| && 0 <= c < |w.cycles| && 0 <= r < |w.rounds|
    && w.cycles[c].groupId == g && w.rounds[r].cycleId == c
  }

  /** The last moment at which a payment for the round is on time: its due date plus the days of grace. */
  function Deadline(w: World, g: int, r: int): int
    requires 0 <= g < |w.groups| && 0 <= r < |w.rounds|
  {
    w.rounds[r].dueDate + w.groups[g].settings.graceDays * 86_400_000
  }

  /** d is midnight of the day of t. */
  predicate IsDay(d: int, t: int) {
    d % 86_400_000 == 0 && d <= t < d + 86_400_000
  }

  predicate Has(w: World, k: Key, s: ContributionStatus) {
    k in w.contributions && w.contributions[k].status == s
  }

  function Credited(w: World, r: int, amount: int): seq<Round>
    requires 0 <= r < |w.rounds|
  {
    w.rounds[r := w.rounds[r].(total := w.rounds[r].total + amount)]
  }

  lemma DayOf(t: int)
    ensures IsDay(DateOf(t), t) && forall d :: IsDay(d, t) ==> d == DateOf(t)
  {
  }

  // ---- recording ----

  /** Recording is for owners and treasurers, needs the round and the member, and refuses rows already paid or late. */
  lemma RecordVerdict(w: World, ev: Event)
    requires ev.Record?
    ensures var k, call := Key(ev.c, ev.r, ev.m), CallOf(w, ev);
      var found, settled := Found(w, ev.g, ev.c, ev.r), Has(w, k, Paid) || Has(w, k, Late);
      && (call == Refused(Forbidden) <==> ev.role == Member)
      && (call == Refused(NotFound) <==> ev.role != Member && !found)
      && (call == Refused(AlreadyPaid) <==> ev.role != Member && found && settled)
      && (call == Refused(MissingReference) <==>
          ev.role != Member && found && k !in w.contributions && !(0 <= ev.m < |w.members|))
      && (call.Accepted? <==>
          ev.role != Member && found && !settled && (k in w.contributions || 0 <= ev.m < |w.members|))
  {
    hide AdvanceWrites;
  }

  /** The row that recording leaves behind. On time means no later than due date plus grace. */
  predicate RecordedRow(w: World, ev: Event, row: Contribution)
    requires ev.Record? && Found(w, ev.g, ev.c, ev.r)
  {
    var k := Key(ev.c, ev.r, ev.m);
    && row.status == (if ev.now <= Deadline(w, ev.g, ev.r) then Paid else Late)
    && row.amount == w.groups[ev.g].settings.amount
    && row.paidDate.Some? && IsDay(row.paidDate.value, ev.now)
    && (if k in w.contributions then
          row.groupId == w.contributions[k].groupId && row.dueDate == w.contributions[k].dueDate
          && row.proof == w.contributions[k].proof
        else row.groupId == ev.g && row.dueDate == w.rounds[ev.r].dueDate && row.proof.None?)
  }

  /** The whole effect of recording: the row, the round's total if the row was missing or pending, and what the
      round and its cycle make of it. */
  lemma RecordEffect(w: World, ev: Event)
    requires ev.Record? && CallOf(w, ev).Accepted?
    ensures Found(w, ev.g, ev.c, ev.r)
    ensures var k := Key(ev.c, ev.r, ev.m);
      exists row :: RecordedRow(w, ev, row) &&
        Step(w, ev) == Advanced(
          w.(contributions := w.contributions[k := row],
             rounds := if k !in w.contributions || Has(w, k, Pending) then Credited(w, ev.r, row.amount) else w.rounds),
          ev.r, ev.now, ev.clock)
  {
    hide AdvanceWrites, Advanced;
    RecordVerdict(w, ev);
    var x := RecordWrite(w, ev.g, ev.c, ev.r, ev.m, ev.now);
    MoneyStep(w, ev, x);
    DayOf(ev.now);
    assert RecordedRow(w, ev, x.row);
  }

  lemma MoneyStep(w: World, ev: Event, x: Write)
    requires (ev.Record? || ev.Approve?) && CallOf(w, ev).Accepted? && HasRound(w, ev.r) && HasRound(Apply(w, x), ev.r)
    requires CallOf(w, ev).writes == [x] + AdvanceWrites(Apply(w, x), ev.r, ev.now, ev.clock)
    ensures Step(w, ev) == Advanced(Apply(w, x), ev.r, ev.now, ev.clock)
  {
    hide CallOf, Apply, AdvanceWrites, Advanced;
    var rest := AdvanceWrites(Apply(w, x), ev.r, ev.now, ev.clock);
    ApplyOne(w, x);
    ApplyAllConcat(w, [x], rest);
    AdvanceMoves(Apply(w, x), ev.r, ev.now, ev.clock);
  }

  // ---- approving ----

  lemma ApproveVerdict(w: World, ev: Event)
    requires ev.Approve?
    ensures var k, call := Key(ev.c, ev.r, ev.m), CallOf(w, ev);
      var found := Found(w, ev.g, ev.c, ev.r) && k in w.contributions;
      && (call == Refused(Forbidden) <==> ev.role == Member)
      && (call == Refused(NotFound) <==> ev.role != Member && !found)
      && (call == Refused(AlreadyPaid) <==> ev.role != Member && found && Has(w, k, Paid))
      && (call.Accepted? <==> ev.role != Member && found && !Has(w, k, Paid))
  {
    hide AdvanceWrites;
  }

  /** The whole effect of approving: status and date of the row, always a credit of its own amount. */
  lemma ApproveEffect(w: World, ev: Event)
    requires ev.Approve? && CallOf(w, ev).Accepted?
    ensures var k := Key(ev.c, ev.r, ev.m); Found(w, ev.g, ev.c, ev.r) && k in w.contributions
    ensures var k := Key(ev.c, ev.r, ev.m);
      exists d :: IsDay(d, ev.now) &&
        Step(w, ev) == Advanced(
          w.(contributions := w.contributions[k := w.contributions[k].(
               status := if ev.now <= Deadline(w, ev.g, ev.r) then Paid else Late, paidDate := Some(d))],
             rounds := Credited(w, ev.r, w.contributions[k].amount)),
          ev.r, ev.now, ev.clock)
  {
    hide AdvanceWrites, Advanced;
    ApproveVerdict(w, ev);
    var x := ApproveWrite(w, ev.g, ev.r, Key(ev.c, ev.r, ev.m), ev.now);
    MoneyStep(w, ev, x);
    DayOf(ev.now);
  }

  // ---- what that comes to ----

  /** The tables that the round's status is computed from. */
  function AfterRow(w: World, ev: Event): World
    requires (ev.Record? || ev.Approve?) && CallOf(w, ev).Accepted?
  {
    Apply(w, CallOf(w, ev).writes[0])
  }

  lemma MoneyAdvances(w: World, ev: Event)
    requires (ev.Record? || ev.Approve?) && CallOf(w, ev).Accepted?
    ensures Found(w, ev.g, ev.c, ev.r)
    ensures var w1, k := AfterRow(w, ev), Key(ev.c, ev.r, ev.m);
      && HasRound(w1, ev.r) && Step(w, ev) == Advanced(w1, ev.r, ev.now, ev.clock)
      && w1 == w.(contributions := w1.contributions, rounds := w1.rounds) && k in w1.contributions
      && w1.contributions[k].status == (if ev.now <= Deadline(w, ev.g, ev.r) then Paid else Late)
      && |w1.rounds| == |w.rounds|
      && forall q :: 0 <= q < |w.rounds| ==> w1.rounds[q] == w.rounds[q].(total := w1.rounds[q].total)
  {
    hide AdvanceWrites, Advanced;
    var x := CallOf(w, ev).writes[0];
    if ev.Record? { RecordVerdict(w, ev); } else { ApproveVerdict(w, ev); }
    assert CallOf(w, ev).writes == [x] + AdvanceWrites(Apply(w, x), ev.r, ev.now, ev.clock);
    MoneyStep(w, ev, x);
  }

  /** A payment recorded or approved is paid if it comes no later than the due date plus the days of grace, and late
      otherwise. */
  lemma PaidIffOnTime(w: World, ev: Event)
    requires (ev.Record? || ev.Approve?) && CallOf(w, ev).Accepted?
    ensures Found(w, ev.g, ev.c, ev.r)
    ensures var k, w' := Key(ev.c, ev.r, ev.m), Step(w, ev);
      && k in w'.contributions
      && (w'.contributions[k].status == Paid <==>
          ev.now <= w.rounds[ev.r].dueDate + w.groups[ev.g].settings.graceDays * 86_400_000)
      && (w'.contributions[k].status == Late <==>
          ev.now > w.rounds[ev.r].dueDate + w.groups[ev.g].settings.graceDays * 86_400_000)
  {
    hide CallOf, Step, Advanced, AfterRow;
    MoneyAdvances(w, ev);
    AdvancedApart(AfterRow(w, ev), ev.r, ev.now, ev.clock);
  }

  /** Approving what was just recorded: refused as already paid if the payment was on time, and otherwise accepted,
      with a second credit. */
  lemma ApproveAfterRecord(w: World, ev: Event, role: Role, now: int, clock: nat -> nat)
    requires ev.Record? && CallOf(w, ev).Accepted? && role != Member
    ensures Found(w, ev.g, ev.c, ev.r)
    ensures var call := CallOf(Step(w, ev), Approve(ev.g, ev.c, ev.r, ev.m, role, now, clock));
      if ev.now <= w.rounds[ev.r].dueDate + w.groups[ev.g].settings.graceDays * 86_400_000
      then call == Refused(AlreadyPaid) else call.Accepted?
  {
    hide CallOf, Step, Advanced, AfterRow;
    MoneyAdvances(w, ev);
    PaidIffOnTime(w, ev);
    AdvancedApart(AfterRow(w, ev), ev.r, ev.now, ev.clock);
    ApproveVerdict(Step(w, ev), Approve(ev.g, ev.c, ev.r, ev.m, role, now, clock));
  }

  lemma DoneAlike(w: World, w': World, r: int)
    requires 0 <= r < |w.rounds| && 0 <= w.rounds[r].cycleId < |w.cycles| && StatusApart(w, w')
    ensures EverybodyDone(w', r) <==> EverybodyDone(w, r)
  {
    var c := w.rounds[r].cycleId;
    assert w'.rounds[r].cycleId == c && w'.cycles[c].groupId == w.cycles[c].groupId;
  }

  lemma SamePayouts(w: World, w': World, r: int)
    requires w'.payouts == w.payouts
    ensures (HasPayout(w', r) <==> HasPayout(w, r)) && (NonePaid(w, r) && HasPayout(w, r) ==> !NoneUnpaid(w', r))
  {
  }

  /** A pending round of which nothing was paid out leaves that state with the last contribution: as soon as every
      active member has a paid, late or waived row it is collecting, or, without recipients, completed. Until
      then it stays pending, and no other round moves in any case. */
  lemma LeavesPendingIff(w: World, ev: Event)
    requires (ev.Record? || ev.Approve?) && CallOf(w, ev).Accepted?
    requires HasRound(w, ev.r) && w.rounds[ev.r].status == RoundPending && NonePaid(w, ev.r)
    ensures var w', r := Step(w, ev), ev.r;
      && HasRound(w', r)
      && (w'.rounds[r].status != RoundPending <==> EverybodyDone(w', r))
      && (w'.rounds[r].status == Collecting <==> EverybodyDone(w', r) && HasPayout(w, r))
      && (w'.rounds[r].status == RoundCompleted <==> EverybodyDone(w', r) && !HasPayout(w, r))
    ensures |w.rounds| <= |Step(w, ev).rounds|
    ensures forall q :: 0 <= q < |w.rounds| && q != ev.r ==> Step(w, ev).rounds[q].status == w.rounds[q].status
  {
    hide CallOf, Step, Advanced, AfterRow, EverybodyDone, HasPayout, NonePaid, NoneUnpaid;
    MoneyAdvances(w, ev);
    var w1 := AfterRow(w, ev);
    AdvancedApart(w1, ev.r, ev.now, ev.clock);
    DoneAlike(w1, Step(w, ev), ev.r);
    SamePayouts(w, w1, ev.r);
  }

  // ---- proofs and waivers ----

  /** Proofs are taken from the member in person or from owners and treasurers, in this order of refusals. */
  lemma UploadVerdict(w: World, ev: Event)
    requires ev.Upload?
    ensures var k, call := Key(ev.c, ev.r, ev.m), CallOf(w, ev);
      var self := 0 <= ev.m < |w.members| && w.members[ev.m].groupId == ev.g && w.members[ev.m].userId == ev.user;
      var may, found := ev.role != Member || self, Found(w, ev.g, ev.c, ev.r);
      var here := k in w.contributions || 0 <= ev.m < |w.members|;
      && (call == Refused(StorageNotConfigured) <==> !ev.file.configured)
      && (call == Refused(Forbidden) <==> ev.file.configured && !may)
      && (call == Refused(NotFound) <==> ev.file.configured && may && !found)
      && (call == Refused(UnsupportedFile) <==> ev.file.configured && may && found && !ev.file.supported)
      && (call == Refused(MissingReference) <==> ev.file.configured && may && found && ev.file.supported && !here)
      && (call.Accepted? <==> ev.file.configured && may && found && ev.file.supported && here)
  {
  }

  /** An upload stores the proof and the group's amount; a new row is pending and undated. */
  lemma UploadEffect(w: World, ev: Event)
    requires ev.Upload? && CallOf(w, ev).Accepted?
    ensures Found(w, ev.g, ev.c, ev.r)
    ensures var k, amount := Key(ev.c, ev.r, ev.m), w.groups[ev.g].settings.amount;
      Step(w, ev) == w.(contributions := w.contributions[k :=
        if k in w.contributions then w.contributions[k].(proof := Some(ev.file.asset), amount := amount)
        else Contribution(ev.g, amount, w.rounds[ev.r].dueDate, None, Pending, Some(ev.file.asset))])
  {
    ApplyOne(w, CallOf(w, ev).writes[0]);
  }

  lemma RejectVerdict(w: World, ev: Event)
    requires ev.Reject?
    ensures var call, found := CallOf(w, ev), Found(w, ev.g, ev.c, ev.r) && Key(ev.c, ev.r, ev.m) in w.contributions;
      && (call == Refused(Forbidden) <==> ev.role == Member)
      && (call == Refused(NotFound) <==> ev.role != Member && !found)
      && (call.Accepted? <==> ev.role != Member && found)
  {
  }

  lemma RejectEffect(w: World, ev: Event)
    requires ev.Reject? && CallOf(w, ev).Accepted?
    ensures var k := Key(ev.c, ev.r, ev.m);
      && k in w.contributions
      && Step(w, ev) == w.(contributions := w.contributions[k := w.contributions[k].(proof := None)])
  {
    ApplyOne(w, CallOf(w, ev).writes[0]);
  }

  lemma WaiveVerdict(w: World, ev: Event)
    requires ev.Waive?
    ensures var k, call := Key(ev.c, ev.r, ev.m), CallOf(w, ev);
      var found, here := Found(w, ev.g, ev.c, ev.r), k in w.contributions || 0 <= ev.m < |w.members|;
      && (call == Refused(Forbidden) <==> ev.role != Owner)
      && (call == Refused(NotFound) <==> ev.role == Owner && !found)
      && (call == Refused(MissingReference) <==> ev.role == Owner && found && !here)
      && (call.Accepted? <==> ev.role == Owner && found && here)
  {
  }

  /** Waiving keeps the payment date of a row it finds, and moves no money. */
  lemma WaiveEffect(w: World, ev: Event)
    requires ev.Waive? && CallOf(w, ev).Accepted?
    ensures Found(w, ev.g, ev.c, ev.r)
    ensures var k, amount := Key(ev.c, ev.r, ev.m), w.groups[ev.g].settings.amount;
      Step(w, ev) == w.(contributions := w.contributions[k :=
        if k in w.contributions then w.contributions[k].(status := Waived, amount := amount)
        else Contribution(ev.g, amount, w.rounds[ev.r].dueDate, None, Waived, None)])
  {
    ApplyOne(w, CallOf(w, ev).writes[0]);
  }
}
