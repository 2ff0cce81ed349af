/** backend/src/modules/cycles/cycles.service.ts: opening, starting, completing and auto-completing cycles. */
module Cycles {
  import opened Common
  import opened Scheduler
  import opened Tables

  // ---- specification ----

  /** The group's active members among the first n member rows, as the scheduler takes them. */
  function RosterUpTo(members: seq<GroupMember>, g: int, n: nat): seq<RosterEntry>
    requires n <= |members|
  {
    if n == 0 then [] else
      var front, m := RosterUpTo(members, g, n - 1), members[n - 1];
      if m.groupId == g && m.status == ActiveMember then front + [RosterEntry(n - 1, m.position)] else front
  }

  function Roster(w: World, g: int): seq<RosterEntry> {
    RosterUpTo(w.members, g, |w.members|)
  }

  /** The highest cycle number of the group, 0 when it has no cycle. */
  function LastNumber(cycles: seq<Cycle>, g: int): int {
    if cycles == [] then 0 else
      var n, c := LastNumber(cycles[..|cycles| - 1], g), cycles[|cycles| - 1];
      if c.groupId == g && c.number > n then c.number else n
  }

  predicate HasActiveCycle(w: World, g: int) {
    exists c :: 0 <= c < |w.cycles| && w.cycles[c].groupId == g && Active(w, c)
  }

  function NewPlan(w: World, g: int, now: int, clock: nat -> nat): seq<GeneratedRound>
    requires HasGroup(w, g)
  {
    var s := w.groups[g].settings;
    Generated(Roster(w, g), s.recipients, s.frequency, now, s.payoutMethod, {}, clock)
  }

  function OpenInternalCall(w: World, g: int, now: int, clock: nat -> nat): Call {
    if !HasGroup(w, g) then Refused(NotFound)
    else if w.groups[g].status != ActiveGroup then Refused(GroupNotActive)
    else if Roster(w, g) == [] then Refused(NoMembers)
    else if w.groups[g].settings.recipients > 0 && |Roster(w, g)| < w.groups[g].settings.recipients
      then Refused(InsufficientMembers)
    else if HasActiveCycle(w, g) then Refused(CycleAlreadyActive)
    else Accepted([InsertCycle(g, LastNumber(w.cycles, g) + 1, NewPlan(w, g, now, clock))])
  }

  function OpenCall(w: World, g: int, role: Role, now: int, clock: nat -> nat): Call {
    if role != Owner then Refused(Forbidden) else OpenInternalCall(w, g, now, clock)
  }

  function StartCall(w: World, g: int, c: int, role: Role): Call {
    if role != Owner then Refused(Forbidden)
    else if !HasCycle(w, c) || w.cycles[c].groupId != g then Refused(NotFound)
    else if w.cycles[c].status != Open then Refused(CycleNotOpen)
    else Accepted([SetCycleStatus(c, InProgress)])
  }

  /** After a completion: the next cycle is opened if the group asks for it; a refusal is only logged. */
  function AutoOpenWrites(w: World, g: int, now: int, clock: nat -> nat): seq<Write> {
    if HasGroup(w, g) && w.groups[g].settings.autoOpen && OpenInternalCall(w, g, now, clock).Accepted?
    then OpenInternalCall(w, g, now, clock).writes else []
  }

  function CompletionWrites(w: World, c: int, now: int, clock: nat -> nat): seq<Write>
    requires HasCycle(w, c)
  {
    var done := SetCycleStatus(c, CycleCompleted);
    [done] + AutoOpenWrites(Apply(w, done), w.cycles[c].groupId, now, clock)
  }

  function CompleteCall(w: World, g: int, c: int, role: Role, now: int, clock: nat -> nat): Call {
    if role != Owner then Refused(Forbidden)
    else if !HasCycle(w, c) || w.cycles[c].groupId != g then Refused(NotFound)
    else if w.cycles[c].status == CycleCompleted then Accepted([])
    else Accepted(CompletionWrites(w, c, now, clock))
  }

  predicate AllRoundsCompleted(w: World, c: int) {
    && (exists r :: 0 <= r < |w.rounds| && w.rounds[r].cycleId == c)
    && (forall r :: 0 <= r < |w.rounds| && w.rounds[r].cycleId == c ==> w.rounds[r].status == RoundCompleted)
  }

  function AutoCompleteWrites(w: World, c: int, now: int, clock: nat -> nat): seq<Write> {
    if HasCycle(w, c) && w.cycles[c].status == InProgress && AllRoundsCompleted(w, c)
    then CompletionWrites(w, c, now, clock) else []
  }

  /** A round is marked completed, and its cycle with it if that was the last round. */
  function CompleteRoundWrites(w: World, r: int, now: int, clock: nat -> nat): seq<Write>
    requires HasRound(w, r)
  {
    var complete := SetRoundStatus(r, RoundCompleted);
    [complete] + AutoCompleteWrites(Apply(w, complete), w.rounds[r].cycleId, now, clock)
  }

  // ---- the service ----

  method OpenCycleInternal(db: Database, g: int, now: int, clock: nat -> nat) returns (error: Option<Error>)
    modifies db
    ensures Did(old(db.Snapshot()), OpenInternalCall(old(db.Snapshot()), g, now, clock), db.Snapshot(), error)
  {
    if !(0 <= g < |db.groups|) { return Some(NotFound); }
    var settings := db.groups[g].settings;
    var roster := RosterUpTo(db.members, g, |db.members|);
    if db.groups[g].status != ActiveGroup { return Some(GroupNotActive); }
    if |roster| == 0 { return Some(NoMembers); }
    if settings.recipients > 0 && |roster| < settings.recipients { return Some(InsufficientMembers); }
    if exists c :: 0 <= c < |db.cycles| && db.cycles[c].groupId == g && db.cycles[c].status != CycleCompleted {
      return Some(CycleAlreadyActive);
    }
    var number := LastNumber(db.cycles, g) + 1;
    var plan := GenerateRounds(roster, settings.recipients, settings.frequency, now, settings.payoutMethod, {}, clock);
    ghost var before := db.Snapshot();
    ApplyOne(before, InsertCycle(g, number, plan));
    CreateCycle(db, g, number, plan);
    error := None;
  }

  /** The transaction of openCycle: the cycle row, then its rounds, then the pre-assigned recipients. */
  method CreateCycle(db: Database, g: int, number: int, plan: seq<GeneratedRound>)
    modifies db
    ensures db.Snapshot() == Apply(old(db.Snapshot()), InsertCycle(g, number, plan))
  {
    var cycleId, base := |db.cycles|, |db.rounds|;
    db.cycles := db.cycles + [Cycle(g, number, Open)];
    CreateRounds(db, cycleId, plan);
    CreateAllRecipients(db, base, plan);
  }

  method CreateRounds(db: Database, cycleId: int, plan: seq<GeneratedRound>)
    modifies db`rounds
    ensures db.rounds == old(db.rounds) + PlanRounds(cycleId, plan)
  {
    for i := 0 to |plan|
      modifies db`rounds
      invariant db.rounds == old(db.rounds) + PlanRounds(cycleId, plan)[..i]
    {
      db.rounds := db.rounds + [Round(cycleId, plan[i].roundNumber, DateOf(plan[i].dueDate), RoundPending, 0)];
    }
  }

  method CreateAllRecipients(db: Database, base: int, plan: seq<GeneratedRound>)
    modifies db`payouts
    ensures db.payouts == old(db.payouts) + UnpaidRows(PlanKeys(base, plan))
  {
    hide PlanKeys, RecipientKeys, UnpaidRows;
    ghost var added: map<PayoutKey, Payout> := map[];
    PlanRowsNone(base, plan);
    for i := 0 to |plan|
      modifies db`payouts
      invariant added == UnpaidRows(PlanKeys(base, plan[..i])) && db.payouts == old(db.payouts) + added
    {
      PlanRowsStep(base, plan, i);
      CreateRecipients(db, base + i, plan[i].recipients);
      added := added + UnpaidRows(RecipientKeys(base + i, plan[i].recipients));
    }
    assert plan[..|plan|] == plan;
  }

  /** Inserts one unpaid payout row per recipient of a round. */
  method CreateRecipients(db: Database, r: int, recipients: seq<MemberId>)
    modifies db`payouts
    ensures db.payouts == old(db.payouts) + UnpaidRows(RecipientKeys(r, recipients))
  {
    for j := 0 to |recipients|
      modifies db`payouts
      invariant db.payouts == old(db.payouts) + UnpaidRows(RecipientKeys(r, recipients[..j]))
    {
      db.payouts := db.payouts[PayoutKey(r, recipients[j]) := Payout(0, None)];
      assert RecipientKeys(r, recipients[..j + 1]) == RecipientKeys(r, recipients[..j]) + {PayoutKey(r, recipients[j])};
    }
    assert recipients[..|recipients|] == recipients;
  }

  lemma PlanKeysStep(base: int, plan: seq<GeneratedRound>, i: nat)
    requires i < |plan|
    ensures PlanKeys(base, plan[..i + 1]) == PlanKeys(base, plan[..i]) + RecipientKeys(base + i, plan[i].recipients)
  {
    var after := PlanKeys(base, plan[..i + 1]);
    var before := PlanKeys(base, plan[..i]) + RecipientKeys(base + i, plan[i].recipients);
    forall p ensures p in after <==> p in before {
      if p in PlanKeys(base, plan[..i]) {
        var a, m :| 0 <= a < i && m in plan[..i][a].recipients && p == PayoutKey(base + a, m);
        assert m in plan[..i + 1][a].recipients;
      }
      if p in RecipientKeys(base + i, plan[i].recipients) {
        assert p.member in plan[..i + 1][i].recipients;
      }
      if p in PlanKeys(base, plan[..i + 1]) {
        var a, m :| 0 <= a < i + 1 && m in plan[..i + 1][a].recipients && p == PayoutKey(base + a, m);
        if a < i { assert m in plan[..i][a].recipients; }
      }
    }
  }

  lemma PlanRowsNone(base: int, plan: seq<GeneratedRound>)
    ensures UnpaidRows(PlanKeys(base, plan[..0])) == map[]
  {
    assert PlanKeys(base, plan[..0]) == {};
  }

  lemma PlanRowsStep(base: int, plan: seq<GeneratedRound>, i: nat)
    requires i < |plan|
    ensures UnpaidRows(PlanKeys(base, plan[..i + 1]))
            == UnpaidRows(PlanKeys(base, plan[..i])) + UnpaidRows(RecipientKeys(base + i, plan[i].recipients))
  {
    PlanKeysStep(base, plan, i);
  }

  method OpenCycle(db: Database, g: int, role: Role, now: int, clock: nat -> nat) returns (error: Option<Error>)
    modifies db
    ensures Did(old(db.Snapshot()), OpenCall(old(db.Snapshot()), g, role, now, clock), db.Snapshot(), error)
  {
    if role != Owner { return Some(Forbidden); }
    error := OpenCycleInternal(db, g, now, clock);
  }

  method StartCycle(db: Database, g: int, c: int, role: Role) returns (error: Option<Error>)
    modifies db
    ensures Did(old(db.Snapshot()), StartCall(old(db.Snapshot()), g, c, role), db.Snapshot(), error)
  {
    if role != Owner { return Some(Forbidden); }
    if !(0 <= c < |db.cycles|) || db.cycles[c].groupId != g { return Some(NotFound); }
    if db.cycles[c].status != Open { return Some(CycleNotOpen); }
    ApplyOne(db.Snapshot(), SetCycleStatus(c, InProgress));
    db.cycles := db.cycles[c := db.cycles[c].(status := InProgress)];
    error := None;
  }

  /** notifyCycleCompleted, without its messages: opens the next cycle and swallows a refusal. */
  method NotifyCycleCompleted(db: Database, g: int, now: int, clock: nat -> nat)
    modifies db
    ensures db.Snapshot() == ApplyAll(old(db.Snapshot()), AutoOpenWrites(old(db.Snapshot()), g, now, clock))
  {
    if 0 <= g < |db.groups| && db.groups[g].settings.autoOpen {
      var _ := OpenCycleInternal(db, g, now, clock);
    }
  }

  /** The common tail of completeCycle and autoCompleteIfDone. */
  method FinishCycle(db: Database, c: int, now: int, clock: nat -> nat)
    requires 0 <= c < |db.cycles|
    modifies db
    ensures db.Snapshot() == ApplyAll(old(db.Snapshot()), CompletionWrites(old(db.Snapshot()), c, now, clock))
  {
    ghost var before := db.Snapshot();
    var g := db.cycles[c].groupId;
    db.cycles := db.cycles[c := db.cycles[c].(status := CycleCompleted)];
    ghost var done := SetCycleStatus(c, CycleCompleted);
    ApplyOne(before, done);
    ApplyAllConcat(before, [done], AutoOpenWrites(db.Snapshot(), g, now, clock));
    NotifyCycleCompleted(db, g, now, clock);
  }

  method CompleteCycle(db: Database, g: int, c: int, role: Role, now: int, clock: nat -> nat)
    returns (error: Option<Error>)
    modifies db
    ensures Did(old(db.Snapshot()), CompleteCall(old(db.Snapshot()), g, c, role, now, clock), db.Snapshot(), error)
  {
    if role != Owner { return Some(Forbidden); }
    if !(0 <= c < |db.cycles|) || db.cycles[c].groupId != g { return Some(NotFound); }
    if db.cycles[c].status == CycleCompleted { return None; }
    FinishCycle(db, c, now, clock);
    error := None;
  }

  method AutoCompleteIfDone(db: Database, c: int, now: int, clock: nat -> nat)
    modifies db
    ensures db.Snapshot() == ApplyAll(old(db.Snapshot()), AutoCompleteWrites(old(db.Snapshot()), c, now, clock))
  {
    if !(0 <= c < |db.cycles|) { return; }
    if db.cycles[c].status != InProgress { return; }
    var count, allDone := 0, true;
    for r := 0 to |db.rounds|
      invariant count > 0 <==> exists q :: 0 <= q < r && db.rounds[q].cycleId == c
      invariant allDone <==> forall q :: 0 <= q < r && db.rounds[q].cycleId == c ==>
        db.rounds[q].status == RoundCompleted
    {
      if db.rounds[r].cycleId == c {
        count := count + 1;
        allDone := allDone && db.rounds[r].status == RoundCompleted;
      }
    }
    if count == 0 || !allDone { return; }
    FinishCycle(db, c, now, clock);
  }

  method CompleteRound(db: Database, r: int, now: int, clock: nat -> nat)
    requires 0 <= r < |db.rounds|
    modifies db
    ensures db.Snapshot() == ApplyAll(old(db.Snapshot()), CompleteRoundWrites(old(db.Snapshot()), r, now, clock))
  {
    ghost var before, complete := db.Snapshot(), SetRoundStatus(r, RoundCompleted);
    db.rounds := db.rounds[r := db.rounds[r].(status := RoundCompleted)];
    ApplyOne(before, complete);
    ApplyAllConcat(before, [complete], AutoCompleteWrites(db.Snapshot(), db.rounds[r].cycleId, now, clock));
    AutoCompleteIfDone(db, db.rounds[r].cycleId, now, clock);
  }
}
