/** backend/src/modules/payouts/payouts.service.ts: distributing a round, assigning and re-rolling recipients. */
module Payouts {
  import opened Common
  import opened Scheduler
  import opened Tables
  import opened Cycles
  import opened Contributions

  // ---- specification ----

  /** Integer division rounding toward zero, as bigint division does. */
  function TruncDiv(a: int, b: nat): int
    requires b > 0
  {
    if a >= 0 then a / b else -(-a / b)
  }

  /** Each recipient's equal share of what the round collected, or the contribution amount when that is nothing. */
  function PerRecipient(w: World, g: int, r: int): int
    requires HasGroup(w, g) && HasRound(w, r) && PayoutsOf(w, r) != {}
  {
    var share := TruncDiv(w.rounds[r].total, |PayoutsOf(w, r)|);
    if share > 0 then share else w.groups[g].settings.amount
  }

  /** The optional receipt of a payout, and whether there is a place to store it. */
  datatype Receipt = NoReceipt | WithReceipt(configured: bool)

  /** Each row is paid at its own reading of the clock. */
  function PayWrite(w: World, g: int, r: int, paidAt: int -> int): Write
    requires HasGroup(w, g) && HasRound(w, r) && PayoutsOf(w, r) != {}
  {
    PayRecipients(r, PerRecipient(w, g, r), paidAt)
  }

  function RecordPayoutCall(w: World, g: int, c: int, r: int, role: Role, receipt: Receipt, paidAt: int -> int,
                            now: int, clock: nat -> nat): Call
  {
    if !Privileged(role) then Refused(Forbidden)
    else if !LoadRound(w, g, c, r) then Refused(NotFound)
    else if w.groups[g].settings.recipients == 0 then Refused(PayoutsDisabled)
    else if PayoutsOf(w, r) == {} then Refused(NoRecipients)
    else if AnyDistributed(w, r) then Refused(AlreadyDistributed)
    else if receipt == WithReceipt(false) then Refused(StorageNotConfigured)
    else
      var x := PayWrite(w, g, r, paidAt);
      Accepted([x] + CompleteRoundWrites(Apply(w, x), r, now, clock))
  }

  predicate InEarlierRound(w: World, c: int, r: int, p: PayoutKey)
    requires HasRound(w, r)
  {
    HasRound(w, p.round) && w.rounds[p.round].cycleId == c && w.rounds[p.round].number < w.rounds[r].number
  }

  /** Members with a payout row in an earlier round of the cycle. */
  function EarlierAssigned(w: World, c: int, r: int): set<int>
    requires HasRound(w, r)
  {
    set p | p in w.payouts && InEarlierRound(w, c, r, p) :: p.member
  }

  /** Members already paid in an earlier round of the cycle. */
  function EarlierPaid(w: World, c: int, r: int): set<int>
    requires HasRound(w, r)
  {
    set p | p in w.payouts && Distributed(w, p) && InEarlierRound(w, c, r, p) :: p.member
  }

  function AssignCall(w: World, g: int, c: int, r: int, ids: seq<int>, role: Role): Call {
    if role != Owner then Refused(Forbidden)
    else if !LoadRound(w, g, c, r) then Refused(NotFound)
    else if w.groups[g].settings.recipients == 0 then Refused(PayoutsDisabled)
    else if w.groups[g].settings.payoutMethod != Manual then Refused(NotManual)
    else if |ids| != w.groups[g].settings.recipients then Refused(WrongCount)
    else if |Elements(ids)| != |ids| then Refused(DuplicateRecipient)
    else if exists id :: id in ids && !IsActiveMember(w, g, id) then Refused(InvalidMember)
    else if AnyDistributed(w, r) then Refused(AlreadyDistributed)
    else if exists id :: id in ids && id in EarlierPaid(w, c, r) then Refused(AlreadyReceived)
    else Accepted([ReplaceRecipients(r, ids)])
  }

  function RerollPlan(w: World, g: int, c: int, r: int, now: int, clock: nat -> nat): seq<GeneratedRound>
    requires HasGroup(w, g) && HasRound(w, r)
  {
    var s := w.groups[g].settings;
    Generated(Roster(w, g), s.recipients, s.frequency, now, Random, EarlierAssigned(w, c, r), clock)
  }

  function RerollCall(w: World, g: int, c: int, r: int, role: Role, now: int, clock: nat -> nat): Call {
    if role != Owner then Refused(Forbidden)
    else if !LoadRound(w, g, c, r) then Refused(NotFound)
    else if w.groups[g].settings.recipients == 0 then Refused(PayoutsDisabled)
    else if w.groups[g].settings.payoutMethod != Random then Refused(NotRandom)
    else if AnyDistributed(w, r) then Refused(AlreadyDistributed)
    else
      var plan, number := RerollPlan(w, g, c, r, now, clock), w.rounds[r].number;
      if !(1 <= number <= |plan|) then Refused(NoRecipients)
      else Accepted([ReplaceRecipients(r, plan[number - 1].recipients)])
  }

  // ---- the service ----

  method RecordPayout(db: Database, g: int, c: int, r: int, role: Role, receipt: Receipt, paidAt: int -> int, now: int,
                      clock: nat -> nat)
    returns (error: Option<Error>)
    modifies db
    ensures Did(old(db.Snapshot()), RecordPayoutCall(old(db.Snapshot()), g, c, r, role, receipt, paidAt, now, clock),
                db.Snapshot(), error)
  {
    if !Privileged(role) { return Some(Forbidden); }
    if !LoadRound(db.Snapshot(), g, c, r) { return Some(NotFound); }
    if db.groups[g].settings.recipients == 0 { return Some(PayoutsDisabled); }
    var existing := PayoutsOf(db.Snapshot(), r);
    if existing == {} { return Some(NoRecipients); }
    if AnyDistributed(db.Snapshot(), r) { return Some(AlreadyDistributed); }
    var perRecipient := TruncDiv(db.rounds[r].total, |existing|);
    var perAmount := if perRecipient > 0 then perRecipient else db.groups[g].settings.amount;
    if receipt == WithReceipt(false) { return Some(StorageNotConfigured); }
    hide CompleteRoundWrites;
    ghost var before := db.Snapshot();
    ghost var x := PayWrite(before, g, r, paidAt);
    MarkPaid(db, r, perAmount, paidAt);
    ApplyOne(before, x);
    ApplyAllConcat(before, [x], CompleteRoundWrites(db.Snapshot(), r, now, clock));
    CompleteRound(db, r, now, clock);
    error := None;
  }

  /** The transaction of recordPayout: one update per recipient row of the round. */
  method MarkPaid(db: Database, r: int, amount: int, paidAt: int -> int)
    modifies db`payouts
    ensures db.Snapshot() == Apply(old(db.Snapshot()), PayRecipients(r, amount, paidAt))
  {
    ghost var rows := db.payouts;
    var todo := PayoutsOf(db.Snapshot(), r);
    while todo != {}
      modifies db`payouts
      invariant todo <= PayoutsOf(old(db.Snapshot()), r)
      invariant db.payouts ==
        map p | p in rows :: if p.round == r && p !in todo then Payout(amount, Some(paidAt(p.member))) else rows[p]
    {
      var p :| p in todo;
      db.payouts := db.payouts[p := Payout(amount, Some(paidAt(p.member)))];
      todo := todo - {p};
    }
  }

  method AssignPayoutRecipients(db: Database, g: int, c: int, r: int, ids: seq<int>, role: Role)
    returns (error: Option<Error>)
    modifies db
    ensures Did(old(db.Snapshot()), AssignCall(old(db.Snapshot()), g, c, r, ids, role), db.Snapshot(), error)
  {
    if role != Owner { return Some(Forbidden); }
    if !LoadRound(db.Snapshot(), g, c, r) { return Some(NotFound); }
    var settings := db.groups[g].settings;
    if settings.recipients == 0 { return Some(PayoutsDisabled); }
    if settings.payoutMethod != Manual { return Some(NotManual); }
    if |ids| != settings.recipients { return Some(WrongCount); }
    if |Elements(ids)| != |ids| { return Some(DuplicateRecipient); }
    if exists id :: id in ids && !IsActiveMember(db.Snapshot(), g, id) { return Some(InvalidMember); }
    if AnyDistributed(db.Snapshot(), r) { return Some(AlreadyDistributed); }
    var alreadyReceived := EarlierPaid(db.Snapshot(), c, r);
    if exists id :: id in ids && id in alreadyReceived { return Some(AlreadyReceived); }
    ApplyOne(db.Snapshot(), ReplaceRecipients(r, ids));
    RecreateRecipients(db, r, ids);
    error := None;
  }

  /** deleteMany on the round's payouts, then one create per recipient. */
  method RecreateRecipients(db: Database, r: int, ids: seq<int>)
    modifies db`payouts
    ensures db.Snapshot() == Apply(old(db.Snapshot()), ReplaceRecipients(r, ids))
  {
    db.payouts := map p | p in db.payouts && p.round != r :: db.payouts[p];
    CreateRecipients(db, r, ids);
  }

  method RerollRandomPayouts(db: Database, g: int, c: int, r: int, role: Role, now: int, clock: nat -> nat)
    returns (error: Option<Error>)
    modifies db
    ensures Did(old(db.Snapshot()), RerollCall(old(db.Snapshot()), g, c, r, role, now, clock), db.Snapshot(), error)
  {
    if role != Owner { return Some(Forbidden); }
    if !LoadRound(db.Snapshot(), g, c, r) { return Some(NotFound); }
    var settings := db.groups[g].settings;
    if settings.recipients == 0 { return Some(PayoutsDisabled); }
    if settings.payoutMethod != Random { return Some(NotRandom); }
    if AnyDistributed(db.Snapshot(), r) { return Some(AlreadyDistributed); }
    var previouslyAssigned := EarlierAssigned(db.Snapshot(), c, r);
    hide Generated;
    var plan := GenerateRounds(Roster(db.Snapshot(), g), settings.recipients, settings.frequency, now, Random,
                               previouslyAssigned, clock);
    var number := db.rounds[r].number;
    if !(1 <= number <= |plan|) { return Some(NoRecipients); }
    ApplyOne(db.Snapshot(), ReplaceRecipients(r, plan[number - 1].recipients));
    RecreateRecipients(db, r, plan[number - 1].recipients);
    error := None;
  }
}
