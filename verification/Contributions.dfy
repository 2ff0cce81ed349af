/** backend/src/modules/contributions/contributions.service.ts: proof upload, recording, approval,
    rejection, waiving, and the advance of the round's status. */
module Contributions {
  import opened Common
  import opened Scheduler
  import opened Tables
  import opened Cycles

  /** Approval adds this to the grace period. */
  const GRACE_BUFFER_DAYS: int := 0

  // ---- specification ----

  /** loadRound finds the round: it exists and its cycle and group are the ones in the request. */
  predicate LoadRound(w: World, g: int, c: int, r: int) {
    && HasRound(w, r) && w.rounds[r].cycleId == c
    && HasCycle(w, c) && w.cycles[c].groupId == g && HasGroup(w, g)
  }

  predicate Privileged(role: Role) { role == Owner || role == Treasurer }

  predicate IsMemberSelf(w: World, g: int, user: int, m: int) {
    HasMember(w, m) && w.members[m].groupId == g && w.members[m].userId == user
  }

  predicate PastGrace(w: World, g: int, r: int, now: int)
    requires HasGroup(w, g) && HasRound(w, r)
  {
    now > w.rounds[r].dueDate + w.groups[g].settings.graceDays * MS_PER_DAY
  }

  function LateOrPaid(w: World, g: int, r: int, now: int): ContributionStatus
    requires HasGroup(w, g) && HasRound(w, r)
  {
    if PastGrace(w, g, r, now) then Late else Paid
  }

  /** The uploaded proof: the id it is stored under, whether there is a place to store it, and whether its type
      is known. */
  datatype ProofFile = ProofFile(asset: int, configured: bool, supported: bool)

  function UploadCall(w: World, g: int, c: int, r: int, m: int, user: int, role: Role, file: ProofFile): Call {
    var k, asset := Key(c, r, m), file.asset;
    if !file.configured then Refused(StorageNotConfigured)
    else if !IsMemberSelf(w, g, user, m) && !Privileged(role) then Refused(Forbidden)
    else if !LoadRound(w, g, c, r) then Refused(NotFound)
    else if !file.supported then Refused(UnsupportedFile)
    else
      var amount := w.groups[g].settings.amount;
      if k in w.contributions
        then Accepted([PutContribution(k, w.contributions[k].(proof := Some(asset), amount := amount), false)])
      else if !HasMember(w, m) then Refused(MissingReference)
      else
        Accepted([PutContribution(k, Contribution(g, amount, w.rounds[r].dueDate, None, Pending, Some(asset)), false)])
  }

  function RecordWrite(w: World, g: int, c: int, r: int, m: int, now: int): Write
    requires LoadRound(w, g, c, r)
  {
    var k, amount, status := Key(c, r, m), w.groups[g].settings.amount, LateOrPaid(w, g, r, now);
    if k in w.contributions then
      PutContribution(k, w.contributions[k].(status := status, paidDate := Some(DateOf(now)), amount := amount),
                      w.contributions[k].status == Pending)
    else
      PutContribution(k, Contribution(g, amount, w.rounds[r].dueDate, Some(DateOf(now)), status, None), true)
  }

  function RecordCall(w: World, g: int, c: int, r: int, m: int, role: Role, now: int, clock: nat -> nat): Call {
    var k := Key(c, r, m);
    if !Privileged(role) then Refused(Forbidden)
    else if !LoadRound(w, g, c, r) then Refused(NotFound)
    else if k in w.contributions && (w.contributions[k].status == Paid || w.contributions[k].status == Late)
      then Refused(AlreadyPaid)
    else if k !in w.contributions && !HasMember(w, m) then Refused(MissingReference)
    else
      var x := RecordWrite(w, g, c, r, m, now);
      Accepted([x] + AdvanceWrites(Apply(w, x), r, now, clock))
  }

  function ApproveWrite(w: World, g: int, r: int, k: Key, now: int): Write
    requires HasGroup(w, g) && HasRound(w, r) && k in w.contributions
  {
    PutContribution(k, w.contributions[k].(status := LateOrPaid(w, g, r, now), paidDate := Some(DateOf(now))), true)
  }

  function ApproveCall(w: World, g: int, c: int, r: int, m: int, role: Role, now: int, clock: nat -> nat): Call {
    var k := Key(c, r, m);
    if !Privileged(role) then Refused(Forbidden)
    else if !LoadRound(w, g, c, r) || k !in w.contributions then Refused(NotFound)
    else if w.contributions[k].status == Paid then Refused(AlreadyPaid)
    else
      var x := ApproveWrite(w, g, r, k, now);
      Accepted([x] + AdvanceWrites(Apply(w, x), r, now, clock))
  }

  function RejectCall(w: World, g: int, c: int, r: int, m: int, role: Role): Call {
    var k := Key(c, r, m);
    if !Privileged(role) then Refused(Forbidden)
    else if !LoadRound(w, g, c, r) || k !in w.contributions then Refused(NotFound)
    else Accepted([PutContribution(k, w.contributions[k].(proof := None), false)])
  }

  function WaiveCall(w: World, g: int, c: int, r: int, m: int, role: Role): Call {
    var k := Key(c, r, m);
    if role != Owner then Refused(Forbidden)
    else if !LoadRound(w, g, c, r) then Refused(NotFound)
    else
      var amount := w.groups[g].settings.amount;
      if k in w.contributions
        then Accepted([PutContribution(k, w.contributions[k].(status := Waived, amount := amount), false)])
      else if !HasMember(w, m) then Refused(MissingReference)
      else Accepted([PutContribution(k, Contribution(g, amount, w.rounds[r].dueDate, None, Waived, None), false)])
  }

  /** Every active member's contribution to the round is paid, late or waived. */
  predicate AllCollected(w: World, r: int)
    requires HasRound(w, r)
  {
    var c := w.rounds[r].cycleId;
    HasCycle(w, c) &&
    forall m :: m in ActiveMembers(w, w.cycles[c].groupId) ==>
      Key(c, r, m) in w.contributions && w.contributions[Key(c, r, m)].status != Pending
  }

  /** A round with recipients completes once all of them are paid. */
  function AllPaidWrites(w: World, r: int, now: int, clock: nat -> nat): seq<Write>
    requires HasRound(w, r)
  {
    if PayoutsOf(w, r) != {} && AllDistributed(w, r) && w.rounds[r].status != RoundCompleted
    then CompleteRoundWrites(w, r, now, clock) else []
  }

  /** maybeAdvanceRoundStatus: a fully collected pending round starts collecting, or is done at once when it
      has no recipients. */
  function AdvanceWrites(w: World, r: int, now: int, clock: nat -> nat): seq<Write>
    requires HasRound(w, r)
  {
    if w.rounds[r].status == RoundPending && AllCollected(w, r) then
      if PayoutsOf(w, r) == {} then CompleteRoundWrites(w, r, now, clock)
      else
        var collecting := SetRoundStatus(r, Collecting);
        [collecting] + AllPaidWrites(Apply(w, collecting), r, now, clock)
    else AllPaidWrites(w, r, now, clock)
  }

  // ---- the service ----

  method UploadContributionProof(db: Database, g: int, c: int, r: int, m: int, user: int, role: Role, file: ProofFile)
    returns (error: Option<Error>)
    modifies db
    ensures Did(old(db.Snapshot()), UploadCall(old(db.Snapshot()), g, c, r, m, user, role, file), db.Snapshot(), error)
  {
    if !file.configured { return Some(StorageNotConfigured); }
    var k, asset := Key(c, r, m), file.asset;
    if !IsMemberSelf(db.Snapshot(), g, user, m) && !Privileged(role) { return Some(Forbidden); }
    if !LoadRound(db.Snapshot(), g, c, r) { return Some(NotFound); }
    if !file.supported { return Some(UnsupportedFile); }
    var amount := db.groups[g].settings.amount;
    var row;
    if k in db.contributions {
      row := db.contributions[k].(proof := Some(asset), amount := amount);
    } else {
      if !(0 <= m < |db.members|) { return Some(MissingReference); }
      row := Contribution(g, amount, db.rounds[r].dueDate, None, Pending, Some(asset));
    }
    ApplyOne(db.Snapshot(), PutContribution(k, row, false));
    db.contributions := db.contributions[k := row];
    error := None;
  }

  method RecordContribution(db: Database, g: int, c: int, r: int, m: int, role: Role, now: int, clock: nat -> nat)
    returns (error: Option<Error>)
    modifies db
    ensures Did(old(db.Snapshot()), RecordCall(old(db.Snapshot()), g, c, r, m, role, now, clock), db.Snapshot(), error)
  {
    var k := Key(c, r, m);
    if !Privileged(role) { return Some(Forbidden); }
    if !LoadRound(db.Snapshot(), g, c, r) { return Some(NotFound); }
    var amount := db.groups[g].settings.amount;
    var isLate := now > db.rounds[r].dueDate + db.groups[g].settings.graceDays * MS_PER_DAY;
    var status := if isLate then Late else Paid;
    ghost var before := db.Snapshot();
    ghost var x := RecordWrite(before, g, c, r, m, now);
    if k in db.contributions {
      var existing := db.contributions[k];
      if existing.status == Paid || existing.status == Late { return Some(AlreadyPaid); }
      db.contributions :=
        db.contributions[k := existing.(status := status, paidDate := Some(DateOf(now)), amount := amount)];
      if existing.status == Pending {
        db.rounds := db.rounds[r := db.rounds[r].(total := db.rounds[r].total + amount)];
      }
    } else {
      if !(0 <= m < |db.members|) { return Some(MissingReference); }
      db.contributions :=
        db.contributions[k := Contribution(g, amount, db.rounds[r].dueDate, Some(DateOf(now)), status, None)];
      db.rounds := db.rounds[r := db.rounds[r].(total := db.rounds[r].total + amount)];
    }
    assert db.Snapshot() == Apply(before, x);
    ApplyOne(before, x);
    ApplyAllConcat(before, [x], AdvanceWrites(db.Snapshot(), r, now, clock));
    MaybeAdvanceRoundStatus(db, r, now, clock);
    error := None;
  }

  method ApproveContribution(db: Database, g: int, c: int, r: int, m: int, role: Role, now: int, clock: nat -> nat)
    returns (error: Option<Error>)
    modifies db
    ensures Did(old(db.Snapshot()), ApproveCall(old(db.Snapshot()), g, c, r, m, role, now, clock), db.Snapshot(), error)
  {
    var k := Key(c, r, m);
    if !Privileged(role) { return Some(Forbidden); }
    if !LoadRound(db.Snapshot(), g, c, r) { return Some(NotFound); }
    if k !in db.contributions { return Some(NotFound); }
    var contribution := db.contributions[k];
    if contribution.status == Paid { return Some(AlreadyPaid); }
    var cutoff := db.rounds[r].dueDate + (db.groups[g].settings.graceDays + GRACE_BUFFER_DAYS) * MS_PER_DAY;
    var status := if now > cutoff then Late else Paid;
    ghost var before := db.Snapshot();
    ghost var x := ApproveWrite(before, g, r, k, now);
    db.contributions := db.contributions[k := contribution.(status := status, paidDate := Some(DateOf(now)))];
    db.rounds := db.rounds[r := db.rounds[r].(total := db.rounds[r].total + contribution.amount)];
    assert db.Snapshot() == Apply(before, x);
    ApplyOne(before, x);
    ApplyAllConcat(before, [x], AdvanceWrites(db.Snapshot(), r, now, clock));
    MaybeAdvanceRoundStatus(db, r, now, clock);
    error := None;
  }

  method RejectContribution(db: Database, g: int, c: int, r: int, m: int, role: Role) returns (error: Option<Error>)
    modifies db
    ensures Did(old(db.Snapshot()), RejectCall(old(db.Snapshot()), g, c, r, m, role), db.Snapshot(), error)
  {
    var k := Key(c, r, m);
    if !Privileged(role) { return Some(Forbidden); }
    if !LoadRound(db.Snapshot(), g, c, r) { return Some(NotFound); }
    if k !in db.contributions { return Some(NotFound); }
    ApplyOne(db.Snapshot(), PutContribution(k, db.contributions[k].(proof := None), false));
    db.contributions := db.contributions[k := db.contributions[k].(proof := None)];
    error := None;
  }

  method WaiveContribution(db: Database, g: int, c: int, r: int, m: int, role: Role) returns (error: Option<Error>)
    modifies db
    ensures Did(old(db.Snapshot()), WaiveCall(old(db.Snapshot()), g, c, r, m, role), db.Snapshot(), error)
  {
    var k := Key(c, r, m);
    if role != Owner { return Some(Forbidden); }
    if !LoadRound(db.Snapshot(), g, c, r) { return Some(NotFound); }
    var amount := db.groups[g].settings.amount;
    var row;
    if k in db.contributions {
      row := db.contributions[k].(status := Waived, amount := amount);
    } else {
      if !(0 <= m < |db.members|) { return Some(MissingReference); }
      row := Contribution(g, amount, db.rounds[r].dueDate, None, Waived, None);
    }
    ApplyOne(db.Snapshot(), PutContribution(k, row, false));
    db.contributions := db.contributions[k := row];
    error := None;
  }

  method MaybeAdvanceRoundStatus(db: Database, r: int, now: int, clock: nat -> nat)
    requires HasRound(db.Snapshot(), r)
    modifies db
    ensures db.Snapshot() == ApplyAll(old(db.Snapshot()), AdvanceWrites(old(db.Snapshot()), r, now, clock))
  {
    ghost var before := db.Snapshot();
    var round := db.rounds[r];
    var allCollected := AllCollected(db.Snapshot(), r);
    var payouts := PayoutsOf(db.Snapshot(), r);
    var allPayoutsPaid := payouts != {} && AllDistributed(db.Snapshot(), r);
    hide CompleteRoundWrites;
    if round.status == RoundPending && allCollected {
      if payouts == {} {
        CompleteRound(db, r, now, clock);
        return;
      }
      db.rounds := db.rounds[r := db.rounds[r].(status := Collecting)];
      ghost var collecting := SetRoundStatus(r, Collecting);
      ApplyOne(before, collecting);
      ApplyAllConcat(before, [collecting], AllPaidWrites(db.Snapshot(), r, now, clock));
      assert PayoutsOf(db.Snapshot(), r) == payouts;
    }
    assert AllDistributed(db.Snapshot(), r) == AllDistributed(before, r);
    if allPayoutsPaid && round.status != RoundCompleted {
      CompleteRound(db, r, now, clock);
    }
  }
}
