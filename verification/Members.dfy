/** backend/src/modules/groups/members.service.ts: adding, updating and removing group members. */
module Members {
  import opened Common
  import opened Tables
  import opened Contributions

  // ---- specification ----

  /** The member row of a user in a group, unique by (groupId, userId). */
  function FindMember(members: seq<GroupMember>, g: int, user: int): (r: Option<int>)
    ensures r.Some? ==> 0 <= r.value < |members| && members[r.value].groupId == g && members[r.value].userId == user
    ensures r.None? ==> forall m :: 0 <= m < |members| ==> !(members[m].groupId == g && members[m].userId == user)
  {
    if members == [] then None else
      var n := |members| - 1;
      if members[n].groupId == g && members[n].userId == user then Some(n) else FindMember(members[..n], g, user)
  }

  function MaxPosition(members: seq<GroupMember>, g: int): int {
    if members == [] then 0 else
      var rest, m := MaxPosition(members[..|members| - 1], g), members[|members| - 1];
      if m.groupId == g && m.status == ActiveMember && m.position.Some? && m.position.value > rest
        then m.position.value
        else rest
  }

  function AddMemberCall(w: World, g: int, role: Role, user: int, memberRole: Option<Role>,
                         position: Option<int>): Call {
    if !Privileged(role) then Refused(Forbidden)
    else if !HasGroup(w, g) then Refused(NotFound)
    else if |ActiveMembers(w, g)| >= w.groups[g].settings.maxMembers then Refused(GroupFull)
    else
      var duplicate := FindMember(w.members, g, user);
      var newRole := if memberRole.Some? then memberRole.value else Member;
      var place := if position.Some? then position else Some(MaxPosition(w.members, g) + 1);
      if duplicate.Some? then
        if w.members[duplicate.value].status == ActiveMember then Refused(AlreadyAMember)
        else
          var row := w.members[duplicate.value].(role := newRole, position := place, status := ActiveMember);
          Accepted([UpdateMember(duplicate.value, row)])
      else Accepted([InsertMember(GroupMember(g, user, newRole, ActiveMember, place))])
  }

  /** A member other than m who holds the position in the group, exited members included. */
  function FindOccupant(members: seq<GroupMember>, g: int, m: int, position: int): (r: Option<int>)
    ensures r.Some? ==> 0 <= r.value < |members| && r.value != m
    ensures r.Some? ==> members[r.value].groupId == g && members[r.value].position == Some(position)
    ensures r.None? ==> forall o :: 0 <= o < |members| && o != m && members[o].groupId == g ==>
      members[o].position != Some(position)
  {
    if members == [] then None else
      var n := |members| - 1;
      var earlier := FindOccupant(members[..n], g, m, position);
      if earlier.Some? then earlier
      else if n != m && members[n].groupId == g && members[n].position == Some(position) then Some(n) else None
  }

  function UpdateMemberCall(w: World, g: int, m: int, role: Role, newRole: Option<Role>, position: Option<int>): Call {
    if role != Owner then Refused(Forbidden)
    else if !HasMember(w, m) || w.members[m].groupId != g then Refused(NotFound)
    else if w.members[m].role == Owner && newRole.Some? && newRole.value != Owner then Refused(CannotDemoteOwner)
    else
      var row := if newRole.Some? then w.members[m].(role := newRole.value) else w.members[m];
      if position.Some? && position != w.members[m].position then
        var occupant := FindOccupant(w.members, g, m, position.value);
        var moved := UpdateMember(m, row.(position := position));
        if occupant.Some? then
          var vacated := UpdateMember(occupant.value, w.members[occupant.value].(position := w.members[m].position));
          Accepted([vacated, moved])
        else Accepted([moved])
      else Accepted([UpdateMember(m, row)])
  }

  function FirstInProgress(cycles: seq<Cycle>, g: int): (r: Option<int>)
    ensures r.Some? ==> 0 <= r.value < |cycles| && cycles[r.value].groupId == g && cycles[r.value].status == InProgress
    ensures r.None? ==> forall c :: 0 <= c < |cycles| ==> !(cycles[c].groupId == g && cycles[c].status == InProgress)
  {
    if cycles == [] then None else
      var n := |cycles| - 1;
      var earlier := FirstInProgress(cycles[..n], g);
      if earlier.Some? then earlier
      else if cycles[n].groupId == g && cycles[n].status == InProgress then Some(n) else None
  }

  /** The member holds a paid payout in some round of the cycle. */
  predicate PaidInCycle(w: World, c: int, m: int) {
    exists r :: 0 <= r < |w.rounds| && w.rounds[r].cycleId == c && Distributed(w, PayoutKey(r, m))
  }

  function RemoveMemberCall(w: World, g: int, m: int, role: Role): Call {
    if role != Owner then Refused(Forbidden)
    else if !HasMember(w, m) || w.members[m].groupId != g then Refused(NotFound)
    else if w.members[m].role == Owner then Refused(CannotRemoveOwner)
    else
      var running := FirstInProgress(w.cycles, g);
      if running.Some? && !PaidInCycle(w, running.value, m) then Refused(MemberHasActiveCycle)
      else Accepted([UpdateMember(m, w.members[m].(status := ExitedMember))])
  }

  // ---- the service ----

  method AddMember(db: Database, g: int, role: Role, user: int, memberRole: Option<Role>, position: Option<int>)
    returns (error: Option<Error>)
    modifies db
    ensures Did(old(db.Snapshot()), AddMemberCall(old(db.Snapshot()), g, role, user, memberRole, position),
                db.Snapshot(), error)
  {
    if !Privileged(role) { return Some(Forbidden); }
    if !(0 <= g < |db.groups|) { return Some(NotFound); }
    if |ActiveMembers(db.Snapshot(), g)| >= db.groups[g].settings.maxMembers { return Some(GroupFull); }
    var duplicate := FindMember(db.members, g, user);
    if duplicate.Some? && db.members[duplicate.value].status == ActiveMember { return Some(AlreadyAMember); }
    var place := position;
    if place.None? { place := Some(MaxPosition(db.members, g) + 1); }
    var newRole := if memberRole.Some? then memberRole.value else Member;
    ghost var before := db.Snapshot();
    if duplicate.Some? {
      var row := db.members[duplicate.value].(role := newRole, position := place, status := ActiveMember);
      ApplyOne(before, UpdateMember(duplicate.value, row));
      db.members := db.members[duplicate.value := row];
    } else {
      ApplyOne(before, InsertMember(GroupMember(g, user, newRole, ActiveMember, place)));
      db.members := db.members + [GroupMember(g, user, newRole, ActiveMember, place)];
    }
    error := None;
  }

  method UpdateMemberRow(db: Database, g: int, m: int, role: Role, newRole: Option<Role>, position: Option<int>)
    returns (error: Option<Error>)
    modifies db
    ensures Did(old(db.Snapshot()), UpdateMemberCall(old(db.Snapshot()), g, m, role, newRole, position), db.Snapshot(),
                error)
  {
    hide FindOccupant;
    if role != Owner { return Some(Forbidden); }
    if !(0 <= m < |db.members|) || db.members[m].groupId != g { return Some(NotFound); }
    var member := db.members[m];
    if member.role == Owner && newRole.Some? && newRole.value != Owner { return Some(CannotDemoteOwner); }
    var row := if newRole.Some? then member.(role := newRole.value) else member;
    ghost var before := db.Snapshot();
    if position.Some? && position != member.position {
      row := row.(position := position);
      var occupant := FindOccupant(db.members, g, m, position.value);
      if occupant.Some? {
        var o := occupant.value;
        ghost var vacate := UpdateMember(o, db.members[o].(position := member.position));
        ApplyOne(before, vacate);
        db.members := db.members[o := db.members[o].(position := member.position)];
        ApplyAllConcat(before, [vacate], [UpdateMember(m, row)]);
        assert [vacate] + [UpdateMember(m, row)] == [vacate, UpdateMember(m, row)];
      }
    }
    ApplyOne(db.Snapshot(), UpdateMember(m, row));
    db.members := db.members[m := row];
    error := None;
  }

  method RemoveMember(db: Database, g: int, m: int, role: Role) returns (error: Option<Error>)
    modifies db
    ensures Did(old(db.Snapshot()), RemoveMemberCall(old(db.Snapshot()), g, m, role), db.Snapshot(), error)
  {
    if role != Owner { return Some(Forbidden); }
    if !(0 <= m < |db.members|) || db.members[m].groupId != g { return Some(NotFound); }
    if db.members[m].role == Owner { return Some(CannotRemoveOwner); }
    var activeCycle := FirstInProgress(db.cycles, g);
    if activeCycle.Some? {
      if !PaidInCycle(db.Snapshot(), activeCycle.value, m) { return Some(MemberHasActiveCycle); }
    }
    ApplyOne(db.Snapshot(), UpdateMember(m, db.members[m].(status := ExitedMember)));
    db.members := db.members[m := db.members[m].(status := ExitedMember)];
    error := None;
  }

  // ---- payout positions ----

  lemma {:induction false} MaxPositionBounds(members: seq<GroupMember>, g: int)
    ensures forall m | 0 <= m < |members| && members[m].groupId == g && members[m].status == ActiveMember ::
      members[m].position.Some? ==>
      members[m].position.value <= MaxPosition(members, g)
  {
    if members != [] {
      var n := |members| - 1;
      MaxPositionBounds(members[..n], g);
      assert forall m :: 0 <= m < n ==> members[m] == members[..n][m];
    }
  }

  /** The row of a user who was just added or taken back, and what its position is worth: it comes after every
      other active member's. */
  predicate JoinedLast(w: World, g: int, user: int, m: int) {
    && IsActiveMember(w, g, m) && w.members[m].userId == user && w.members[m].position.Some?
    && forall o :: 0 <= o < |w.members| && o != m && IsActiveMember(w, g, o) && w.members[o].position.Some? ==>
         w.members[o].position.value < w.members[m].position.value
  }

  /** Without an explicit position a new or returning member queues up behind all active members. */
  lemma NewcomersQueueLast(w: World, g: int, role: Role, user: int, memberRole: Option<Role>)
    requires AddMemberCall(w, g, role, user, memberRole, None).Accepted?
    ensures exists m :: JoinedLast(Outcome(w, AddMemberCall(w, g, role, user, memberRole, None)), g, user, m)
  {
    var call := AddMemberCall(w, g, role, user, memberRole, None);
    var w', duplicate := Outcome(w, call), FindMember(w.members, g, user);
    MaxPositionBounds(w.members, g);
    ApplyOne(w, call.writes[0]);
    hide FindMember, MaxPosition;
    if duplicate.Some? {
      assert JoinedLast(w', g, user, duplicate.value);
    } else {
      assert JoinedLast(w', g, user, |w.members|);
    }
  }

  /** Moving a member to a position exchanges positions with the row that holds it, if there is one, and touches
      nobody else's row, group, user or status. */
  lemma MovesExchangePositions(w: World, g: int, m: int, role: Role, newRole: Option<Role>, p: int)
    requires UpdateMemberCall(w, g, m, role, newRole, Some(p)).Accepted?
    ensures HasMember(w, m)
    ensures var w' := Outcome(w, UpdateMemberCall(w, g, m, role, newRole, Some(p)));
      var occupant := FindOccupant(w.members, g, m, p);
      && w' == w.(members := w'.members) && |w'.members| == |w.members| && w'.members[m].position == Some(p)
      && (forall o :: 0 <= o < |w.members| && o != m ==>
            w'.members[o] == if w.members[m].position != Some(p) && occupant == Some(o)
                             then w.members[o].(position := w.members[m].position)
                             else w.members[o])
      && w'.members[m] ==
        w.members[m].(position := Some(p), role := if newRole.Some? then newRole.value else w.members[m].role)
  {
    var xs := UpdateMemberCall(w, g, m, role, newRole, Some(p)).writes;
    if |xs| == 2 {
      ApplyOne(w, xs[0]);
      ApplyOne(Apply(w, xs[0]), xs[1]);
      ApplyAllConcat(w, [xs[0]], [xs[1]]);
      assert xs == [xs[0]] + [xs[1]];
    } else {
      ApplyOne(w, xs[0]);
      assert xs == [xs[0]];
    }
  }
}
