/** What joining, moving, leaving and configuring do, said of the tables alone. */
module GroupLaws {
  import opened Common
  import opened Tables
  import opened Cycles
  import opened Members
  import opened Groups
  import opened Contributions
  import opened Payouts
  import opened Backend
  import opened CycleLaws
  import LedgerLaw

  // ---- one row per user and group ----

  /** The unique constraint of the member table. */
  predicate OneRowEach(members: seq<GroupMember>) {
    forall m, o :: 0 <= m < o < |members| ==>
      !(members[m].groupId == members[o].groupId && members[m].userId == members[o].userId)
  }

  /** Calls that touch no member row keep them all. */
  lemma MemberRowsKept(w: World, ev: Event)
    requires !(ev.Join? || ev.Edit? || ev.Leave?)
    ensures Step(w, ev).members == w.members
  {
    if CallOf(w, ev).Accepted? {
      NoMemberWrites(w, ev);
      hide CallOf;
      WritesKeepMembers(w, CallOf(w, ev).writes);
    }
  }

  predicate NoMembers(xs: seq<Write>) {
    forall i :: 0 <= i < |xs| ==> !xs[i].InsertMember? && !xs[i].UpdateMember?
  }

  lemma {:induction false} WritesKeepMembers(w: World, xs: seq<Write>)
    requires NoMembers(xs)
    ensures ApplyAll(w, xs).members == w.members
  {
    if xs != [] { WritesKeepMembers(w, xs[..|xs| - 1]); }
  }

  lemma NoMemberWrites(w: World, ev: Event)
    requires CallOf(w, ev).Accepted? && !(ev.Join? || ev.Edit? || ev.Leave?)
    ensures NoMembers(CallOf(w, ev).writes)
  {
    hide NewPlan, Apply, RerollPlan, EarlierPaid, AdvanceWrites, CompleteRoundWrites, LedgerLaw.StatusOnly;
    var xs := CallOf(w, ev).writes;
    if ev.Record? || ev.Approve? || ev.PayOut? { RoundsStay(w, xs[0]); }
    if ev.Record? || ev.Approve? {
      LedgerLaw.AdvanceStatusOnly(Apply(w, xs[0]), ev.r, ev.now, ev.clock);
      FollowUps(xs);
    } else if ev.PayOut? {
      LedgerLaw.CompleteRoundStatusOnly(Apply(w, xs[0]), ev.r, ev.now, ev.clock);
      FollowUps(xs);
    }
  }

  lemma RoundsStay(w: World, x: Write)
    ensures |Apply(w, x).rounds| >= |w.rounds|
  {
  }

  lemma FollowUps(xs: seq<Write>)
    requires xs != [] && !xs[0].InsertMember? && !xs[0].UpdateMember? && LedgerLaw.StatusOnly(xs[1..])
    ensures NoMembers(xs)
  {
    forall i | 0 <= i < |xs| ensures !xs[i].InsertMember? && !xs[i].UpdateMember? {
      if i > 0 { assert xs[1..][i - 1] == xs[i]; }
    }
  }

  /** Over every run no user gets a second row in a group, and no row changes its group or its user. */
  lemma {:induction false} RunKeepsOneRowEach(w: World, evs: seq<Event>)
    requires OneRowEach(w.members)
    ensures OneRowEach(Run(w, evs).members) && SameHolders(w.members, Run(w, evs).members)
  {
    hide OneRowEach, Step;
    if evs != [] {
      RunKeepsOneRowEach(w, evs[..|evs| - 1]);
      StepKeepsOneRowEach(Run(w, evs[..|evs| - 1]), evs[|evs| - 1]);
    }
  }

  predicate SameHolders(a: seq<GroupMember>, b: seq<GroupMember>) {
    |a| <= |b| && forall m :: 0 <= m < |a| ==> b[m].groupId == a[m].groupId && b[m].userId == a[m].userId
  }

  lemma StepKeepsOneRowEach(w: World, ev: Event)
    requires OneRowEach(w.members)
    ensures OneRowEach(Step(w, ev).members) && SameHolders(w.members, Step(w, ev).members)
  {
    if ev.Join? {
      JoinKeepsOneRowEach(w, ev);
    } else if ev.Edit? {
      EditKeepsOneRowEach(w, ev);
    } else if ev.Leave? {
      LeaveKeepsOneRowEach(w, ev);
    } else {
      hide Step;
      MemberRowsKept(w, ev);
    }
  }

  lemma JoinKeepsOneRowEach(w: World, ev: Event)
    requires OneRowEach(w.members) && ev.Join?
    ensures OneRowEach(Step(w, ev).members) && SameHolders(w.members, Step(w, ev).members)
  {
    hide FindMember, MaxPosition, ActiveMembers;
    if CallOf(w, ev).Accepted? { ApplyOne(w, CallOf(w, ev).writes[0]); }
  }

  lemma EditKeepsOneRowEach(w: World, ev: Event)
    requires OneRowEach(w.members) && ev.Edit?
    ensures OneRowEach(Step(w, ev).members) && SameHolders(w.members, Step(w, ev).members)
  {
    hide FindOccupant;
    if CallOf(w, ev).Accepted? { EditEffect(w, ev); }
  }

  lemma LeaveKeepsOneRowEach(w: World, ev: Event)
    requires OneRowEach(w.members) && ev.Leave?
    ensures OneRowEach(Step(w, ev).members) && SameHolders(w.members, Step(w, ev).members)
  {
    hide FirstInProgress, PaidInCycle;
    if CallOf(w, ev).Accepted? { ApplyOne(w, CallOf(w, ev).writes[0]); }
  }

  // ---- joining ----

  /** m is the user's row in the group. */
  predicate IsRowOf(w: World, g: int, user: int, m: int) {
    0 <= m < |w.members| && w.members[m].groupId == g && w.members[m].userId == user
  }

  lemma FoundRow(w: World, g: int, user: int)
    requires OneRowEach(w.members)
    ensures forall m :: IsRowOf(w, g, user, m) <==> FindMember(w.members, g, user) == Some(m)
  {
    hide FindMember;
  }

  lemma JoinedAreActive(w: World, g: int)
    ensures Joined(w, g) == ActiveMembers(w, g)
  {
  }

  /** Joining is arranged by owners and treasurers while the group has room, for users not active in it. */
  lemma JoinVerdict(w: World, ev: Event)
    requires ev.Join? && OneRowEach(w.members)
    ensures CallOf(w, ev).Accepted? <==>
      && ev.role != Member && 0 <= ev.g < |w.groups| && |Joined(w, ev.g)| < w.groups[ev.g].settings.maxMembers
      && forall m :: IsRowOf(w, ev.g, ev.user, m) ==> w.members[m].status != ActiveMember
    ensures !CallOf(w, ev).Accepted? ==> CallOf(w, ev) == Refused(
      if ev.role == Member then Forbidden
      else if !(0 <= ev.g < |w.groups|) then NotFound
      else if |Joined(w, ev.g)| >= w.groups[ev.g].settings.maxMembers then GroupFull
      else AlreadyAMember)
  {
    hide FindMember, MaxPosition, OneRowEach, Joined, ActiveMembers;
    JoinedAreActive(w, ev.g);
    FoundRow(w, ev.g, ev.user);
  }

  /** One more than the highest position of the group's active members, or 1. */
  predicate NextPosition(w: World, g: int, p: int) {
    && p >= 1
    && (forall m :: m in Joined(w, g) && w.members[m].position.Some? ==> w.members[m].position.value < p)
    && (p == 1 || exists m :: m in Joined(w, g) && w.members[m].position == Some(p - 1))
  }

  lemma {:induction false} MaxPositionIs(members: seq<GroupMember>, g: int)
    ensures var p := MaxPosition(members, g);
      p == 0 || (p > 0 && exists m :: 0 <= m < |members| && members[m].groupId == g && members[m].status == ActiveMember
                                      && members[m].position == Some(p))
  {
    if members != [] {
      var front, p := members[..|members| - 1], MaxPosition(members, g);
      MaxPositionIs(front, g);
      if p != 0 && p == MaxPosition(front, g) {
        var m :| 0 <= m < |front| && front[m].groupId == g && front[m].status == ActiveMember
                 && front[m].position == Some(p);
        assert members[m].position == Some(p);
      }
    }
  }

  lemma {:induction false} MaxPositionAtLeast(members: seq<GroupMember>, g: int)
    ensures MaxPosition(members, g) >= 0
  {
    if members != [] { MaxPositionAtLeast(members[..|members| - 1], g); }
  }

  lemma NextPositionIs(w: World, g: int)
    ensures NextPosition(w, g, MaxPosition(w.members, g) + 1)
  {
    hide MaxPosition;
    MaxPositionBounds(w.members, g);
    MaxPositionIs(w.members, g);
    MaxPositionAtLeast(w.members, g);
  }

  function WithRow(members: seq<GroupMember>, m: int, row: GroupMember): seq<GroupMember>
    requires 0 <= m <= |members|
  {
    if m < |members| then members[m := row] else members + [row]
  }

  /** The row of a newcomer: active, in the wanted role or as a plain member, and at the wanted position or the next
      one. */
  predicate JoinedRow(w: World, ev: Event, row: GroupMember)
    requires ev.Join?
  {
    && row.groupId == ev.g && row.userId == ev.user && row.status == ActiveMember
    && row.role == (if ev.memberRole.Some? then ev.memberRole.value else Member)
    && row.position.Some?
    && (if ev.position.Some? then row.position == ev.position else NextPosition(w, ev.g, row.position.value))
  }

  /** A former member's row is taken back, anybody else gets a row behind all others. */
  lemma JoinEffect(w: World, ev: Event)
    requires ev.Join? && CallOf(w, ev).Accepted? && OneRowEach(w.members)
    ensures exists m, row ::
      && JoinedRow(w, ev, row)
      && 0 <= m <= |w.members| && Step(w, ev) == w.(members := WithRow(w.members, m, row))
      && (IsRowOf(w, ev.g, ev.user, m) || (m == |w.members| && forall o :: !IsRowOf(w, ev.g, ev.user, o)))
  {
    hide FindMember, MaxPosition, OneRowEach, Joined, ActiveMembers, NextPosition;
    FoundRow(w, ev.g, ev.user);
    NextPositionIs(w, ev.g);
    var x := CallOf(w, ev).writes[0];
    ApplyOne(w, x);
    var m := if x.UpdateMember? then x.id else |w.members|;
    assert JoinedRow(w, ev, x.member);
    assert 0 <= m <= |w.members| && Step(w, ev) == w.(members := WithRow(w.members, m, x.member));
  }

  // ---- editing ----

  lemma EditVerdict(w: World, ev: Event)
    requires ev.Edit?
    ensures var call, found := CallOf(w, ev), 0 <= ev.m < |w.members| && w.members[ev.m].groupId == ev.g;
      var demotes := found && w.members[ev.m].role == Owner && ev.newRole.Some? && ev.newRole != Some(Owner);
      && (call == Refused(Forbidden) <==> ev.role != Owner)
      && (call == Refused(NotFound) <==> ev.role == Owner && !found)
      && (call == Refused(CannotDemoteOwner) <==> ev.role == Owner && found && demotes)
      && (call.Accepted? <==> ev.role == Owner && found && !demotes)
  {
    hide FindOccupant;
  }

  /** Somebody else in the group holds the position. */
  predicate Holds(w: World, g: int, m: int, o: int, p: int) {
    0 <= o < |w.members| && o != m && w.members[o].groupId == g && w.members[o].position == Some(p)
  }

  predicate Moves(w: World, ev: Event)
    requires ev.Edit? && 0 <= ev.m < |w.members|
  {
    ev.position.Some? && ev.position != w.members[ev.m].position
  }

  /** The row gets the wanted role and position. When it moves to a position that somebody holds, one holder gets the
      position it leaves; every other row stays. */
  lemma EditEffect(w: World, ev: Event)
    requires ev.Edit? && CallOf(w, ev).Accepted?
    ensures 0 <= ev.m < |w.members|
    ensures var w', row := Step(w, ev), w.members[ev.m];
      && w' == w.(members := w'.members) && |w'.members| == |w.members|
      && w'.members[ev.m] == row.(role := if ev.newRole.Some? then ev.newRole.value else row.role,
                                  position := if ev.position.Some? then ev.position else row.position)
      && if Moves(w, ev) && exists o :: Holds(w, ev.g, ev.m, o, ev.position.value) then
           exists o :: Holds(w, ev.g, ev.m, o, ev.position.value) && OnlyMoved(w, w', ev.m, o, row.position)
         else
           forall o :: 0 <= o < |w.members| && o != ev.m ==> w'.members[o] == w.members[o]
  {
    hide FindOccupant;
    var xs := CallOf(w, ev).writes;
    if Moves(w, ev) {
      var occupant := FindOccupant(w.members, ev.g, ev.m, ev.position.value);
      MovesExchangePositions(w, ev.g, ev.m, ev.role, ev.newRole, ev.position.value);
      if occupant.Some? {
        assert Holds(w, ev.g, ev.m, occupant.value, ev.position.value);
        assert OnlyMoved(w, Step(w, ev), ev.m, occupant.value, w.members[ev.m].position);
      }
    } else {
      ApplyOne(w, xs[0]);
      assert xs == [xs[0]];
    }
  }

  /** Of the rows other than m only o changed, and only its position. */
  predicate OnlyMoved(w: World, w': World, m: int, o: int, position: Option<int>)
    requires |w'.members| == |w.members|
  {
    forall q :: 0 <= q < |w.members| && q != m ==>
      w'.members[q] == if q == o then w.members[q].(position := position) else w.members[q]
  }

  // ---- leaving ----

  /** The member holds a paid payout in a round of the cycle. */
  predicate WasPaid(w: World, c: int, m: int) {
    exists r :: 0 <= r < |w.rounds| && w.rounds[r].cycleId == c
                && PayoutKey(r, m) in w.payouts && w.payouts[PayoutKey(r, m)].paidAt.Some?
  }

  predicate Running(w: World, g: int, c: int) {
    0 <= c < |w.cycles| && w.cycles[c].groupId == g && w.cycles[c].status == InProgress
  }

  /** A running cycle of the group in which the member was not paid. */
  ghost predicate Held(w: World, g: int, m: int) {
    exists c :: Running(w, g, c) && !WasPaid(w, c, m)
  }

  lemma HeldIff(w: World, g: int, m: int)
    requires OnlyLastActive(w.cycles)
    ensures var running := FirstInProgress(w.cycles, g);
      Held(w, g, m) <==> running.Some? && !PaidInCycle(w, running.value, m)
  {
    hide FirstInProgress, WasPaid, PaidInCycle;
    var running := FirstInProgress(w.cycles, g);
    forall c | Running(w, g, c) ensures running == Some(c) && (WasPaid(w, c, m) <==> PaidInCycle(w, c, m)) {
      WasPaidIff(w, c, m);
    }
    assert running.Some? ==> Running(w, g, running.value);
  }

  /** Nobody leaves a running cycle unpaid, and the owner never leaves. */
  lemma LeaveVerdict(w: World, ev: Event)
    requires Valid(w) && ev.Leave?
    ensures var call, found := CallOf(w, ev), 0 <= ev.m < |w.members| && w.members[ev.m].groupId == ev.g;
      && (call == Refused(Forbidden) <==> ev.role != Owner)
      && (call == Refused(NotFound) <==> ev.role == Owner && !found)
      && (call == Refused(CannotRemoveOwner) <==> ev.role == Owner && found && w.members[ev.m].role == Owner)
      && (call == Refused(MemberHasActiveCycle) <==>
          ev.role == Owner && found && w.members[ev.m].role != Owner && Held(w, ev.g, ev.m))
      && (call.Accepted? <==>
          ev.role == Owner && found && w.members[ev.m].role != Owner && !Held(w, ev.g, ev.m))
  {
    hide Valid, FirstInProgress, PaidInCycle, Held;
    LastActive(w);
    HeldIff(w, ev.g, ev.m);
  }

  lemma LastActive(w: World)
    requires Valid(w)
    ensures OnlyLastActive(w.cycles)
  {
  }

  /** Whoever leaves only changes their status. */
  lemma LeaveEffect(w: World, ev: Event)
    requires ev.Leave? && CallOf(w, ev).Accepted?
    ensures 0 <= ev.m < |w.members|
    ensures Step(w, ev) == w.(members := w.members[ev.m := w.members[ev.m].(status := ExitedMember)])
  {
    hide FirstInProgress, PaidInCycle;
    ApplyOne(w, CallOf(w, ev).writes[0]);
  }

  lemma WasPaidIff(w: World, c: int, m: int)
    ensures WasPaid(w, c, m) <==> PaidInCycle(w, c, m)
  {
    if WasPaid(w, c, m) {
      var r :| 0 <= r < |w.rounds| && w.rounds[r].cycleId == c
               && PayoutKey(r, m) in w.payouts && w.payouts[PayoutKey(r, m)].paidAt.Some?;
      assert Distributed(w, PayoutKey(r, m));
    }
  }

  // ---- settings and suspension ----

  /** The patch names a field that is locked while a cycle is under way: the amount and the frequency at all, the
      number of members, the recipients and the method if they change. */
  predicate Locked(s: Settings, p: SettingsPatch) {
    || p.amount.Some? || p.frequency.Some?
    || (p.maxMembers.Some? && p.maxMembers != Some(s.maxMembers))
    || (p.recipients.Some? && p.recipients != Some(s.recipients))
    || (p.payoutMethod.Some? && p.payoutMethod != Some(s.payoutMethod))
  }

  /** The settings have the patch's value where it has one, and their old value elsewhere. */
  predicate TakenOver<T(==)>(patch: Option<T>, before: T, after: T) {
    (patch.Some? ==> after == patch.value) && (patch.None? ==> after == before)
  }

  lemma ConfigureLaw(w: World, ev: Event)
    requires ev.Configure?
    ensures var call, found := CallOf(w, ev), 0 <= ev.g < |w.groups|;
      var locked := found && Locked(w.groups[ev.g].settings, ev.patch)
        && exists c :: 0 <= c < |w.cycles| && w.cycles[c].groupId == ev.g && w.cycles[c].status != CycleCompleted;
      && (call == Refused(NotFound) <==> !found) && (call == Refused(SettingsLocked) <==> locked)
      && (call.Accepted? <==> found && !locked)
    ensures CallOf(w, ev).Accepted? ==>
      var s, p, w' := w.groups[ev.g].settings, ev.patch, Step(w, ev);
      && |w'.groups| == |w.groups|
      && w' == w.(groups := w.groups[ev.g := w.groups[ev.g].(settings := w'.groups[ev.g].settings)])
      && var s' := w'.groups[ev.g].settings;
         && TakenOver(p.maxMembers, s.maxMembers, s'.maxMembers) && TakenOver(p.amount, s.amount, s'.amount)
         && TakenOver(p.frequency, s.frequency, s'.frequency) && TakenOver(p.graceDays, s.graceDays, s'.graceDays)
         && TakenOver(p.recipients, s.recipients, s'.recipients)
         && TakenOver(p.payoutMethod, s.payoutMethod, s'.payoutMethod) && TakenOver(p.autoOpen, s.autoOpen, s'.autoOpen)
  {
    if CallOf(w, ev).Accepted? { ApplyOne(w, CallOf(w, ev).writes[0]); }
  }

  lemma SuspensionLaw(w: World, ev: Event)
    requires ev.Suspend? || ev.Reactivate?
    ensures var call, found := CallOf(w, ev), 0 <= ev.g < |w.groups|;
      var suspended := found && w.groups[ev.g].status == SuspendedGroup;
      && (call == Refused(NotFound) <==> !found)
      && (call == Refused(AlreadySuspended) <==> ev.Suspend? && suspended)
      && (call == Refused(NotSuspended) <==> ev.Reactivate? && found && !suspended)
      && (call.Accepted? <==> found && (suspended <==> ev.Reactivate?))
      && (call.Accepted? ==> Step(w, ev) == w.(groups := w.groups[ev.g :=
            w.groups[ev.g].(status := if ev.Suspend? then SuspendedGroup else ActiveGroup)]))
  {
    if CallOf(w, ev).Accepted? { ApplyOne(w, CallOf(w, ev).writes[0]); }
  }
}
