/** backend/src/modules/groups/groups.service.ts (settings and their lock) and the group suspension of
    backend/src/modules/admin/admin.service.ts. */
module Groups {
  import opened Common
  import opened Scheduler
  import opened Tables
  import opened Cycles

  datatype SettingsPatch = SettingsPatch(
    maxMembers: Option<nat>, amount: Option<nat>, frequency: Option<Frequency>, graceDays: Option<nat>,
    recipients: Option<nat>, payoutMethod: Option<PayoutMethod>, autoOpen: Option<bool>)

  function Or<T>(patch: Option<T>, current: T): T {
    if patch.Some? then patch.value else current
  }

  function Patched(s: Settings, p: SettingsPatch): Settings {
    Settings(Or(p.maxMembers, s.maxMembers), Or(p.amount, s.amount), Or(p.frequency, s.frequency),
             Or(p.graceDays, s.graceDays), Or(p.recipients, s.recipients),
             Or(p.payoutMethod, s.payoutMethod), Or(p.autoOpen, s.autoOpen))
  }

  /** The patch touches a field that an active cycle locks. Amount and frequency are locked even when the
      patch repeats the current value. */
  predicate TouchesLocked(s: Settings, p: SettingsPatch) {
    || (p.maxMembers.Some? && p.maxMembers.value != s.maxMembers)
    || p.amount.Some?
    || p.frequency.Some?
    || (p.recipients.Some? && p.recipients.value != s.recipients)
    || (p.payoutMethod.Some? && p.payoutMethod.value != s.payoutMethod)
  }

  function UpdateSettingsCall(w: World, g: int, p: SettingsPatch): Call {
    if !HasGroup(w, g) then Refused(NotFound)
    else if HasActiveCycle(w, g) && TouchesLocked(w.groups[g].settings, p) then Refused(SettingsLocked)
    else Accepted([UpdateSettings(g, Patched(w.groups[g].settings, p))])
  }

  function SuspendCall(w: World, g: int): Call {
    if !HasGroup(w, g) then Refused(NotFound)
    else if w.groups[g].status == SuspendedGroup then Refused(AlreadySuspended)
    else Accepted([SetGroupStatus(g, SuspendedGroup)])
  }

  function ReactivateCall(w: World, g: int): Call {
    if !HasGroup(w, g) then Refused(NotFound)
    else if w.groups[g].status != SuspendedGroup then Refused(NotSuspended)
    else Accepted([SetGroupStatus(g, ActiveGroup)])
  }

  method UpdateGroupSettings(db: Database, g: int, p: SettingsPatch) returns (error: Option<Error>)
    modifies db
    ensures Did(old(db.Snapshot()), UpdateSettingsCall(old(db.Snapshot()), g, p), db.Snapshot(), error)
  {
    if !(0 <= g < |db.groups|) { return Some(NotFound); }
    var existing := db.groups[g].settings;
    if HasActiveCycle(db.Snapshot(), g) {
      var locked: seq<string> := [];
      locked := locked + if p.maxMembers.Some? && p.maxMembers.value != existing.maxMembers then ["maxMembers"] else [];
      locked := locked + if p.amount.Some? then ["contributionAmountNgwe"] else [];
      locked := locked + if p.frequency.Some? then ["contributionFrequency"] else [];
      locked := locked
        + if p.recipients.Some? && p.recipients.value != existing.recipients then ["payoutRecipientsCount"] else [];
      locked := locked
        + if p.payoutMethod.Some? && p.payoutMethod.value != existing.payoutMethod then ["payoutMethod"] else [];
      if |locked| > 0 { return Some(SettingsLocked); }
    }
    var data := existing;
    data := data.(maxMembers := Or(p.maxMembers, data.maxMembers));
    data := data.(amount := Or(p.amount, data.amount));
    data := data.(frequency := Or(p.frequency, data.frequency));
    data := data.(graceDays := Or(p.graceDays, data.graceDays));
    data := data.(recipients := Or(p.recipients, data.recipients));
    data := data.(payoutMethod := Or(p.payoutMethod, data.payoutMethod));
    data := data.(autoOpen := Or(p.autoOpen, data.autoOpen));
    ApplyOne(db.Snapshot(), UpdateSettings(g, data));
    db.groups := db.groups[g := db.groups[g].(settings := data)];
    error := None;
  }

  method SuspendGroup(db: Database, g: int) returns (error: Option<Error>)
    modifies db
    ensures Did(old(db.Snapshot()), SuspendCall(old(db.Snapshot()), g), db.Snapshot(), error)
  {
    if !(0 <= g < |db.groups|) { return Some(NotFound); }
    if db.groups[g].status == SuspendedGroup { return Some(AlreadySuspended); }
    ApplyOne(db.Snapshot(), SetGroupStatus(g, SuspendedGroup));
    db.groups := db.groups[g := db.groups[g].(status := SuspendedGroup)];
    error := None;
  }

  method ReactivateGroup(db: Database, g: int) returns (error: Option<Error>)
    modifies db
    ensures Did(old(db.Snapshot()), ReactivateCall(old(db.Snapshot()), g), db.Snapshot(), error)
  {
    if !(0 <= g < |db.groups|) { return Some(NotFound); }
    if db.groups[g].status != SuspendedGroup { return Some(NotSuspended); }
    ApplyOne(db.Snapshot(), SetGroupStatus(g, ActiveGroup));
    db.groups := db.groups[g := db.groups[g].(status := ActiveGroup)];
    error := None;
  }
}
