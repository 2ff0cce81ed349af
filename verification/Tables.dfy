/** The tables of backend/prisma/schema.prisma that the money and rotation engine works on, and the
    writes (single statements or whole transactions) that its services issue against them. */
module Tables {
  import opened Common
  import opened Scheduler

  // ---- rows ----

  datatype Role = Owner | Treasurer | Member
  datatype MemberStatus = ActiveMember | SuspendedMember | ExitedMember
  datatype GroupStatus = ActiveGroup | SuspendedGroup | ClosedGroup
  datatype CycleStatus = Open | InProgress | CycleCompleted
  datatype RoundStatus = RoundPending | Collecting | PaidOut | RoundCompleted
  datatype ContributionStatus = Pending | Paid | Late | Waived

  /** The settings that the engine reads. */
  datatype Settings = Settings(
    maxMembers: nat, amount: nat, frequency: Frequency, graceDays: nat,
    recipients: nat, payoutMethod: PayoutMethod, autoOpen: bool)
  datatype Group = Group(status: GroupStatus, settings: Settings)
  datatype GroupMember = GroupMember(groupId: int, userId: int, role: Role, status: MemberStatus, position: Option<int>)
  datatype Cycle = Cycle(groupId: int, number: int, status: CycleStatus)
  datatype Round = Round(cycleId: int, number: int, dueDate: int, status: RoundStatus, total: int)
  datatype Key = Key(cycle: int, round: int, member: int)
  datatype Contribution = Contribution(
    groupId: int, amount: int, dueDate: int, paidDate: Option<int>, status: ContributionStatus, proof: Option<int>)
  datatype PayoutKey = PayoutKey(round: int, member: int)
  datatype Payout = Payout(amount: int, paidAt: Option<int>)

  /** One snapshot of the database. Rows that are never deleted sit in a sequence, their index being their
      id; contributions and payouts are keyed by their unique constraints. */
  datatype World = World(
    groups: seq<Group>, members: seq<GroupMember>, cycles: seq<Cycle>, rounds: seq<Round>,
    contributions: map<Key, Contribution>, payouts: map<PayoutKey, Payout>)

  datatype Error =
    | Forbidden | NotFound | MissingReference
    | AlreadyPaid
    | GroupNotActive | NoMembers | InsufficientMembers | CycleAlreadyActive | CycleNotOpen
    | StorageNotConfigured | UnsupportedFile
    | PayoutsDisabled | NoRecipients | AlreadyDistributed | NotManual | NotRandom
    | WrongCount | DuplicateRecipient | InvalidMember | AlreadyReceived
    | GroupFull | AlreadyAMember | CannotDemoteOwner | CannotRemoveOwner | MemberHasActiveCycle
    | SettingsLocked | AlreadySuspended | NotSuspended

  // ---- lookups ----

  predicate HasGroup(w: World, g: int) { 0 <= g < |w.groups| }
  predicate HasMember(w: World, m: int) { 0 <= m < |w.members| }
  predicate HasCycle(w: World, c: int) { 0 <= c < |w.cycles| }
  predicate HasRound(w: World, r: int) { 0 <= r < |w.rounds| }

  predicate Active(w: World, c: int) {
    HasCycle(w, c) && w.cycles[c].status != CycleCompleted
  }

  predicate IsActiveMember(w: World, g: int, m: int) {
    HasMember(w, m) && w.members[m].groupId == g && w.members[m].status == ActiveMember
  }

  function ActiveMembers(w: World, g: int): set<int> {
    set m | 0 <= m < |w.members| && IsActiveMember(w, g, m)
  }

  function PayoutsOf(w: World, r: int): set<PayoutKey> {
    set p | p in w.payouts && p.round == r
  }

  predicate Distributed(w: World, p: PayoutKey) {
    p in w.payouts && w.payouts[p].paidAt.Some?
  }

  predicate AnyDistributed(w: World, r: int) {
    exists p :: p in PayoutsOf(w, r) && Distributed(w, p)
  }

  predicate AllDistributed(w: World, r: int) {
    forall p :: p in PayoutsOf(w, r) ==> Distributed(w, p)
  }

  predicate Dated(w: World, k: Key) {
    k in w.contributions && w.contributions[k].paidDate.Some?
  }

  /** A timestamp as a DATE column keeps it. */
  function DateOf(t: int): int {
    t - t % MS_PER_DAY
  }

  // ---- writes ----

  datatype Write =
    | PutContribution(key: Key, row: Contribution, credited: bool)
    | MarkLate(keys: set<Key>)
    | SetRoundStatus(round: int, roundStatus: RoundStatus)
    | SetCycleStatus(cycle: int, cycleStatus: CycleStatus)
    | InsertCycle(group: int, number: int, plan: seq<GeneratedRound>)
    | PayRecipients(round: int, amount: int, at: int -> int)
    | ReplaceRecipients(round: int, members: seq<int>)
    | InsertMember(member: GroupMember)
    | UpdateMember(id: int, member: GroupMember)
    | UpdateSettings(group: int, settings: Settings)
    | SetGroupStatus(group: int, groupStatus: GroupStatus)

  /** What a service call does: the writes it issues, in order, or the error it throws before any of them. */
  datatype Call = Accepted(writes: seq<Write>) | Refused(error: Error)

  function PlanRounds(cycle: int, plan: seq<GeneratedRound>): (rs: seq<Round>)
    ensures |rs| == |plan|
  {
    seq(|plan|, i requires 0 <= i < |plan| =>
        Round(cycle, plan[i].roundNumber, DateOf(plan[i].dueDate), RoundPending, 0))
  }

  function PlanKeys(base: int, plan: seq<GeneratedRound>): set<PayoutKey> {
    set i, m | 0 <= i < |plan| && m in plan[i].recipients :: PayoutKey(base + i, m)
  }

  function MarkedLate(rows: map<Key, Contribution>, keys: set<Key>): map<Key, Contribution> {
    map k | k in rows :: if k in keys then rows[k].(status := Late) else rows[k]
  }

  function UnpaidRows(keys: set<PayoutKey>): map<PayoutKey, Payout> {
    map p | p in keys :: Payout(0, None)
  }

  /** The database after one write. A write that names a missing row changes nothing. */
  function Apply(w: World, x: Write): World {
    match x
    case PutContribution(k, row, credited) =>
      if !HasRound(w, k.round) then w else
        w.(contributions := w.contributions[k := row],
           rounds := if !credited then w.rounds else
                     w.rounds[k.round := w.rounds[k.round].(total := w.rounds[k.round].total + row.amount)])
    case MarkLate(keys) =>
      w.(contributions := MarkedLate(w.contributions, keys))
    case SetRoundStatus(r, s) =>
      if !HasRound(w, r) then w else w.(rounds := w.rounds[r := w.rounds[r].(status := s)])
    case SetCycleStatus(c, s) =>
      if !HasCycle(w, c) then w else w.(cycles := w.cycles[c := w.cycles[c].(status := s)])
    case InsertCycle(g, number, plan) =>
      w.(cycles := w.cycles + [Cycle(g, number, Open)],
         rounds := w.rounds + PlanRounds(|w.cycles|, plan),
         payouts := w.payouts + UnpaidRows(PlanKeys(|w.rounds|, plan)))
    case PayRecipients(r, amount, at) =>
      w.(payouts := map p | p in w.payouts :: if p.round == r then Payout(amount, Some(at(p.member))) else w.payouts[p])
    case ReplaceRecipients(r, ms) =>
      w.(payouts := (map p | p in w.payouts && p.round != r :: w.payouts[p]) + UnpaidRows(RecipientKeys(r, ms)))
    case InsertMember(row) => w.(members := w.members + [row])
    case UpdateMember(m, row) => if !HasMember(w, m) then w else w.(members := w.members[m := row])
    case UpdateSettings(g, s) => if !HasGroup(w, g) then w else w.(groups := w.groups[g := w.groups[g].(settings := s)])
    case SetGroupStatus(g, s) => if !HasGroup(w, g) then w else w.(groups := w.groups[g := w.groups[g].(status := s)])
  }

  function RecipientKeys(r: int, ms: seq<int>): set<PayoutKey> {
    set m | m in ms :: PayoutKey(r, m)
  }

  function ApplyAll(w: World, xs: seq<Write>): World {
    if xs == [] then w else Apply(ApplyAll(w, xs[..|xs| - 1]), xs[|xs| - 1])
  }

  function Outcome(w: World, call: Call): World {
    match call
    case Accepted(xs) => ApplyAll(w, xs)
    case Refused(_) => w
  }

  lemma {:induction false} ApplyAllConcat(w: World, xs: seq<Write>, ys: seq<Write>)
    ensures ApplyAll(w, xs + ys) == ApplyAll(ApplyAll(w, xs), ys)
  {
    if ys == [] {
      assert xs + ys == xs;
    } else {
      ApplyAllConcat(w, xs, ys[..|ys| - 1]);
      assert (xs + ys)[..|xs + ys| - 1] == xs + ys[..|ys| - 1];
    }
  }

  lemma ApplyOne(w: World, x: Write)
    ensures ApplyAll(w, [x]) == Apply(w, x)
  {
    assert ApplyAll(w, [x][..0]) == w;
  }

  /** The live database: the tables as fields that the services reassign. */
  class Database {
    var groups: seq<Group>
    var members: seq<GroupMember>
    var cycles: seq<Cycle>
    var rounds: seq<Round>
    var contributions: map<Key, Contribution>
    var payouts: map<PayoutKey, Payout>

    function Snapshot(): World
      reads this
    {
      World(groups, members, cycles, rounds, contributions, payouts)
    }
  }

  /** A service method did what its specification says: the tables moved by exactly the call's writes,
      and the error is the call's. */
  ghost predicate Did(before: World, call: Call, after: World, error: Option<Error>) {
    && after == Outcome(before, call)
    && error == match call { case Accepted(_) => None case Refused(e) => Some(e) }
  }
}
