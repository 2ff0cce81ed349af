/** backend/src/modules/auth/otp.service.ts, with the rule of its callers in auth.service.ts: every code but the
    first one at signup is requested through the resend limit. */
module Otp {
  import opened Common

  const OTP_TTL_MS: int := 10 * 60 * 1000
  const LOCKOUT_MS: int := 15 * 60 * 1000
  const MAX_ATTEMPTS: nat := 5
  const RESEND_WINDOW_MS: int := 30 * 60 * 1000
  const MAX_RESENDS: nat := 3

  datatype Purpose = SignupCode | PasswordReset
  datatype Otp = Otp(
    user: int, purpose: Purpose, code: int, createdAt: int, expiresAt: int, attempts: nat, lockedUntil: Option<int>,
    used: bool)

  /** The history of verifications: wrong guesses charged to a code, and codes redeemed, with what was guessed. */
  datatype Entry = Wrong(row: int, at: int, guess: int) | Redeemed(row: int, at: int, guess: int)

  datatype State = State(users: set<int>, otps: seq<Otp>, log: seq<Entry>, clock: int)

  datatype OtpError = OtpExpired | OtpLocked | IncorrectCode | TooManyRequests

  // ---- specification ----

  function Invalidated(otps: seq<Otp>, user: int, purpose: Purpose): (r: seq<Otp>)
    ensures |r| == |otps|
  {
    seq(|otps|, i requires 0 <= i < |otps| =>
      if otps[i].user == user && otps[i].purpose == purpose then otps[i].(used := true) else otps[i])
  }

  function WithCode(otps: seq<Otp>, user: int, purpose: Purpose, code: int, now: int): seq<Otp> {
    Invalidated(otps, user, purpose) + [Otp(user, purpose, code, now, now + OTP_TTL_MS, 0, None, false)]
  }

  /** The user's codes created in the interval. */
  function CodesIn(otps: seq<Otp>, user: int, from: int, to: int): set<int> {
    set i | 0 <= i < |otps| && otps[i].user == user && from <= otps[i].createdAt <= to
  }

  function CodesSince(otps: seq<Otp>, user: int, since: int): set<int> {
    set i | 0 <= i < |otps| && otps[i].user == user && otps[i].createdAt >= since
  }

  predicate ResendAllowed(otps: seq<Otp>, user: int, now: int) {
    |CodesSince(otps, user, now - RESEND_WINDOW_MS)| < MAX_RESENDS
  }

  predicate Live(o: Otp, user: int, purpose: Purpose) {
    o.user == user && o.purpose == purpose && !o.used
  }

  /** The newest unused code of the user for the purpose. */
  function Current(otps: seq<Otp>, user: int, purpose: Purpose): (r: Option<int>)
    ensures r.Some? ==> 0 <= r.value < |otps| && Live(otps[r.value], user, purpose)
    ensures forall i :: 0 <= i < |otps| && Live(otps[i], user, purpose) ==>
      r.Some? && otps[i].createdAt <= otps[r.value].createdAt
  {
    if otps == [] then None else
      var n := |otps| - 1;
      var best := Current(otps[..n], user, purpose);
      if Live(otps[n], user, purpose) && (best.None? || otps[n].createdAt >= otps[best.value].createdAt)
        then Some(n)
        else best
  }

  datatype Check = NoCode | LockedOut | Stale | WrongCode(row: int) | Correct(row: int)

  function CheckCode(otps: seq<Otp>, user: int, purpose: Purpose, code: int, now: int): Check {
    var current := Current(otps, user, purpose);
    if current.None? then NoCode
    else
      var o := otps[current.value];
      if o.lockedUntil.Some? && o.lockedUntil.value > now then LockedOut
      else if o.expiresAt < now then Stale
      else if o.code != code then WrongCode(current.value)
      else Correct(current.value)
  }

  function Charged(o: Otp, now: int): Otp {
    var lock := o.attempts + 1 >= MAX_ATTEMPTS;
    o.(attempts := o.attempts + 1, lockedUntil := if lock then Some(now + LOCKOUT_MS) else None, used := lock)
  }

  datatype Event =
    | Register(user: int, now: int)
    | Signup(user: int, code: int, now: int)
    | Resend(user: int, purpose: Purpose, code: int, now: int)
    | Verify(user: int, purpose: Purpose, code: int, now: int)

  /** Register stands for users who come into being without a code: those invited into a group. */
  function Step(s: State, ev: Event): State {
    match ev
    case Register(u, now) => s.(users := s.users + {u}, clock := now)
    case Signup(u, code, now) =>
      if u in s.users then s.(clock := now)
      else State(s.users + {u}, WithCode(s.otps, u, SignupCode, code, now), s.log, now)
    case Resend(u, purpose, code, now) =>
      if u !in s.users || !ResendAllowed(s.otps, u, now) then s.(clock := now)
      else s.(otps := WithCode(s.otps, u, purpose, code, now), clock := now)
    case Verify(u, purpose, code, now) =>
      match CheckCode(s.otps, u, purpose, code, now)
      case WrongCode(r) =>
        s.(otps := s.otps[r := Charged(s.otps[r], now)], log := s.log + [Wrong(r, now, code)], clock := now)
      case Correct(r) =>
        s.(otps := s.otps[r := s.otps[r].(used := true)], log := s.log + [Redeemed(r, now, code)], clock := now)
      case _ => s.(clock := now)
  }

  function Run(s: State, evs: seq<Event>): State {
    if evs == [] then s else Step(Run(s, evs[..|evs| - 1]), evs[|evs| - 1])
  }

  /** The clock never runs backwards. */
  ghost predicate InOrder(s: State, evs: seq<Event>) {
    evs == [] || (InOrder(s, evs[..|evs| - 1]) && Run(s, evs[..|evs| - 1]).clock <= evs[|evs| - 1].now)
  }

  const INITIAL := State({}, [], [], 0)

  // ---- the service ----

  class OtpService {
    var otps: seq<Otp>
    ghost var log: seq<Entry>

    method CreateOtp(user: int, purpose: Purpose, code: int, now: int)
      modifies this`otps
      ensures otps == WithCode(old(otps), user, purpose, code, now)
    {
      for i := 0 to |otps|
        modifies this`otps
        invariant |otps| == |old(otps)|
        invariant forall j :: 0 <= j < i ==> otps[j] == Invalidated(old(otps), user, purpose)[j]
        invariant forall j :: i <= j < |otps| ==> otps[j] == old(otps)[j]
      {
        if otps[i].user == user && otps[i].purpose == purpose && !otps[i].used {
          otps := otps[i := otps[i].(used := true)];
        }
      }
      assert otps == Invalidated(old(otps), user, purpose);
      otps := otps + [Otp(user, purpose, code, now, now + OTP_TTL_MS, 0, None, false)];
    }

    method AssertResendAllowed(user: int, now: int) returns (error: Option<OtpError>)
      ensures error == if ResendAllowed(otps, user, now) then None else Some(TooManyRequests)
    {
      var since := now - RESEND_WINDOW_MS;
      var recent := 0;
      ghost var found: set<int> := {};
      for i := 0 to |otps|
        invariant found == set j | 0 <= j < i && otps[j].user == user && otps[j].createdAt >= since
        invariant recent == |found|
      {
        if otps[i].user == user && otps[i].createdAt >= since {
          recent := recent + 1;
          found := found + {i};
        }
      }
      assert found == CodesSince(otps, user, since);
      error := if recent >= MAX_RESENDS then Some(TooManyRequests) else None;
    }

    method VerifyOtp(user: int, purpose: Purpose, code: int, now: int) returns (error: Option<OtpError>)
      modifies this
      ensures forall users, clock ::
        State(users, otps, log, now) == Step(State(users, old(otps), old(log), clock), Verify(user, purpose, code, now))
      ensures error == match CheckCode(old(otps), user, purpose, code, now)
                       case NoCode => Some(OtpExpired)
                       case LockedOut => Some(OtpLocked)
                       case Stale => Some(OtpExpired)
                       case WrongCode(r) =>
                         if old(otps)[r].attempts + 1 >= MAX_ATTEMPTS then Some(OtpLocked) else Some(IncorrectCode)
                       case Correct(_) => None
      ensures |log| == |old(log)| ==> error == Some(OtpExpired) || error == Some(OtpLocked)
      ensures |log| > |old(log)| ==>
        var entry := log[|old(log)|];
        && 0 <= entry.row < |otps|
        && (entry.Redeemed? ==> error == None)
        && (entry.Wrong? ==> error == if otps[entry.row].used then Some(OtpLocked) else Some(IncorrectCode))
    {
      var found := Current(otps, user, purpose);
      if found.None? { return Some(OtpExpired); }
      var otp := otps[found.value];
      if otp.lockedUntil.Some? && otp.lockedUntil.value > now { return Some(OtpLocked); }
      if otp.expiresAt < now { return Some(OtpExpired); }
      if otp.code != code {
        var attempts := otp.attempts + 1;
        var shouldLock := attempts >= MAX_ATTEMPTS;
        var lockedUntil := if shouldLock then Some(now + LOCKOUT_MS) else None;
        otps := otps[found.value := otp.(attempts := attempts, lockedUntil := lockedUntil, used := shouldLock)];
        log := log + [Wrong(found.value, now, code)];
        return if shouldLock then Some(OtpLocked) else Some(IncorrectCode);
      }
      otps := otps[found.value := otp.(used := true)];
      log := log + [Redeemed(found.value, now, code)];
      error := None;
    }
  }

  // ---- the invariant ----

  /** The earlier codes of the same user within the resend window before code j. */
  function Shortly(otps: seq<Otp>, j: int): set<int>
    requires 0 <= j < |otps|
  {
    set i | 0 <= i < j && otps[i].user == otps[j].user && otps[i].createdAt >= otps[j].createdAt - RESEND_WINDOW_MS
  }

  ghost predicate Spaced(s: State) {
    && (forall i, j :: 0 <= i < j < |s.otps| ==> s.otps[i].createdAt <= s.otps[j].createdAt)
    && (forall j :: 0 <= j < |s.otps| ==>
        s.otps[j].createdAt <= s.clock && s.otps[j].user in s.users && |Shortly(s.otps, j)| < MAX_RESENDS)
  }

  predicate RowSound(o: Otp) {
    && o.expiresAt == o.createdAt + OTP_TTL_MS
    && o.attempts <= MAX_ATTEMPTS && (!o.used ==> o.attempts < MAX_ATTEMPTS)
    && (o.lockedUntil.Some? ==> o.used)
  }

  ghost predicate OneLive(otps: seq<Otp>) {
    forall i, j :: 0 <= i < j < |otps| && otps[i].user == otps[j].user && otps[i].purpose == otps[j].purpose ==>
      otps[i].used
  }

  function WrongsOf(log: seq<Entry>, row: int): set<int> {
    set e | 0 <= e < |log| && log[e].Wrong? && log[e].row == row
  }

  function RedemptionsOf(log: seq<Entry>, row: int): set<int> {
    set e | 0 <= e < |log| && log[e].Redeemed? && log[e].row == row
  }

  predicate InLifetime(otps: seq<Otp>, entry: Entry) {
    0 <= entry.row < |otps| && otps[entry.row].createdAt <= entry.at <= otps[entry.row].expiresAt
  }

  /** Every logged attempt fell into the lifetime of its code; attempts are counted exactly, and only used codes
      were redeemed, once. */
  ghost predicate LogSound(s: State) {
    && (forall e :: 0 <= e < |s.log| ==> InLifetime(s.otps, s.log[e]))
    && (forall r :: 0 <= r < |s.otps| ==>
         (|WrongsOf(s.log, r)| == s.otps[r].attempts && |RedemptionsOf(s.log, r)| <= if s.otps[r].used then 1 else 0))
  }

  /** No attempt on a code comes after its successor for the same purpose was created. */
  predicate BeforeSuccessors(otps: seq<Otp>, entry: Entry) {
    var i := entry.row;
    forall j :: 0 <= i < j < |otps| && otps[j].user == otps[i].user && otps[j].purpose == otps[i].purpose ==>
      entry.at <= otps[j].createdAt
  }

  ghost predicate Timely(s: State) {
    forall e :: 0 <= e < |s.log| ==> s.log[e].at <= s.clock && BeforeSuccessors(s.otps, s.log[e])
  }

  /** What was redeemed was the code, and what was charged was not. */
  predicate Truthful(otps: seq<Otp>, entry: Entry) {
    0 <= entry.row < |otps| && (entry.Redeemed? <==> entry.guess == otps[entry.row].code)
  }

  ghost predicate LogTruthful(s: State) {
    forall e :: 0 <= e < |s.log| ==> Truthful(s.otps, s.log[e])
  }

  ghost predicate Inv(s: State) {
    && Spaced(s) && OneLive(s.otps) && LogSound(s) && Timely(s) && LogTruthful(s)
    && forall i :: 0 <= i < |s.otps| ==> RowSound(s.otps[i])
  }

  /** What a verification may change in the rows: neither owner nor purpose nor times, and used only upwards. */
  ghost predicate SameCodes(a: seq<Otp>, b: seq<Otp>) {
    |a| == |b| && forall i :: 0 <= i < |a| ==>
      a[i].user == b[i].user && a[i].purpose == b[i].purpose && a[i].createdAt == b[i].createdAt
        && a[i].expiresAt == b[i].expiresAt && a[i].code == b[i].code
      && (a[i].used ==> b[i].used)
  }

  lemma ShortlySame(a: seq<Otp>, b: seq<Otp>, j: int)
    requires |a| <= |b| && 0 <= j < |a|
    requires forall i :: 0 <= i < |a| ==> a[i].user == b[i].user && a[i].createdAt == b[i].createdAt
    ensures Shortly(a, j) == Shortly(b, j)
  {
  }

  lemma CreateKeepsInv(s: State, users: set<int>, user: int, purpose: Purpose, code: int, now: int)
    requires Inv(s) && s.clock <= now && s.users <= users && user in users && ResendAllowed(s.otps, user, now)
    ensures Inv(State(users, WithCode(s.otps, user, purpose, code, now), s.log, now))
  {
    hide Spaced, LogSound, ResendAllowed, Timely, LogTruthful;
    CreateKeepsTruth(s, users, user, purpose, code, now);
    CreateKeepsSpacing(s, users, user, purpose, code, now);
    CreateKeepsLog(s, users, user, purpose, code, now);
    CreateKeepsTimes(s, users, user, purpose, code, now);
  }

  lemma CreateKeepsTruth(s: State, users: set<int>, user: int, purpose: Purpose, code: int, now: int)
    requires LogTruthful(s)
    ensures LogTruthful(State(users, WithCode(s.otps, user, purpose, code, now), s.log, now))
  {
    forall e | 0 <= e < |s.log| ensures Truthful(WithCode(s.otps, user, purpose, code, now), s.log[e]) {
      assert Truthful(s.otps, s.log[e]);
    }
  }

  lemma VerifyKeepsTruth(s: State, r: int, o: Otp, entry: Entry)
    requires LogTruthful(s) && 0 <= r < |s.otps| && o.code == s.otps[r].code && entry.row == r
    requires entry.Redeemed? <==> entry.guess == s.otps[r].code
    ensures LogTruthful(State(s.users, s.otps[r := o], s.log + [entry], entry.at))
  {
    var log := s.log + [entry];
    forall e | 0 <= e < |log| ensures Truthful(s.otps[r := o], log[e]) {
      if e < |s.log| { assert Truthful(s.otps, s.log[e]); }
    }
  }

  lemma CreateKeepsTimes(s: State, users: set<int>, user: int, purpose: Purpose, code: int, now: int)
    requires LogSound(s) && Timely(s) && s.clock <= now
    ensures Timely(State(users, WithCode(s.otps, user, purpose, code, now), s.log, now))
  {
    hide WrongsOf, RedemptionsOf;
    var s' := State(users, WithCode(s.otps, user, purpose, code, now), s.log, now);
    forall e | 0 <= e < |s.log| ensures BeforeSuccessors(s'.otps, s.log[e]) {
      assert InLifetime(s.otps, s.log[e]) && BeforeSuccessors(s.otps, s.log[e]);
    }
  }

  lemma CreateKeepsLog(s: State, users: set<int>, user: int, purpose: Purpose, code: int, now: int)
    requires LogSound(s)
    ensures LogSound(State(users, WithCode(s.otps, user, purpose, code, now), s.log, now))
  {
    var n := |s.otps|;
    assert WrongsOf(s.log, n) == {} && RedemptionsOf(s.log, n) == {} by {
      assert forall e :: 0 <= e < |s.log| ==> InLifetime(s.otps, s.log[e]);
    }
    hide WrongsOf, RedemptionsOf;
  }

  lemma CreateKeepsSpacing(s: State, users: set<int>, user: int, purpose: Purpose, code: int, now: int)
    requires Spaced(s) && s.clock <= now && s.users <= users && user in users && ResendAllowed(s.otps, user, now)
    ensures Spaced(State(users, WithCode(s.otps, user, purpose, code, now), s.log, now))
  {
    var otps, n := WithCode(s.otps, user, purpose, code, now), |s.otps|;
    assert Shortly(otps, n) == CodesSince(s.otps, user, now - RESEND_WINDOW_MS);
    forall j | 0 <= j < n ensures Shortly(otps, j) == Shortly(s.otps, j) { ShortlySame(s.otps, otps, j); }
    hide Shortly, CodesSince;
  }

  /** A verification changes one live code and logs it. */
  lemma VerifyKeepsInv(s: State, r: int, o: Otp, entry: Entry)
    requires Inv(s) && 0 <= r < |s.otps| && !s.otps[r].used && RowSound(o) && SameCodes(s.otps, s.otps[r := o])
    requires entry.row == r && s.clock <= entry.at <= s.otps[r].expiresAt
    requires entry.Wrong? ==> o.attempts == s.otps[r].attempts + 1
    requires entry.Redeemed? ==> o.attempts == s.otps[r].attempts && o.used
    requires entry.Redeemed? <==> entry.guess == s.otps[r].code
    ensures Inv(State(s.users, s.otps[r := o], s.log + [entry], entry.at))
  {
    hide Timely, WrongsOf, RedemptionsOf, LogTruthful;
    var s' := State(s.users, s.otps[r := o], s.log + [entry], entry.at);
    VerifyKeepsTruth(s, r, o, entry);
    VerifyKeepsTimes(s, r, o, entry);
    forall j | 0 <= j < |s.otps| ensures Shortly(s'.otps, j) == Shortly(s.otps, j) { ShortlySame(s.otps, s'.otps, j); }
    forall q | 0 <= q < |s.otps|
      ensures |WrongsOf(s'.log, q)| == s'.otps[q].attempts
      ensures |RedemptionsOf(s'.log, q)| <= if s'.otps[q].used then 1 else 0
    {
      LogGrows(s.log, entry, q);
    }
  }

  lemma VerifyKeepsTimes(s: State, r: int, o: Otp, entry: Entry)
    requires Inv(s) && 0 <= r < |s.otps| && !s.otps[r].used && SameCodes(s.otps, s.otps[r := o])
    requires entry.row == r && s.clock <= entry.at
    ensures Timely(State(s.users, s.otps[r := o], s.log + [entry], entry.at))
  {
    hide Spaced, LogSound, RowSound;
    var otps, log := s.otps[r := o], s.log + [entry];
    forall e | 0 <= e < |log| ensures log[e].at <= entry.at && BeforeSuccessors(otps, log[e]) {
      if e < |s.log| { assert BeforeSuccessors(s.otps, s.log[e]); }
    }
  }

  lemma LogGrows(log: seq<Entry>, entry: Entry, q: int)
    ensures |WrongsOf(log + [entry], q)| == |WrongsOf(log, q)| + if entry.Wrong? && entry.row == q then 1 else 0
    ensures |RedemptionsOf(log + [entry], q)|
            == |RedemptionsOf(log, q)| + if entry.Redeemed? && entry.row == q then 1 else 0
  {
    var n, longer := |log|, log + [entry];
    if entry.row != q {
      assert WrongsOf(longer, q) == WrongsOf(log, q);
      assert RedemptionsOf(longer, q) == RedemptionsOf(log, q);
    } else if entry.Wrong? {
      assert WrongsOf(longer, q) == WrongsOf(log, q) + {n};
      assert RedemptionsOf(longer, q) == RedemptionsOf(log, q);
    } else {
      assert WrongsOf(longer, q) == WrongsOf(log, q);
      assert RedemptionsOf(longer, q) == RedemptionsOf(log, q) + {n};
    }
  }

  lemma StepKeepsInv(s: State, ev: Event)
    requires Inv(s) && s.clock <= ev.now
    ensures Inv(Step(s, ev)) && Step(s, ev).clock == ev.now
  {
    match ev
    case Register(_, _) =>
    case Signup(u, code, now) =>
      if u !in s.users {
        assert CodesSince(s.otps, u, now - RESEND_WINDOW_MS) == {};
        hide Inv, WithCode;
        CreateKeepsInv(s, s.users + {u}, u, SignupCode, code, now);
      }
    case Resend(u, purpose, code, now) =>
      hide ResendAllowed, WithCode, Shortly;
      if u in s.users && ResendAllowed(s.otps, u, now) { CreateKeepsInv(s, s.users, u, purpose, code, now); }
    case Verify(u, purpose, code, now) => GuessKeepsInv(s, ev);
  }

  lemma GuessKeepsInv(s: State, ev: Event)
    requires Inv(s) && s.clock <= ev.now && ev.Verify?
    ensures Inv(Step(s, ev))
  {
    hide Shortly, WrongsOf, RedemptionsOf;
    var check := CheckCode(s.otps, ev.user, ev.purpose, ev.code, ev.now);
    if check.WrongCode? {
      VerifyKeepsInv(s, check.row, Charged(s.otps[check.row], ev.now), Wrong(check.row, ev.now, ev.code));
    }
    if check.Correct? {
      VerifyKeepsInv(s, check.row, s.otps[check.row].(used := true), Redeemed(check.row, ev.now, ev.code));
    }
  }

  lemma InitialInv()
    ensures Inv(INITIAL)
  {
  }

  lemma {:induction false} RunKeepsInv(evs: seq<Event>)
    requires InOrder(INITIAL, evs)
    ensures Inv(Run(INITIAL, evs))
  {
    hide Inv, Step;
    if evs != [] {
      RunKeepsInv(evs[..|evs| - 1]);
      StepKeepsInv(Run(INITIAL, evs[..|evs| - 1]), evs[|evs| - 1]);
    } else {
      InitialInv();
    }
  }

  // ---- the calls, in rows and numbers ----

  /** Row i is an unused code of the user for the purpose. */
  predicate Unused(s: State, user: int, purpose: Purpose, i: int) {
    0 <= i < |s.otps| && s.otps[i].user == user && s.otps[i].purpose == purpose && !s.otps[i].used
  }

  /** A verification succeeds if and only if the user's unused code for the purpose exists, has not expired and is
      what was guessed; the code is used up by it. */
  lemma VerifiedIff(s: State, ev: Event)
    requires Inv(s) && ev.Verify?
    ensures (exists e: Entry :: e.Redeemed? && Step(s, ev).log == s.log + [e]) <==>
      exists i :: Unused(s, ev.user, ev.purpose, i) && ev.now <= s.otps[i].expiresAt && s.otps[i].code == ev.code
    ensures forall i ::
      Unused(s, ev.user, ev.purpose, i) && ev.now <= s.otps[i].expiresAt && s.otps[i].code == ev.code ==>
      Step(s, ev)
      == State(s.users, s.otps[i := s.otps[i].(used := true)], s.log + [Redeemed(i, ev.now, ev.code)], ev.now)
  {
    Verification(s, ev);
    forall i | Unused(s, ev.user, ev.purpose, i) && ev.now <= s.otps[i].expiresAt && s.otps[i].code == ev.code
      ensures Step(s, ev).log == s.log + [Redeemed(i, ev.now, ev.code)]
    {
    }
    if e: Entry :| e.Redeemed? && Step(s, ev).log == s.log + [e] {
      assert Step(s, ev).log[|s.log|] == e;
    }
  }

  /** The row after its n-th wrong guess: the fifth locks it for 15 minutes and uses it up. */
  predicate Missed(before: Otp, after: Otp, now: int) {
    && after == before.(attempts := before.attempts + 1, lockedUntil := after.lockedUntil, used := after.used)
    && (after.used <==> before.attempts + 1 == 5)
    && after.lockedUntil == if before.attempts + 1 == 5 then Some(now + 900_000) else None
  }

  /** What a verification does: nothing without an unused code or after its ten minutes, and otherwise it redeems the
      code or charges a wrong guess to it. */
  lemma Verification(s: State, ev: Event)
    requires Inv(s) && ev.Verify?
    ensures (forall i :: !Unused(s, ev.user, ev.purpose, i)) ==> Step(s, ev) == s.(clock := ev.now)
    ensures forall i :: Unused(s, ev.user, ev.purpose, i) ==>
      var s' := Step(s, ev);
      && s'.users == s.users && s'.clock == ev.now && s.otps[i].expiresAt == s.otps[i].createdAt + 600_000
      && if ev.now > s.otps[i].expiresAt then s'.otps == s.otps && s'.log == s.log
         else if ev.code == s.otps[i].code then
           s'.otps == s.otps[i := s.otps[i].(used := true)] && s'.log == s.log + [Redeemed(i, ev.now, ev.code)]
         else
           |s'.otps| == |s.otps| && s'.otps == s.otps[i := s'.otps[i]] && Missed(s.otps[i], s'.otps[i], ev.now)
           && s'.log == s.log + [Wrong(i, ev.now, ev.code)]
  {
    hide Current, Inv;
    CurrentIs(s, ev.user, ev.purpose);
  }

  lemma CurrentIs(s: State, user: int, purpose: Purpose)
    requires Inv(s)
    ensures forall i :: Unused(s, user, purpose, i) <==> Current(s.otps, user, purpose) == Some(i)
    ensures forall i :: Unused(s, user, purpose, i) ==> RowSound(s.otps[i])
  {
    hide Current, Spaced, LogSound, Timely, LogTruthful;
    var current := Current(s.otps, user, purpose);
    forall i | Unused(s, user, purpose, i) ensures current == Some(i) && RowSound(s.otps[i]) {
      assert Live(s.otps[i], user, purpose);
      OneUnusedCode(s, i, current.value);
    }
  }

  /** Over every run the guess of each redemption is the code of its row, and that of each charged guess is not. */
  lemma GuessesTellTheCode(evs: seq<Event>, e: int)
    requires InOrder(INITIAL, evs) && 0 <= e < |Run(INITIAL, evs).log|
    ensures var s := Run(INITIAL, evs);
      0 <= s.log[e].row < |s.otps| && (s.log[e].Redeemed? <==> s.log[e].guess == s.otps[s.log[e].row].code)
  {
    RunKeepsInv(evs);
    assert LogTruthful(Run(INITIAL, evs));
    hide Inv, Run;
    assert Truthful(Run(INITIAL, evs).otps, Run(INITIAL, evs).log[e]);
  }

  /** The codes after a new one for the user and purpose: the others of that kind are used, the new one is open for
      ten minutes. */
  predicate CodeAdded(before: seq<Otp>, after: seq<Otp>, user: int, purpose: Purpose, code: int, now: int) {
    && |after| == |before| + 1
    && after[|before|] == Otp(user, purpose, code, now, now + 600_000, 0, None, false)
    && forall i :: 0 <= i < |before| ==>
         after[i] ==
           if before[i].user == user && before[i].purpose == purpose then before[i].(used := true) else before[i]
  }

  /** A known user gets a new code if and only if fewer than three were created in the last 30 minutes; at signup an
      unknown one always does. */
  lemma CodeSentIff(s: State, ev: Event)
    requires ev.Resend? || ev.Signup?
    ensures var s' := Step(s, ev);
      var recent := set i | 0 <= i < |s.otps| && s.otps[i].user == ev.user && s.otps[i].createdAt >= ev.now - 1_800_000;
      var sent := if ev.Signup? then ev.user !in s.users else ev.user in s.users && |recent| < 3;
      && s'.log == s.log && s'.clock == ev.now && s'.users == (if ev.Signup? then s.users + {ev.user} else s.users)
      && (!sent ==> s'.otps == s.otps)
      && (sent ==> CodeAdded(s.otps, s'.otps, ev.user, if ev.Signup? then SignupCode else ev.purpose, ev.code, ev.now))
  {
    var recent := set i | 0 <= i < |s.otps| && s.otps[i].user == ev.user && s.otps[i].createdAt >= ev.now - 1_800_000;
    assert recent == CodesSince(s.otps, ev.user, ev.now - RESEND_WINDOW_MS);
  }

  // ---- the promises ----

  /** Any interval of 30 minutes holds at most three codes of a user. */
  lemma ThreeCodesPerWindow(s: State, user: int, from: int, to: int)
    requires Inv(s) && to <= from + RESEND_WINDOW_MS
    ensures |CodesIn(s.otps, user, from, to)| <= MAX_RESENDS
  {
    hide LogSound, OneLive, RowSound, Timely;
    var codes := CodesIn(s.otps, user, from, to);
    if codes != {} {
      var j := Newest(codes);
      assert |Shortly(s.otps, j)| < MAX_RESENDS;
      OthersShortlyBefore(s, user, from, to, j);
      hide CodesIn, Shortly;
      SubsetCardinality(codes - {j}, Shortly(s.otps, j));
    }
  }

  lemma OthersShortlyBefore(s: State, user: int, from: int, to: int, j: int)
    requires Spaced(s) && to <= from + RESEND_WINDOW_MS && j in CodesIn(s.otps, user, from, to)
    requires forall i :: i in CodesIn(s.otps, user, from, to) ==> i <= j
    ensures CodesIn(s.otps, user, from, to) - {j} <= Shortly(s.otps, j)
  {
  }

  lemma {:induction false} Newest(s: set<int>) returns (m: int)
    requires s != {}
    ensures m in s && forall x :: x in s ==> x <= m
    decreases |s|
  {
    m := SomeElement(s);
    var rest := s - {m};
    assert s == rest + {m};
    if rest != {} {
      var n := Newest(rest);
      if n > m { m := n; }
    }
  }

  /** The wrong guesses that were charged to the user's codes in the interval. */
  function GuessesIn(s: State, user: int, from: int, to: int): set<int> {
    set e | 0 <= e < |s.log| && s.log[e].Wrong? && from <= s.log[e].at <= to
      && 0 <= s.log[e].row < |s.otps| && s.otps[s.log[e].row].user == user
  }

  function RowOf(s: State): int -> int {
    e => if 0 <= e < |s.log| then s.log[e].row else -1
  }

  /** Codes from before the interval that were still guessed at in it. */
  ghost function LeftOver(s: State, user: int, purpose: Purpose, from: int): set<int> {
    set i | 0 <= i < |s.otps| && s.otps[i].user == user && s.otps[i].purpose == purpose && s.otps[i].createdAt < from
            && GuessedSince(s, i, from)
  }

  ghost predicate GuessedSince(s: State, i: int, from: int) {
    exists e :: 0 <= e < |s.log| && s.log[e].row == i && s.log[e].at >= from
  }

  /** For each purpose only the newest of them: the others had a successor by then. */
  lemma OneLeftOver(s: State, user: int, purpose: Purpose, from: int)
    requires Timely(s)
    ensures |LeftOver(s, user, purpose, from)| <= 1
  {
    var codes := LeftOver(s, user, purpose, from);
    forall i, j | i in codes && j in codes ensures i == j {
      var d :| 0 <= d < |s.log| && s.log[d].row == i && s.log[d].at >= from;
      var e :| 0 <= e < |s.log| && s.log[e].row == j && s.log[e].at >= from;
      assert BeforeSuccessors(s.otps, s.log[d]) && BeforeSuccessors(s.otps, s.log[e]);
    }
    AtMostOne(codes);
  }

  lemma AtMostOne<T>(s: set<T>)
    requires forall x, y :: x in s && y in s ==> x == y
    ensures |s| <= 1
  {
    if s != {} {
      var x :| x in s;
      assert s == {x};
    }
  }

  ghost function GuessedCodes(s: State, user: int, from: int, to: int): set<int> {
    CodesIn(s.otps, user, from, to) + LeftOver(s, user, SignupCode, from) + LeftOver(s, user, PasswordReset, from)
  }

  /** The wrong guesses of 30 minutes fall on the three codes of that time and on one left over for each purpose,
      with five attempts each. */
  lemma TwentyFiveGuessesPerWindow(s: State, user: int, from: int, to: int)
    requires Inv(s) && to <= from + RESEND_WINDOW_MS
    ensures |GuessesIn(s, user, from, to)| <= 25
  {
    var guesses, codes := GuessesIn(s, user, from, to), GuessedCodes(s, user, from, to);
    FiveCodes(s, user, from, to);
    GuessesOnCodes(s, user, from, to);
    hide Inv, GuessesIn, GuessedCodes;
    forall r | r in codes ensures |ClassOf(guesses, RowOf(s), r)| <= MAX_ATTEMPTS { FiveGuesses(s, user, from, to, r); }
    ClassesBound(guesses, RowOf(s), codes, MAX_ATTEMPTS);
  }

  lemma FiveCodes(s: State, user: int, from: int, to: int)
    requires Inv(s) && to <= from + RESEND_WINDOW_MS
    ensures |GuessedCodes(s, user, from, to)| <= 5
  {
    hide Spaced, OneLive, LogSound, RowSound, Timely, CodesIn, LeftOver;
    var recent := CodesIn(s.otps, user, from, to);
    var a, b := LeftOver(s, user, SignupCode, from), LeftOver(s, user, PasswordReset, from);
    ThreeCodesPerWindow(s, user, from, to);
    OneLeftOver(s, user, SignupCode, from);
    OneLeftOver(s, user, PasswordReset, from);
    assert |recent + a| <= |recent| + |a| && |(recent + a) + b| <= |recent + a| + |b|;
  }

  lemma GuessesOnCodes(s: State, user: int, from: int, to: int)
    requires Inv(s)
    ensures forall e :: e in GuessesIn(s, user, from, to) ==> RowOf(s)(e) in GuessedCodes(s, user, from, to)
  {
    forall e | e in GuessesIn(s, user, from, to) ensures RowOf(s)(e) in GuessedCodes(s, user, from, to) {
      var r := s.log[e].row;
      assert InLifetime(s.otps, s.log[e]);
      if s.otps[r].createdAt < from {
        assert GuessedSince(s, r, from);
        assert r in LeftOver(s, user, s.otps[r].purpose, from);
      }
    }
  }

  lemma FiveGuesses(s: State, user: int, from: int, to: int, r: int)
    requires Inv(s) && r in GuessedCodes(s, user, from, to)
    ensures |ClassOf(GuessesIn(s, user, from, to), RowOf(s), r)| <= MAX_ATTEMPTS
  {
    assert 0 <= r < |s.otps|;
    assert RowSound(s.otps[r]) && |WrongsOf(s.log, r)| == s.otps[r].attempts;
    hide Inv, RowSound;
    SubsetCardinality(ClassOf(GuessesIn(s, user, from, to), RowOf(s), r), WrongsOf(s.log, r));
  }

  lemma OneUnusedCode(s: State, i: int, j: int)
    requires Inv(s) && 0 <= i < |s.otps| && 0 <= j < |s.otps|
    requires Live(s.otps[i], s.otps[j].user, s.otps[j].purpose) && !s.otps[j].used
    ensures i == j
  {
  }

  /** The rate limits, over every run and every window of 30 minutes, not only those that end now: at most three
      codes are sent to a user and at most 25 wrong guesses are charged. */
  lemma RateLimits(evs: seq<Event>, user: int, from: int, to: int)
    requires InOrder(INITIAL, evs) && to <= from + RESEND_WINDOW_MS
    ensures |CodesIn(Run(INITIAL, evs).otps, user, from, to)| <= 3
    ensures |GuessesIn(Run(INITIAL, evs), user, from, to)| <= 25
  {
    RunKeepsInv(evs);
    hide Inv;
    ThreeCodesPerWindow(Run(INITIAL, evs), user, from, to);
    TwentyFiveGuessesPerWindow(Run(INITIAL, evs), user, from, to);
  }

  /** After every run a user has at most one unused code per purpose, and no lookup ever ends at the lock check:
      a locked code is a used code, and used codes are not looked up. */
  lemma OneCodeAtATime(evs: seq<Event>, user: int, purpose: Purpose, code: int, now: int)
    requires InOrder(INITIAL, evs)
    ensures var otps := Run(INITIAL, evs).otps;
      && (forall i, j ::
          0 <= i < |otps| && 0 <= j < |otps| && Live(otps[i], user, purpose) && Live(otps[j], user, purpose) ==> i == j)
      && CheckCode(otps, user, purpose, code, now) != LockedOut
  {
    RunKeepsInv(evs);
    var s := Run(INITIAL, evs);
    LockCheckNeverDecides(s, user, purpose, code, now);
    forall i, j |
      0 <= i < |s.otps| && 0 <= j < |s.otps| && Live(s.otps[i], user, purpose) && Live(s.otps[j], user, purpose)
      ensures i == j
    {
      OneUnusedCode(s, i, j);
    }
  }

  /** A code is redeemed at most once, whatever is tried, and within ten minutes of its creation. */
  lemma RedeemedOnce(evs: seq<Event>, d: int, e: int)
    requires InOrder(INITIAL, evs)
    requires 0 <= d < |Run(INITIAL, evs).log| && 0 <= e < |Run(INITIAL, evs).log|
    requires var log := Run(INITIAL, evs).log; log[d].Redeemed? && log[e].Redeemed? && log[d].row == log[e].row
    ensures d == e
    ensures var s := Run(INITIAL, evs);
      0 <= s.log[d].row < |s.otps| && s.log[d].at <= s.otps[s.log[d].row].createdAt + OTP_TTL_MS
  {
    RunKeepsInv(evs);
    var s := Run(INITIAL, evs);
    var r := s.log[d].row;
    assert RowSound(s.otps[r]);
    SubsetCardinality({d, e}, RedemptionsOf(s.log, r));
  }

  lemma LockCheckNeverDecides(s: State, user: int, purpose: Purpose, code: int, now: int)
    requires Inv(s)
    ensures CheckCode(s.otps, user, purpose, code, now) != LockedOut
  {
    var current := Current(s.otps, user, purpose);
    if current.Some? { assert RowSound(s.otps[current.value]); }
  }

  /** The guess is wrong and the last one the code allows. */
  predicate LocksCode(otps: seq<Otp>, ev: Event)
    requires ev.Verify?
  {
    var check := CheckCode(otps, ev.user, ev.purpose, ev.code, ev.now);
    check.WrongCode? && otps[check.row].attempts == MAX_ATTEMPTS - 1
  }

  /** The lockout of 15 minutes is not enforced by time: after the guess that locks a code, a code requested at
      the very same moment is accepted, if and only if the resend limit allows the request. */
  lemma LockoutEndsWithNextCode(s: State, ev: Event, code: int)
    requires Inv(s) && s.clock <= ev.now && ev.Verify? && ev.user in s.users
    requires LocksCode(s.otps, ev)
    ensures var s' := Run(s, [ev, Resend(ev.user, ev.purpose, code, ev.now)]);
      CheckCode(s'.otps, ev.user, ev.purpose, code, ev.now).Correct? <==> ResendAllowed(s.otps, ev.user, ev.now)
  {
    var resend := Resend(ev.user, ev.purpose, code, ev.now);
    var s1 := Step(s, ev);
    TwoSteps(s, ev, resend);
    LockIsNoRequest(s, ev);
    StepKeepsInv(s, ev);
    StepKeepsInv(s1, resend);
    LockLeavesNoCode(s, ev);
    hide Inv, Spaced, LogSound, ResendAllowed;
    if ResendAllowed(s.otps, ev.user, ev.now) { FreshCodeIsCorrect(s1, ev.user, ev.purpose, code, ev.now); }
  }

  /** The guess that locks the code leaves no code to guess at. */
  lemma LockLeavesNoCode(s: State, ev: Event)
    requires Inv(s) && ev.Verify?
    requires LocksCode(s.otps, ev)
    ensures Current(Step(s, ev).otps, ev.user, ev.purpose) == None
  {
    assert OneLive(s.otps);
    hide Inv;
    var r := CheckCode(s.otps, ev.user, ev.purpose, ev.code, ev.now).row;
    forall i | 0 <= i < |s.otps| ensures !Live(Step(s, ev).otps[i], ev.user, ev.purpose) {
      assert Live(s.otps[r], ev.user, ev.purpose);
    }
  }

  lemma TwoSteps(s: State, a: Event, b: Event)
    ensures Run(s, [a, b]) == Step(Step(s, a), b)
  {
    assert [a, b][..1] == [a] && [a][..0] == [];
    assert Run(s, []) == s;
    assert Run(s, [a]) == Step(s, a);
  }

  /** A wrong guess uses up no request: the codes created so far are the same. */
  lemma LockIsNoRequest(s: State, ev: Event)
    requires ev.Verify?
    ensures Step(s, ev).users == s.users
      && (ResendAllowed(Step(s, ev).otps, ev.user, ev.now) <==> ResendAllowed(s.otps, ev.user, ev.now))
  {
    assert CodesSince(Step(s, ev).otps, ev.user, ev.now - RESEND_WINDOW_MS)
      == CodesSince(s.otps, ev.user, ev.now - RESEND_WINDOW_MS);
  }

  /** A code that was just requested is the one looked up. */
  lemma FreshCodeIsCorrect(s: State, user: int, purpose: Purpose, code: int, now: int)
    requires Inv(Step(s, Resend(user, purpose, code, now))) && user in s.users && ResendAllowed(s.otps, user, now)
    ensures CheckCode(Step(s, Resend(user, purpose, code, now)).otps, user, purpose, code, now).Correct?
  {
    var s', n := Step(s, Resend(user, purpose, code, now)), |s.otps|;
    assert Live(s'.otps[n], user, purpose);
    OneUnusedCode(s', Current(s'.otps, user, purpose).value, n);
  }
}
