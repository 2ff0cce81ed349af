/** frontend/src/api/client.ts: the response interceptor that refreshes the access token once for all the
    requests that failed with 401, and replays each of them once. */
module Client {
  import opened Common

  // ---- the protocol ----

  /** One call of the application, from its first dispatch to the settling of its promise: how often it was
      sent, how many of those were answered, and how often its promise was resolved or rejected. */
  datatype Request = Request(isAuth: bool, retried: bool, sent: nat, answered: nat, resolved: nat, rejected: nat)

  /** refreshCalls holds the handlers that are suspended at the refresh call, one entry per call outstanding. */
  datatype State = State(requests: map<int, Request>, isRefreshing: bool, pendingQueue: seq<int>,
                         refreshCalls: multiset<int>)

  datatype Status = Ok | Unauthorized | OtherFailure

  /** hasRefreshToken: what the token store answers when asked. hasAccess: the refresh response carries a token. */
  datatype Event =
    | Send(id: int, isAuth: bool)
    | Respond(id: int, status: Status, hasRefreshToken: bool)
    | Refreshed(id: int, hasAccess: bool)
    | RefreshFailed(id: int)

  predicate Enabled(s: State, ev: Event) {
    match ev
    case Send(i, _) => i !in s.requests
    case Respond(i, _, _) => i in s.requests && s.requests[i].answered < s.requests[i].sent
    case Refreshed(i, _) => s.refreshCalls[i] > 0
    case RefreshFailed(i) => s.refreshCalls[i] > 0
  }

  function Resent(requests: map<int, Request>, i: int): map<int, Request> {
    if i in requests then requests[i := requests[i].(sent := requests[i].sent + 1)] else requests
  }

  function Rejected(requests: map<int, Request>, i: int): map<int, Request> {
    if i in requests then requests[i := requests[i].(rejected := requests[i].rejected + 1)] else requests
  }

  function Resolved(requests: map<int, Request>, i: int): map<int, Request> {
    if i in requests then requests[i := requests[i].(resolved := requests[i].resolved + 1)] else requests
  }

  /** Every callback of the queue is called with the token: it replays its request, or rejects it without one. */
  function Flushed(requests: map<int, Request>, queue: seq<int>, hasAccess: bool): map<int, Request> {
    if queue == [] then requests else
      var rest := Flushed(requests, queue[..|queue| - 1], hasAccess);
      if hasAccess then Resent(rest, queue[|queue| - 1]) else Rejected(rest, queue[|queue| - 1])
  }

  function Answered(s: State, i: int, status: Status, hasRefreshToken: bool): State
    requires i in s.requests
  {
    var r := s.requests[i].(answered := s.requests[i].answered + 1);
    var s1 := s.(requests := s.requests[i := r]);
    if status == Ok then s1.(requests := Resolved(s1.requests, i))
    else if status == Unauthorized && !r.retried && !r.isAuth then
      var s2 := s1.(requests := s1.requests[i := r.(retried := true)]);
      if s.isRefreshing then s2.(pendingQueue := s.pendingQueue + [i])
      else if !hasRefreshToken then s2.(requests := Rejected(s2.requests, i))
      else s2.(isRefreshing := true, refreshCalls := s.refreshCalls + multiset{i})
    else s1.(requests := Rejected(s1.requests, i))
  }

  function Step(s: State, ev: Event): State {
    if !Enabled(s, ev) then s else
    match ev
    case Send(i, isAuth) => s.(requests := s.requests[i := Request(isAuth, false, 1, 0, 0, 0)])
    case Respond(i, status, hasRefreshToken) => Answered(s, i, status, hasRefreshToken)
    case Refreshed(i, hasAccess) =>
      State(Resent(Flushed(s.requests, s.pendingQueue, hasAccess), i), false, [], s.refreshCalls - multiset{i})
    case RefreshFailed(i) =>
      State(Rejected(Flushed(s.requests, s.pendingQueue, false), i), false, [], s.refreshCalls - multiset{i})
  }

  function Run(s: State, evs: seq<Event>): State {
    if evs == [] then s else Step(Run(s, evs[..|evs| - 1]), evs[|evs| - 1])
  }

  const INITIAL := State(map[], false, [], multiset{})

  // ---- the interceptor ----

  class ApiClient {
    var requests: map<int, Request>
    var isRefreshing: bool
    var pendingQueue: seq<int>
    var refreshCalls: multiset<int>

    function Snapshot(): State
      reads this
    {
      State(requests, isRefreshing, pendingQueue, refreshCalls)
    }

    constructor ()
      ensures Snapshot() == INITIAL
    {
      requests, isRefreshing, pendingQueue, refreshCalls := map[], false, [], multiset{};
    }

    method Dispatch(i: int, isAuth: bool)
      requires Enabled(Snapshot(), Send(i, isAuth))
      modifies this
      ensures Snapshot() == Step(old(Snapshot()), Send(i, isAuth))
    {
      requests := requests[i := Request(isAuth, false, 1, 0, 0, 0)];
    }

    /** The response handler up to its first await. */
    method OnResponse(i: int, status: Status, hasRefreshToken: bool)
      requires Enabled(Snapshot(), Respond(i, status, hasRefreshToken))
      modifies this
      ensures Snapshot() == Step(old(Snapshot()), Respond(i, status, hasRefreshToken))
    {
      requests := requests[i := requests[i].(answered := requests[i].answered + 1)];
      if status == Ok {
        requests := Resolved(requests, i);
        return;
      }
      if status == Unauthorized && !requests[i].retried && !requests[i].isAuth {
        requests := requests[i := requests[i].(retried := true)];
        if isRefreshing {
          pendingQueue := pendingQueue + [i];
          return;
        }
        isRefreshing := true;
        if !hasRefreshToken {
          requests := Rejected(requests, i);
          isRefreshing := false;
          return;
        }
        refreshCalls := refreshCalls + multiset{i};
        return;
      }
      requests := Rejected(requests, i);
    }

    method Flush(hasAccess: bool)
      modifies this`requests, this`pendingQueue
      ensures requests == Flushed(old(requests), old(pendingQueue), hasAccess) && pendingQueue == []
    {
      for j := 0 to |pendingQueue|
        modifies this`requests
        invariant requests == Flushed(old(requests), pendingQueue[..j], hasAccess)
      {
        assert pendingQueue[..j + 1][..j] == pendingQueue[..j];
        if hasAccess {
          requests := Resent(requests, pendingQueue[j]);
        } else {
          requests := Rejected(requests, pendingQueue[j]);
        }
      }
      assert pendingQueue[..|pendingQueue|] == pendingQueue;
      pendingQueue := [];
    }

    /** The handler resumes after a successful refresh. */
    method OnRefreshed(i: int, hasAccess: bool)
      requires Enabled(Snapshot(), Refreshed(i, hasAccess))
      modifies this
      ensures Snapshot() == Step(old(Snapshot()), Refreshed(i, hasAccess))
    {
      refreshCalls := refreshCalls - multiset{i};
      Flush(hasAccess);
      requests := Resent(requests, i);
      isRefreshing := false;
    }

    /** The handler resumes in its catch block. */
    method OnRefreshFailed(i: int)
      requires Enabled(Snapshot(), RefreshFailed(i))
      modifies this
      ensures Snapshot() == Step(old(Snapshot()), RefreshFailed(i))
    {
      refreshCalls := refreshCalls - multiset{i};
      Flush(false);
      requests := Rejected(requests, i);
      isRefreshing := false;
    }
  }

  // ---- the invariant ----

  function Settled(r: Request): nat {
    r.resolved + r.rejected
  }

  /** In how many places the request waits: in the queue, or leading a refresh. */
  ghost function Waiting(s: State, i: int): nat {
    multiset(s.pendingQueue)[i] + s.refreshCalls[i]
  }

  ghost predicate InOnePlace(r: Request, waiting: nat) {
    && r.answered <= r.sent
    && (r.sent - r.answered) + waiting + Settled(r) == 1
    && r.sent <= (if r.retried then 2 else 1)
    && (waiting > 0 ==> r.retried && r.sent == 1)
    && (r.retried ==> r.answered >= 1)
    && (r.isAuth ==> !r.retried)
  }

  /** The request is in exactly one place: on the wire, in the queue, leading a refresh, or settled. It waits
      only after one failed attempt, and is replayed at most once. */
  ghost predicate Accounted(s: State, i: int)
    requires i in s.requests
  {
    InOnePlace(s.requests[i], Waiting(s, i))
  }

  /** At most one refresh is outstanding, the flag says so, and requests queue up only behind it. */
  ghost predicate SingleFlight(s: State) {
    && |s.refreshCalls| == (if s.isRefreshing then 1 else 0)
    && (s.pendingQueue != [] ==> s.isRefreshing)
  }

  ghost predicate Inv(s: State) {
    && SingleFlight(s)
    && (forall i :: i in s.requests ==> Accounted(s, i))
    && (forall i :: i in s.pendingQueue || i in s.refreshCalls ==> i in s.requests)
  }

  lemma {:induction false} FlushedRequest(requests: map<int, Request>, queue: seq<int>, hasAccess: bool, i: int)
    requires i in requests
    ensures Flushed(requests, queue, hasAccess).Keys == requests.Keys
    ensures var n, r := multiset(queue)[i], requests[i];
      Flushed(requests, queue, hasAccess)[i]
      == if hasAccess then r.(sent := r.sent + n) else r.(rejected := r.rejected + n)
  {
    if queue != [] {
      FlushedRequest(requests, queue[..|queue| - 1], hasAccess, i);
      assert queue == queue[..|queue| - 1] + [queue[|queue| - 1]];
    }
  }

  lemma {:induction false} FlushedKeys(requests: map<int, Request>, queue: seq<int>, hasAccess: bool)
    ensures Flushed(requests, queue, hasAccess).Keys == requests.Keys
  {
    if queue != [] { FlushedKeys(requests, queue[..|queue| - 1], hasAccess); }
  }

  /** The only outstanding refresh is the one that returns. */
  lemma OnlyCall(calls: multiset<int>, i: int)
    requires |calls| <= 1 && calls[i] > 0
    ensures calls == multiset{i} && calls - multiset{i} == multiset{}
  {
    assert calls == (calls - multiset{i}) + multiset{i};
  }

  lemma RefreshKeepsInv(s: State, ev: Event)
    requires Inv(s) && Enabled(s, ev) && (ev.Refreshed? || ev.RefreshFailed?)
    ensures Inv(Step(s, ev))
  {
    var s', hasAccess := Step(s, ev), ev.Refreshed? && ev.hasAccess;
    OnlyCall(s.refreshCalls, ev.id);
    FlushedKeys(s.requests, s.pendingQueue, hasAccess);
    assert ev.id in s.refreshCalls;
    hide Flushed;
    forall i | i in s'.requests ensures Accounted(s', i) {
      assert Accounted(s, i);
      FlushedRequest(s.requests, s.pendingQueue, hasAccess, i);
    }
  }

  /** The answer sends the request to wait, if it is the first 401 of a call that may be replayed. */
  ghost predicate Waits(s: State, ev: Event)
    requires ev.Respond? && ev.id in s.requests
  {
    var r := s.requests[ev.id];
    ev.status == Unauthorized && !r.retried && !r.isAuth && (s.isRefreshing || ev.hasRefreshToken)
  }

  lemma AnswerMoves(s: State, ev: Event, i: int)
    requires Enabled(s, ev) && ev.Respond?
    ensures Waiting(Step(s, ev), i) == Waiting(s, i) + (if i == ev.id && Waits(s, ev) then 1 else 0)
  {
    hide Flushed;
    assert multiset(s.pendingQueue + [ev.id]) == multiset(s.pendingQueue) + multiset{ev.id};
  }

  lemma OthersUnmoved(s: State, ev: Event, i: int)
    requires Enabled(s, ev) && ev.Respond? && i in s.requests && i != ev.id
    ensures i in Step(s, ev).requests && Step(s, ev).requests[i] == s.requests[i]
  {
    hide Flushed;
  }

  /** Where the answered request goes next. */
  lemma AnswerAccounted(s: State, ev: Event, waiting: nat)
    requires Enabled(s, ev) && ev.Respond? && InOnePlace(s.requests[ev.id], waiting)
    ensures ev.id in Step(s, ev).requests
    ensures InOnePlace(Step(s, ev).requests[ev.id], waiting + (if Waits(s, ev) then 1 else 0))
  {
    hide Flushed;
  }

  lemma AnswerKeepsAccount(s: State, ev: Event, i: int)
    requires Enabled(s, ev) && ev.Respond? && i in s.requests && Accounted(s, i) && Accounted(s, ev.id)
    ensures i in Step(s, ev).requests && Accounted(Step(s, ev), i)
  {
    hide Step, InOnePlace, Waiting, Waits;
    AnswerMoves(s, ev, i);
    if i == ev.id { AnswerAccounted(s, ev, Waiting(s, i)); } else { OthersUnmoved(s, ev, i); }
  }

  lemma AnswerKeepsFlight(s: State, ev: Event)
    requires SingleFlight(s) && Enabled(s, ev) && ev.Respond?
    ensures SingleFlight(Step(s, ev)) && Step(s, ev).requests.Keys == s.requests.Keys
    ensures forall i :: i in Step(s, ev).pendingQueue || i in Step(s, ev).refreshCalls ==>
      i in s.pendingQueue || i in s.refreshCalls || i == ev.id
  {
    hide Accounted;
  }

  lemma AnswerKeepsInv(s: State, ev: Event)
    requires Inv(s) && Enabled(s, ev) && ev.Respond?
    ensures Inv(Step(s, ev))
  {
    hide Step, Accounted, SingleFlight;
    AnswerKeepsFlight(s, ev);
    forall i | i in Step(s, ev).requests ensures Accounted(Step(s, ev), i) { AnswerKeepsAccount(s, ev, i); }
  }

  lemma SendKeepsAccount(s: State, ev: Event, i: int)
    requires Enabled(s, ev) && ev.Send? && i in Step(s, ev).requests
    requires if i == ev.id then Waiting(s, i) == 0 else Accounted(s, i)
    ensures Accounted(Step(s, ev), i)
  {
    hide Answered, Flushed;
    assert Waiting(Step(s, ev), i) == Waiting(s, i);
    hide Waiting;
  }

  lemma SendKeepsInv(s: State, ev: Event)
    requires Inv(s) && Enabled(s, ev) && ev.Send?
    ensures Inv(Step(s, ev))
  {
    NotWaiting(s, ev.id);
    SendKeepsFlight(s, ev);
    forall i | i in Step(s, ev).requests ensures Accounted(Step(s, ev), i) {
      hide SingleFlight, Answered, Flushed, InOnePlace, Waiting;
      SendKeepsAccount(s, ev, i);
    }
    hide SingleFlight, Answered, Flushed, Accounted, Waiting;
  }

  lemma SendKeepsFlight(s: State, ev: Event)
    requires SingleFlight(s) && Enabled(s, ev) && ev.Send?
    ensures SingleFlight(Step(s, ev))
  {
    hide Answered, Flushed;
  }

  lemma StepKeepsInv(s: State, ev: Event)
    requires Inv(s)
    ensures Inv(Step(s, ev))
  {
    hide Inv, Answered, Flushed;
    if Enabled(s, ev) {
      if ev.Send? {
        SendKeepsInv(s, ev);
      } else if ev.Respond? {
        AnswerKeepsInv(s, ev);
      } else {
        RefreshKeepsInv(s, ev);
      }
    }
  }

  lemma NotWaiting(s: State, i: int)
    requires Inv(s) && i !in s.requests
    ensures Waiting(s, i) == 0
  {
    assert i in multiset(s.pendingQueue) <==> i in s.pendingQueue;
  }

  /** Over every interleaving of sends, responses and refresh results: at most one refresh is outstanding, a
      non-empty queue implies a refresh under way, and every request is in exactly one place, sent at most
      twice and settled at most once. */
  lemma {:induction false} RunKeepsInv(evs: seq<Event>)
    ensures Inv(Run(INITIAL, evs))
  {
    if evs != [] {
      RunKeepsInv(evs[..|evs| - 1]);
      StepKeepsInv(Run(INITIAL, evs[..|evs| - 1]), evs[|evs| - 1]);
    }
  }

  // ---- what settles a request ----

  /** The event is due after this history; others have no effect. */
  predicate Arrives(past: seq<Event>, ev: Event) {
    Enabled(Run(INITIAL, past), ev)
  }

  /** Some response to the request was a success. */
  ghost predicate Succeeded(evs: seq<Event>, i: int) {
    exists j :: 0 <= j < |evs| && OkFor(evs[j], i) && Arrives(evs[..j], evs[j])
  }

  predicate OkFor(ev: Event, i: int) {
    ev.Respond? && ev.id == i && ev.status == Ok
  }

  /** The request was answered, in whatever way. */
  ghost predicate Heard(evs: seq<Event>, i: int) {
    exists j :: 0 <= j < |evs| && AnswerTo(evs[j], i) && Arrives(evs[..j], evs[j])
  }

  predicate AnswerTo(ev: Event, i: int) {
    ev.Respond? && ev.id == i
  }

  /** The request went to an authentication address. */
  ghost predicate SentAuth(evs: seq<Event>, i: int) {
    exists j :: 0 <= j < |evs| && evs[j] == Send(i, true) && Arrives(evs[..j], evs[j])
  }

  predicate RefreshUnderWay(past: seq<Event>) {
    |Run(INITIAL, past).refreshCalls| > 0
  }

  predicate Queued(past: seq<Event>, i: int) {
    i in Run(INITIAL, past).pendingQueue
  }

  /** The event fails the request: a failure other than 401; a 401 for an authentication address, or the second one,
      or one with no refresh under way and no refresh token; or the end of the refresh it waited for without a
      token, or, for the leader, with an error. */
  ghost predicate Fails(past: seq<Event>, ev: Event, i: int) {
    match ev
    case Send(_, _) => false
    case Respond(id, status, hasRefreshToken) => id == i
      && (status == OtherFailure
          || (status == Unauthorized
              && (SentAuth(past, i) || Heard(past, i) || (!RefreshUnderWay(past) && !hasRefreshToken))))
    case Refreshed(_, hasAccess) => !hasAccess && Queued(past, i)
    case RefreshFailed(id) => id == i || Queued(past, i)
  }

  ghost predicate Failed(evs: seq<Event>, i: int) {
    exists j :: 0 <= j < |evs| && Fails(evs[..j], evs[j], i) && Arrives(evs[..j], evs[j])
  }

  /** The last event adds itself to the history, if it arrives. */
  lemma HistoryGrows(evs: seq<Event>, i: int)
    requires evs != []
    ensures var front, last := evs[..|evs| - 1], evs[|evs| - 1];
      && (Succeeded(evs, i) <==> Succeeded(front, i) || (OkFor(last, i) && Arrives(front, last)))
      && (Heard(evs, i) <==> Heard(front, i) || (AnswerTo(last, i) && Arrives(front, last)))
      && (SentAuth(evs, i) <==> SentAuth(front, i) || (last == Send(i, true) && Arrives(front, last)))
      && (Failed(evs, i) <==> Failed(front, i) || (Fails(front, last, i) && Arrives(front, last)))
  {
    hide Arrives, OkFor, AnswerTo, Fails;
    var front := evs[..|evs| - 1];
    forall j | 0 <= j < |front| ensures front[..j] == evs[..j] && front[j] == evs[j] {}
  }

  /** What one event does to the counters of a request that is already known. */
  lemma StepSettles(s: State, ev: Event, i: int)
    requires Inv(s) && Enabled(s, ev) && i in s.requests
    ensures i in Step(s, ev).requests
    ensures var r, r' := s.requests[i], Step(s, ev).requests[i];
      && r'.isAuth == r.isAuth
      && r'.answered == r.answered + (if AnswerTo(ev, i) then 1 else 0)
      && r'.resolved == r.resolved + (if OkFor(ev, i) then 1 else 0)
      && r'.rejected == r.rejected + (if FailsNow(s, ev, i) then 1 else 0)
  {
    hide Step, InOnePlace, Waiting, FailsNow;
    assert Accounted(s, i) && SingleFlight(s);
    if ev.Respond? {
      if i == ev.id { AnswerSettles(s, ev); } else { OthersUnmoved(s, ev, i); OthersUnfailed(s, ev, i); }
    } else if ev.Send? {
      SendSettlesNothing(s, ev, i);
    } else {
      RefreshSettles(s, ev, i);
    }
  }

  lemma OthersUnfailed(s: State, ev: Event, i: int)
    requires ev.Respond? && i in s.requests && i != ev.id
    ensures !FailsNow(s, ev, i)
  {
  }

  lemma SendSettlesNothing(s: State, ev: Event, i: int)
    requires Enabled(s, ev) && ev.Send? && i in s.requests
    ensures i in Step(s, ev).requests && Step(s, ev).requests[i] == s.requests[i] && !FailsNow(s, ev, i)
  {
    hide Answered, Flushed;
  }

  lemma AnswerSettles(s: State, ev: Event)
    requires SingleFlight(s) && Enabled(s, ev) && ev.Respond? && Accounted(s, ev.id)
    ensures ev.id in Step(s, ev).requests
    ensures var r, r' := s.requests[ev.id], Step(s, ev).requests[ev.id];
      && r'.isAuth == r.isAuth && r'.answered == r.answered + 1
      && r'.resolved == r.resolved + (if ev.status == Ok then 1 else 0)
      && r'.rejected == r.rejected + (if FailsNow(s, ev, ev.id) then 1 else 0)
  {
    hide Flushed, Waiting;
  }

  lemma RefreshSettles(s: State, ev: Event, i: int)
    requires SingleFlight(s) && Enabled(s, ev) && (ev.Refreshed? || ev.RefreshFailed?)
    requires i in s.requests && Accounted(s, i)
    ensures i in Step(s, ev).requests
    ensures var r, r' := s.requests[i], Step(s, ev).requests[i];
      && r'.isAuth == r.isAuth && r'.answered == r.answered && r'.resolved == r.resolved
      && r'.rejected == r.rejected + (if FailsNow(s, ev, i) then 1 else 0)
  {
    hide Answered, Flushed;
    FlushedRequest(s.requests, s.pendingQueue, ev.Refreshed? && ev.hasAccess, i);
    assert i in multiset(s.pendingQueue) <==> i in s.pendingQueue;
  }

  predicate FailsNow(s: State, ev: Event, i: int)
    requires i in s.requests
  {
    match ev
    case Send(_, _) => false
    case Respond(id, status, hasRefreshToken) => id == i
      && (status == OtherFailure
          || (status == Unauthorized && (s.requests[i].isAuth || s.requests[i].answered > 0
                                         || (|s.refreshCalls| == 0 && !hasRefreshToken))))
    case Refreshed(_, hasAccess) => !hasAccess && i in s.pendingQueue
    case RefreshFailed(id) => id == i || i in s.pendingQueue
  }

  /** The counters of a request tell its history, and nothing happened to a request that was never sent. */
  ghost predicate TellsHistory(evs: seq<Event>, i: int) {
    var s := Run(INITIAL, evs);
    if i in s.requests then
      && (s.requests[i].isAuth <==> SentAuth(evs, i)) && (s.requests[i].answered > 0 <==> Heard(evs, i))
      && (s.requests[i].resolved > 0 <==> Succeeded(evs, i)) && (s.requests[i].rejected > 0 <==> Failed(evs, i))
    else
      !SentAuth(evs, i) && !Heard(evs, i) && !Succeeded(evs, i) && !Failed(evs, i)
  }

  lemma NoHistory(i: int)
    ensures TellsHistory([], i)
  {
  }

  lemma KnownGoesOn(past: seq<Event>, ev: Event, i: int)
    requires TellsHistory(past, i) && Inv(Run(INITIAL, past)) && i in Run(INITIAL, past).requests
    ensures var s, s' := Run(INITIAL, past), Step(Run(INITIAL, past), ev);
      && i in s'.requests
      && (s'.requests[i].isAuth <==> SentAuth(past, i) || (ev == Send(i, true) && Arrives(past, ev)))
      && (s'.requests[i].answered > 0 <==> Heard(past, i) || (AnswerTo(ev, i) && Arrives(past, ev)))
      && (s'.requests[i].resolved > 0 <==> Succeeded(past, i) || (OkFor(ev, i) && Arrives(past, ev)))
      && (s'.requests[i].rejected > 0 <==> Failed(past, i) || (Fails(past, ev, i) && Arrives(past, ev)))
  {
    hide Answered, Flushed, Inv, Run, SentAuth, Heard, Succeeded, Failed;
    var s := Run(INITIAL, past);
    if Enabled(s, ev) { StepSettles(s, ev, i); }
    hide Step;
  }

  /** What is unknown cannot be answered, and waits for nothing. */
  lemma UnknownGoesOn(past: seq<Event>, ev: Event, i: int)
    requires TellsHistory(past, i) && Inv(Run(INITIAL, past)) && i !in Run(INITIAL, past).requests
    ensures var s' := Step(Run(INITIAL, past), ev);
      && !(AnswerTo(ev, i) && Arrives(past, ev)) && !(OkFor(ev, i) && Arrives(past, ev))
      && !(Fails(past, ev, i) && Arrives(past, ev))
      && (i in s'.requests <==> ev.Send? && ev.id == i)
      && (i in s'.requests ==> var r := s'.requests[i];
            && Arrives(past, ev) && (r.isAuth <==> ev == Send(i, true))
            && r.answered == 0 && r.resolved == 0 && r.rejected == 0)
  {
    hide Run, SentAuth, Heard, Succeeded, Failed, SingleFlight;
    var s := Run(INITIAL, past);
    if Enabled(s, ev) && !ev.Send? { ResponseKeepsKeys(s, ev); }
  }

  lemma {:induction false} RunTellsHistory(evs: seq<Event>, i: int)
    ensures TellsHistory(evs, i)
  {
    hide Step, Enabled, Inv, SentAuth, Heard, Succeeded, Failed;
    if evs == [] {
      NoHistory(i);
    } else {
      var front, last := evs[..|evs| - 1], evs[|evs| - 1];
      RunTellsHistory(front, i);
      RunKeepsInv(front);
      HistoryGrows(evs, i);
      if i in Run(INITIAL, front).requests { KnownGoesOn(front, last, i); } else { UnknownGoesOn(front, last, i); }
    }
  }

  /** A request is resolved if and only if some response to it was a success, and rejected if and only if something
      failed it; each at most once, over every interleaving. */
  lemma SettledByAnswers(evs: seq<Event>, i: int)
    requires i in Run(INITIAL, evs).requests
    ensures var r := Run(INITIAL, evs).requests[i];
      && r.resolved == (if Succeeded(evs, i) then 1 else 0)
      && r.rejected == (if Failed(evs, i) then 1 else 0)
  {
    hide Run, Succeeded, Failed, Heard, SentAuth;
    RunTellsHistory(evs, i);
    RunKeepsInv(evs);
    assert Accounted(Run(INITIAL, evs), i);
  }

  // ---- no request is lost, and all of them end ----

  /** Once sent, a request stays known, and a settled request stays as it is. */
  lemma StepKeepsSettled(s: State, ev: Event, i: int)
    requires Inv(s) && i in s.requests
    ensures i in Step(s, ev).requests
    ensures Settled(s.requests[i]) == 1 ==> Step(s, ev).requests[i] == s.requests[i]
  {
    hide Flushed, SingleFlight;
    if Enabled(s, ev) {
      assert Accounted(s, i);
      if ev.Refreshed? || ev.RefreshFailed? {
        FlushedRequest(s.requests, s.pendingQueue, ev.Refreshed? && ev.hasAccess, i);
        assert i == ev.id ==> s.refreshCalls[i] > 0;
      }
    }
  }

  /** When the refresh returns, everybody who waited for it is served: replayed a second and last time, or
      rejected. A response without an access token rejects the queue but still replays the leader. */
  lemma RefreshServesAllWaiting(s: State, ev: Event, i: int)
    requires Inv(s) && Enabled(s, ev) && (ev.Refreshed? || ev.RefreshFailed?)
    requires i in s.pendingQueue || i in s.refreshCalls
    ensures i in Step(s, ev).requests
    ensures var r := Step(s, ev).requests[i];
      if ev.Refreshed? && (ev.hasAccess || i == ev.id) then r.sent == 2 && r.answered == 1 && Settled(r) == 0
      else r.sent == 1 && r.answered == 1 && r.resolved == 0 && r.rejected == 1
    ensures Step(s, ev).pendingQueue == [] && Step(s, ev).refreshCalls == multiset{}
  {
    assert Accounted(s, i) && (i in multiset(s.pendingQueue) <==> i in s.pendingQueue);
    OnlyCall(s.refreshCalls, ev.id);
    FlushedRequest(s.requests, s.pendingQueue, ev.Refreshed? && ev.hasAccess, i);
  }

  lemma SomeCall<T>(calls: multiset<T>) returns (i: T)
    requires |calls| > 0
    ensures calls[i] > 0
  {
    assert calls != multiset{};
    i :| i in calls;
  }

  /** As long as a request is not settled, some response is still to come: its own, or that of the refresh it
      waits for. The branch that finds no refresh token leaves nobody behind in the queue. */
  lemma Progress(s: State, i: int)
    requires Inv(s) && i in s.requests && Settled(s.requests[i]) == 0
    ensures exists ev: Event :: !ev.Send? && Enabled(s, ev)
  {
    assert Accounted(s, i);
    if s.requests[i].answered < s.requests[i].sent {
      assert Enabled(s, Respond(i, Ok, true));
    } else {
      assert i in s.pendingQueue || i in s.refreshCalls by {
        assert i in multiset(s.pendingQueue) || i in s.refreshCalls;
      }
      var leader := SomeCall(s.refreshCalls);
      assert Enabled(s, RefreshFailed(leader));
    }
  }

  /** How many responses the request may still consume, its own and those of refreshes it leads or waits for. */
  function Weight(r: Request): nat {
    if Settled(r) > 0 then 0 else if !r.retried then 3 else if r.sent == 1 then 2 else 1
  }

  function WeightIn(s: State): int -> int {
    i => if i in s.requests then Weight(s.requests[i]) else 0
  }

  ghost function Remaining(s: State): int {
    Sum(s.requests.Keys, WeightIn(s))
  }

  lemma AnswerLightens(s: State, ev: Event, i: int)
    requires Enabled(s, ev) && ev.Respond? && i in s.requests && Accounted(s, i) && Accounted(s, ev.id)
    ensures i in Step(s, ev).requests && Weight(Step(s, ev).requests[i]) <= Weight(s.requests[i])
    ensures i == ev.id ==> Weight(Step(s, ev).requests[i]) < Weight(s.requests[i])
  {
    hide Flushed;
  }

  lemma RefreshLightens(s: State, ev: Event, i: int)
    requires Inv(s) && Enabled(s, ev) && (ev.Refreshed? || ev.RefreshFailed?) && i in s.requests
    ensures i in Step(s, ev).requests && Weight(Step(s, ev).requests[i]) <= Weight(s.requests[i])
    ensures i == ev.id ==> Weight(Step(s, ev).requests[i]) < Weight(s.requests[i])
  {
    assert Accounted(s, i) && SingleFlight(s);
    hide Inv, Flushed, Answered;
    FlushedRequest(s.requests, s.pendingQueue, ev.Refreshed? && ev.hasAccess, i);
    OnlyCall(s.refreshCalls, ev.id);
  }

  lemma ResponseLightens(s: State, ev: Event, i: int)
    requires Inv(s) && Enabled(s, ev) && !ev.Send? && i in s.requests
    ensures i in Step(s, ev).requests && Weight(Step(s, ev).requests[i]) <= Weight(s.requests[i])
    ensures i == ev.id ==> Weight(Step(s, ev).requests[i]) < Weight(s.requests[i])
  {
    hide Step, Weight, Accounted, SingleFlight;
    if ev.Respond? {
      assert Accounted(s, i) && Accounted(s, ev.id);
      AnswerLightens(s, ev, i);
    } else {
      RefreshLightens(s, ev, i);
    }
  }

  lemma ResponseKeepsKeys(s: State, ev: Event)
    requires Inv(s) && Enabled(s, ev) && !ev.Send?
    ensures ev.id in s.requests && Step(s, ev).requests.Keys == s.requests.Keys
  {
    if !ev.Respond? {
      assert ev.id in s.refreshCalls;
      FlushedKeys(s.requests, s.pendingQueue, ev.Refreshed? && ev.hasAccess);
    }
  }

  lemma ResponseShortens(s: State, ev: Event)
    requires Inv(s) && Enabled(s, ev) && !ev.Send?
    ensures Remaining(Step(s, ev)) < Remaining(s)
  {
    hide Step, Inv, Enabled, Weight;
    var s' := Step(s, ev);
    ResponseKeepsKeys(s, ev);
    forall i | i in s.requests
      ensures WeightIn(s')(i) <= WeightIn(s)(i) && (i == ev.id ==> WeightIn(s')(i) < WeightIn(s)(i))
    {
      ResponseLightens(s, ev, i);
    }
    SumDrops(s.requests.Keys, WeightIn(s), WeightIn(s'), {ev.id});
  }

  /** Only responses, each of them expected when it arrives. */
  ghost predicate Responses(s: State, evs: seq<Event>) {
    evs == []
      || (Responses(s, evs[..|evs| - 1]) && !evs[|evs| - 1].Send? && Enabled(Run(s, evs[..|evs| - 1]), evs[|evs| - 1]))
  }

  lemma {:induction false} ResponsesAreBounded(s: State, evs: seq<Event>)
    requires Inv(s) && Responses(s, evs)
    ensures Inv(Run(s, evs)) && Remaining(Run(s, evs)) + |evs| <= Remaining(s)
  {
    hide Inv, Step, Enabled, Remaining;
    if evs != [] {
      var front := evs[..|evs| - 1];
      ResponsesAreBounded(s, front);
      StepKeepsInv(Run(s, front), evs[|evs| - 1]);
      ResponseShortens(Run(s, front), evs[|evs| - 1]);
    }
  }

  lemma RemainingBound(s: State)
    ensures 0 <= Remaining(s) <= 3 * |s.requests.Keys|
  {
    var all := s.requests.Keys;
    SumConstant(all, Constant(3), 3);
    SumConstant(all, Constant(0), 0);
    var none: set<int> := {};
    assert none <= all;
    forall x | x in all ensures Constant(0)(x) <= WeightIn(s)(x) <= Constant(3)(x) {}
    SumDrops(all, Constant(3), WeightIn(s), {});
    SumDrops(all, WeightIn(s), Constant(0), {});
  }

  /** Once no new requests are sent, whatever responses arrive in whatever order, there are at most three per
      request; and when no further response can arrive, every request has been settled exactly once. */
  lemma EveryRequestSettles(sends: seq<Event>, evs: seq<Event>)
    requires Responses(Run(INITIAL, sends), evs)
    ensures |evs| <= 3 * |Run(INITIAL, sends).requests.Keys|
    ensures var s := Run(Run(INITIAL, sends), evs);
      (forall ev: Event :: Enabled(s, ev) ==> ev.Send?) ==>
        (forall i :: i in s.requests ==> Settled(s.requests[i]) == 1 && s.requests[i].sent <= 2)
  {
    var s0 := Run(INITIAL, sends);
    var s := Run(s0, evs);
    RunKeepsInv(sends);
    ResponsesAreBounded(s0, evs);
    RemainingBound(s0);
    RemainingBound(s);
    hide Run, Enabled, Responses;
    if forall ev: Event :: Enabled(s, ev) ==> ev.Send? {
      forall i | i in s.requests ensures Settled(s.requests[i]) == 1 && s.requests[i].sent <= 2 {
        assert Accounted(s, i);
        if Settled(s.requests[i]) == 0 { Progress(s, i); }
      }
    }
  }
}
