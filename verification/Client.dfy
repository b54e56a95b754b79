/**
 The Expo client of packages/auth/expo/src/api.ts: one job queue, a module variable `refreshPromise`, and two
 interceptors. A job runs to its next `await` without interruption; settling a promise queues all its waiters back to
 back (section 27.2.1.8 of ECMA-262).
 */
module Client {
  import opened Schema

  /** An access token as the client can read it; `iat` and `exp` in seconds (sections 4.1.6 and 4.1.4 of RFC 7519). */
  datatype Jwt = Jwt(iat: int, exp: int) | Garbled

  /** The persisted and transient fields of the auth store. */
  datatype Store = Store(access: Option<Jwt>, refresh: Option<string>, isAuthenticated: bool, isLoading: bool, failed: bool)

  /** A refresh call carries the refresh token it presents and settles promise p. */
  datatype Kind = PrivateCall | PublicCall | RefreshCall(p: nat, token: string) | LogoutCall

  /** Where a request is: its interceptor queued, waiting for a promise, woken, on the wire, answered, or done. */
  datatype Status = Queued | Waiting(p: nat) | Woken | Sent | Answered | Settled(ok: bool)

  datatype Header = NoHeader | Bearer(token: Option<Jwt>)

  /** `tilde` is the mark of a private URL that the request interceptor strips; `retried` is `_retry`. */
  datatype Call = Call(kind: Kind, tilde: bool, retried: bool, dispatches: nat, header: Header, status: Status)

  datatype Promise = Pending(waiters: seq<nat>) | Fulfilled(access: Jwt) | Rejected

  datatype Code = ExpiredToken | InvalidToken | InvalidRefreshToken | OtherError

  datatype Response = Success | NewTokens(access: Jwt, refresh: string) | Fault(code: Code)

  datatype Job =
    | Send(r: nat)
    | Reply(r: nat, response: Response)
    | Wake(r: nat, p: nat, ok: bool)
    | LogOut

  datatype State = State(
    store: Store, refreshPromise: Option<nat>, promises: seq<Promise>, calls: seq<Call>, queue: seq<Job>,
    timers: nat, now: int)

  /** needsTokenRefresh: undecodable, or within the last tenth of its life. */
  predicate NeedsRefresh(access: Jwt, now: int) {
    access.Garbled? || 10 * (access.exp - now / 1000) <= access.exp - access.iat
  }

  const CLEARED := Store(None, None, false, false, false)

  /** The request goes out as it is. */
  function Dispatch(s: State, r: nat): State
    requires r < |s.calls|
  {
    s.(calls := s.calls[r := s.calls[r].(status := Sent, dispatches := s.calls[r].dispatches + 1)])
  }

  /** refreshTokens up to its first await, its promise stored in `refreshPromise`. */
  function StartRefresh(s: State): (t: State)
    ensures t.refreshPromise == Some(|s.promises|) && |t.promises| == |s.promises| + 1
    ensures s.calls <= t.calls && s.queue <= t.queue
  {
    var p := |s.promises|;
    if s.store.refresh.None? then
      s.(timers := s.timers + 1, promises := s.promises + [Rejected], refreshPromise := Some(p),
         store := s.store.(isLoading := false, failed := true))
    else
      s.(promises := s.promises + [Pending([])], refreshPromise := Some(p),
         calls := s.calls + [Call(RefreshCall(p, s.store.refresh.value), false, false, 0, NoHeader, Queued)],
         queue := s.queue + [Send(|s.calls|)],
         store := s.store.(isLoading := true, failed := false))
  }

  /** `await` on a promise that exists. */
  function AwaitPromise(s: State, r: nat, p: nat): State
    requires r < |s.calls| && p < |s.promises|
  {
    match s.promises[p]
    case Pending(ws) =>
      s.(promises := s.promises[p := Pending(ws + [r])], calls := s.calls[r := s.calls[r].(status := Waiting(p))])
    case Fulfilled(_) =>
      s.(queue := s.queue + [Wake(r, p, true)], calls := s.calls[r := s.calls[r].(status := Woken)])
    case Rejected =>
      s.(queue := s.queue + [Wake(r, p, false)], calls := s.calls[r := s.calls[r].(status := Woken)])
  }

  /** The guarded refresh both interceptors share: start one if there is none, then await it. */
  function Join(s: State, r: nat): State
    requires r < |s.calls| && (s.refreshPromise.Some? ==> s.refreshPromise.value < |s.promises|)
  {
    var t := if s.refreshPromise.None? then StartRefresh(s) else s;
    AwaitPromise(t, r, t.refreshPromise.value)
  }

  predicate PromiseInRange(s: State) {
    s.refreshPromise.Some? ==> s.refreshPromise.value < |s.promises|
  }

  /** The request interceptor. */
  function RunSend(s: State, r: nat): State
    requires r < |s.calls| && PromiseInRange(s)
  {
    var c := s.calls[r];
    if !c.tilde then Dispatch(s, r)
    else
      var t := s.(calls := s.calls[r := c.(tilde := false)]);
      if s.store.access.None? then Dispatch(t.(timers := t.timers + 1), r)
      else if NeedsRefresh(s.store.access.value, s.now) then Join(t, r)
      else Dispatch(t.(calls := t.calls[r := t.calls[r].(header := Bearer(s.store.access))]), r)
  }

  /** All waiters of a promise, queued back to back. */
  function Wakes(ws: seq<nat>, p: nat, ok: bool): (jobs: seq<Job>)
    ensures |jobs| == |ws| && forall i :: 0 <= i < |ws| ==> jobs[i] == Wake(ws[i], p, ok)
  {
    seq(|ws|, i requires 0 <= i < |ws| => Wake(ws[i], p, ok))
  }

  function Woke(calls: seq<Call>, ws: seq<nat>): (calls': seq<Call>)
    ensures |calls'| == |calls|
    ensures forall r :: 0 <= r < |calls| ==> calls'[r] == (if r in ws then calls[r].(status := Woken) else calls[r])
  {
    seq(|calls|, r requires 0 <= r < |calls| => if r in ws then calls[r].(status := Woken) else calls[r])
  }

  function Settle(s: State, p: nat, outcome: Promise): State
    requires p < |s.promises| && !outcome.Pending?
  {
    match s.promises[p]
    case Pending(ws) =>
      s.(promises := s.promises[p := outcome], queue := s.queue + Wakes(ws, p, outcome.Fulfilled?), calls := Woke(s.calls, ws))
    case _ => s
  }

  function Finish(s: State, r: nat, ok: bool): State
    requires r < |s.calls|
  {
    s.(calls := s.calls[r := s.calls[r].(status := Settled(ok))])
  }

  /** The end of a failed request, after handleError: what its caller does with the rejection. */
  function FinishFailed(s: State, r: nat): State
    requires r < |s.calls|
  {
    var t := Finish(s, r, false);
    match s.calls[r].kind
    case RefreshCall(p, _) =>
      var u := t.(store := t.store.(isLoading := false, failed := true));
      if p < |u.promises| then Settle(u, p, Rejected) else u
    case LogoutCall => t.(store := CLEARED)
    case _ => t
  }

  /** The response interceptor, and the code that awaited the response. */
  function RunReply(s: State, r: nat, response: Response): State
    requires r < |s.calls| && PromiseInRange(s)
  {
    match response
    case Fault(code) =>
      if code.ExpiredToken? && !s.calls[r].retried then
        Join(s.(calls := s.calls[r := s.calls[r].(retried := true)]), r)
      else if code.InvalidToken? || code.InvalidRefreshToken? then
        FinishFailed(s.(timers := s.timers + 1), r)
      else FinishFailed(s, r)
    case NewTokens(access, refresh) =>
      var t := Finish(s, r, true);
      if s.calls[r].kind.RefreshCall? && s.calls[r].kind.p < |s.promises| then
        Settle(t.(store := t.store.(access := Some(access), refresh := Some(refresh))), s.calls[r].kind.p, Fulfilled(access))
      else t
    case Success =>
      var t := Finish(s, r, true);
      if s.calls[r].kind.LogoutCall? then t.(store := CLEARED) else t
  }

  /** The continuation of `await refreshPromise`: a reactive waiter sends its request through the interceptors again. */
  function RunWake(s: State, r: nat, ok: bool): State
    requires r < |s.calls|
  {
    if !ok then Finish(s, r, false)
    else
      var t := s.(refreshPromise := None, calls := s.calls[r := s.calls[r].(header := Bearer(s.store.access))]);
      if s.calls[r].retried then
        t.(calls := t.calls[r := t.calls[r].(status := Queued)], queue := t.queue + [Send(r)])
      else Dispatch(t, r)
  }

  function RunLogOut(s: State): State {
    if s.store.refresh.None? then s.(store := CLEARED)
    else
      s.(store := s.store.(isLoading := true, failed := false),
         calls := s.calls + [Call(LogoutCall, false, false, 0, NoHeader, Queued)], queue := s.queue + [Send(|s.calls|)])
  }

  predicate JobInRange(s: State, job: Job) {
    job.LogOut? || job.r < |s.calls|
  }

  function RunJob(s: State, job: Job): State
    requires JobInRange(s, job) && PromiseInRange(s)
  {
    match job
    case Send(r) => RunSend(s, r)
    case Reply(r, response) => RunReply(s, r, response)
    case Wake(r, _, ok) => RunWake(s, r, ok)
    case LogOut => RunLogOut(s)
  }

  // ---- the machine ----

  /**
   `SignIn` is the end of a sign-in or signup, which the app offers to a signed-out user; `Leave` is the user's own
   logout; `Fire` is a scheduled one.
   */
  datatype Event =
    | Tick(now: int)
    | SignIn(access: Jwt, refresh: string)
    | Issue(private: bool)
    | Deliver(r: nat, response: Response)
    | Fire
    | Leave
    | Run

  /**
   Only private endpoints answer EXPIRED_TOKEN, and logout answers no code that logs out; both are proved of the
   server in `Revocation.EndpointCodes`. New tokens come from the refresh endpoint.
   */
  predicate Answerable(kind: Kind, response: Response) {
    && (response == Fault(ExpiredToken) ==> kind.PrivateCall?)
    && (kind.LogoutCall? ==> response == Success || response == Fault(OtherError))
    && (response.NewTokens? ==> kind.RefreshCall?)
    && (kind.RefreshCall? ==> !response.Success?)
  }

  predicate Enabled(s: State, e: Event) {
    match e
    case Tick(now) => s.now <= now
    case SignIn(_, _) => s.store.access.None?
    case Issue(_) => true
    case Deliver(r, response) => r < |s.calls| && s.calls[r].status.Sent? && Answerable(s.calls[r].kind, response)
    case Fire => s.timers > 0
    case Leave => true
    case Run => s.queue != [] && JobInRange(s, s.queue[0]) && PromiseInRange(s)
  }

  function Apply(s: State, e: Event): State
    requires Enabled(s, e)
  {
    match e
    case Tick(now) => s.(now := now)
    case SignIn(access, refresh) => s.(store := Store(Some(access), Some(refresh), true, false, false))
    case Issue(private) =>
      var kind := if private then PrivateCall else PublicCall;
      s.(calls := s.calls + [Call(kind, private, false, 0, NoHeader, Queued)], queue := s.queue + [Send(|s.calls|)])
    case Deliver(r, response) =>
      s.(calls := s.calls[r := s.calls[r].(status := Answered)], queue := s.queue + [Reply(r, response)])
    case Fire => s.(timers := s.timers - 1, queue := s.queue + [LogOut])
    case Leave => s.(queue := s.queue + [LogOut])
    case Run => RunJob(s.(queue := s.queue[1..]), s.queue[0])
  }

  ghost predicate Runs(s: State, events: seq<Event>, t: State)
    decreases |events|
  {
    if events == [] then s == t
    else Enabled(s, events[0]) && Runs(Apply(s, events[0]), events[1..], t)
  }

  /** The app has started: nothing issued, nothing queued. The persisted store may hold anything. */
  ghost predicate Fresh(s: State) {
    s.refreshPromise.None? && s.promises == [] && s.calls == [] && s.queue == [] && s.timers == 0
  }
}
