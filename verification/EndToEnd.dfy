/**
 The job-queue client against the interleaving server. Private requests are issued, join a refresh, wait and resume as
 they like; dispatching a refresh call begins a request on the server, and what is delivered to it is that request's
 reply. The client is shown to live like the reduced client of `Lifeline`, one refresh at a time, which is what
 `refreshPromise` is for: neither half assumes what the other guarantees.

 Taken as given, beyond what `Lifeline` lists: private requests are not answered EXPIRED_TOKEN or INVALID_TOKEN
 (proactive refreshes only), the user does not log out, the app restarts only while no refresh is outstanding, and the
 waiters of a refresh have resumed within `lag` ms of the second in which the new access token was signed, where `skew`
 and `lag` stay below 27 minutes together.
 */
module EndToEnd {
  import opened Schema
  import opened Config
  import opened Handlers
  import S = Server
  import C = Client
  import L = Lifeline
  import opened ClientRuns
  import opened Flight
  import SF = SingleFlight

  const DUE_AFTER_MS := 1620 * 1000

  datatype Bounds = Bounds(skew: nat, delay: nat, lag: nat)

  predicate Within(b: Bounds) {
    b.skew + b.delay <= L.MARGIN_MS && b.skew + b.lag < DUE_AFTER_MS
  }

  /**
   `signing` is the sign-in request under way, `requests` the server request behind each dispatched refresh call, and
   `asked` the client's time when the latest refresh was started; the rest is as in `Lifeline`.
   */
  datatype World = World(
    server: S.State, client: C.State, signing: Option<S.Pid>, requests: map<nat, S.Pid>, ours: set<S.Pid>,
    session: Id, renewed: Time, asked: int)

  datatype Move =
    | Serve(a: S.Action)
    | SignIn(pid: S.Pid, req: Request)
    | Receive
    | Local(e: C.Event)
    | Dispatch(pid: S.Pid)
    | Restart

  /** An access token as the client decodes it. */
  function Decoded(access: Access): C.Jwt {
    C.Jwt(access.iat, access.exp)
  }

  /** What the refresh endpoint's reply looks like to the client. */
  function ResponseOf(reply: Reply): C.Response {
    match reply
    case Tokens(access, refresh) => C.NewTokens(Decoded(access), refresh)
    case Error(InvalidRefreshToken) => C.Fault(C.InvalidRefreshToken)
    case _ => C.Fault(C.OtherError)
  }

  /** The next job sends a refresh call. */
  predicate HeadIsRefresh(c: C.State) {
    c.queue != [] && c.queue[0].Send? && c.queue[0].r < |c.calls| && c.calls[c.queue[0].r].kind.RefreshCall?
  }

  /** The next job is the answer of a refresh call. */
  predicate HeadIsAnswer(c: C.State) {
    c.queue != [] && c.queue[0].Reply? && c.queue[0].r < |c.calls| && c.calls[c.queue[0].r].kind.RefreshCall?
  }

  ghost predicate Timely(w: World, b: Bounds) {
    && w.client.now <= w.server.clock + b.skew
    && (SF.PromiseFulfilled(w.client) && w.client.store.access.Some? && w.client.store.access.value.Jwt? ==>
          w.server.clock <= 1000 * w.client.store.access.value.iat + b.lag)
  }

  ghost predicate HasReply(s: S.State, pid: S.Pid) {
    pid in s.procs && s.procs[pid].at.Replied?
  }

  ghost predicate EventPermitted(w: World, e: C.Event, b: Bounds) {
    && C.Enabled(w.client, e)
    && match e
       case Tick(_) => true
       case SignIn(_, _) => false
       case Leave => false
       case Deliver(r, response) =>
         if w.client.calls[r].kind.RefreshCall? then
           r in w.requests && HasReply(w.server, w.requests[r]) && response == ResponseOf(w.server.procs[w.requests[r]].at.reply)
         else response == C.Success || response == C.Fault(C.OtherError)
       case Run => !HeadIsRefresh(w.client) && Timely(w, b)
       case _ => w.client.store.access.Some?
  }

  ghost predicate Permitted(w: World, m: Move, b: Bounds) {
    match m
    case Serve(a) => L.Unhindered(w.server, w.ours, w.renewed, a, b.delay)
    case SignIn(pid, req) =>
      w.signing.None? && w.client.store.access.None? && SignsIn(req) && S.Enabled(w.server, S.Begin(pid, req))
    case Receive => w.signing.Some? && w.client.store.access.None? && HasReply(w.server, w.signing.value)
    case Local(e) => EventPermitted(w, e, b)
    case Dispatch(pid) =>
      && C.Enabled(w.client, C.Run) && HeadIsRefresh(w.client) && Timely(w, b)
      && S.Enabled(w.server, S.Begin(pid, Refresh(w.client.calls[w.client.queue[0].r].kind.token)))
    case Restart => w.client.store.access.Some? && NoneOutstandingNow(w)
  }

  ghost predicate NoneOutstandingNow(w: World) {
    forall r: nat :: !Outstanding(w.client, r)
  }

  /** The app after a restart: what was persisted, and nothing else. */
  function Restarted(c: C.State): C.State {
    C.State(c.store.(isLoading := false, failed := false), None, [], [], [], 0, c.now)
  }

  /** The event starts a refresh. */
  predicate Starts(c: C.State, e: C.Event) {
    e.Run? && c.queue != [] && SF.Joins(c, c.queue[0]) && c.refreshPromise.None?
  }

  ghost function Moved(w: World, m: Move, b: Bounds): World
    requires Permitted(w, m, b)
  {
    match m
    case Serve(a) =>
      w.(server := S.Apply(w.server, a), renewed := L.RenewedAfter(w.server, w.ours, w.renewed, a),
         session := L.SessionAfter(w.server, w.ours, w.session, a))
    case SignIn(pid, req) =>
      w.(server := S.Apply(w.server, S.Begin(pid, req)), signing := Some(pid), ours := w.ours + {pid})
    case Receive =>
      var reply := w.server.procs[w.signing.value].at.reply;
      if reply.Tokens? then
        w.(client := C.Apply(w.client, C.SignIn(Decoded(reply.access), reply.refresh)), signing := None)
      else w.(signing := None)
    case Local(e) =>
      w.(client := C.Apply(w.client, e), asked := if Starts(w.client, e) then w.client.now else w.asked)
    case Dispatch(pid) =>
      var r := w.client.queue[0].r;
      w.(client := C.Apply(w.client, C.Run),
         server := S.Apply(w.server, S.Begin(pid, Refresh(w.client.calls[r].kind.token))),
         requests := w.requests[r := pid], ours := w.ours + {pid})
    case Restart => w.(client := Restarted(w.client), requests := map[])
  }

  ghost predicate Lives(w: World, moves: seq<Move>, v: World, b: Bounds)
    decreases |moves|
  {
    if moves == [] then w == v
    else Permitted(w, moves[0], b) && Lives(Moved(w, moves[0], b), moves[1..], v, b)
  }

  // ---- how the two clients correspond ----

  ghost predicate Blank(c: C.State) {
    C.Fresh(c) && c.store.access.None? && c.store.refresh.None?
  }

  /** Refresh calls that have gone out, and the requests behind them. */
  ghost predicate RequestsOk(w: World) {
    && (forall r :: r in w.requests ==>
          && r < |w.client.calls| && w.client.calls[r].kind.RefreshCall? && !w.client.calls[r].status.Queued?
          && w.requests[r] in w.ours && w.requests[r] in w.server.procs
          && (w.client.calls[r].status.Settled? ==>
                && w.client.calls[r].status.ok && HasReply(w.server, w.requests[r])
                && w.server.procs[w.requests[r]].at.reply.Tokens?))
    && (forall r :: 0 <= r < |w.client.calls| && w.client.calls[r].kind.RefreshCall? && r !in w.requests ==>
          w.client.calls[r].status.Queued?)
  }

  ghost predicate ReplyOk(w: World, job: C.Job) {
    job.Reply? && job.r < |w.client.calls| && w.client.calls[job.r].kind.RefreshCall? ==>
      && job.r in w.requests && HasReply(w.server, w.requests[job.r])
      && job.response == ResponseOf(w.server.procs[w.requests[job.r]].at.reply)
  }

  ghost predicate RepliesOk(w: World) {
    forall i :: 0 <= i < |w.client.queue| ==> ReplyOk(w, w.client.queue[i])
  }

  /** A refresh that has been started and not yet sent presents the current token, which was due. */
  ghost predicate UnsentOk(w: World, l: L.World, b: Bounds, r: nat) {
    Outstanding(w.client, r) ==>
      && w.client.calls[r].status.Queued? && w.client.calls[r].kind.token == l.refresh
      && L.Due(l.access, w.asked) && w.asked <= w.server.clock + b.skew
  }

  ghost predicate Sent(w: World, pid: S.Pid, r: nat) {
    Outstanding(w.client, r) && r in w.requests && w.requests[r] == pid
  }

  /** The signed-in client is in order and holds the tokens of its counterpart. */
  ghost predicate ClientOk(c: C.State, l: L.World) {
    && Inv(c) && Linked(c) && SF.Smooth(c) && SF.NoneExpired(c)
    && c.store.access == Some(Decoded(l.access)) && c.store.refresh == Some(l.refresh)
  }

  ghost predicate Matches(w: World, l: L.World, b: Bounds) {
    && l.server == w.server && l.ours == w.ours && l.renewed == w.renewed && l.session == w.session
    && RequestsOk(w) && RepliesOk(w)
    && match l.phase
       case SignedOut => w.signing.None? && Blank(w.client)
       case SigningIn(pid) => w.signing == Some(pid) && Blank(w.client)
       case Idle => w.signing.None? && ClientOk(w.client, l) && forall r: nat :: UnsentOk(w, l, b, r)
       case Refreshing(pid) => w.signing.None? && ClientOk(w.client, l) && exists r: nat :: Sent(w, pid, r)
       case Broken(_) => false
  }

  ghost predicate Together(w: World, l: L.World, b: Bounds) {
    L.Inv(l, b.skew, b.delay) && Matches(w, l, b)
  }

  /** Signed in. */
  ghost predicate Active(l: L.World) {
    l.phase.Idle? || l.phase.Refreshing?
  }

  // ---- what the client's steps do to its refresh calls ----

  /** Refresh calls stay as they are, and no reply is queued. */
  ghost predicate Quiet(c: C.State, c': C.State) {
    && |c.calls| <= |c'.calls|
    && (forall r :: 0 <= r < |c.calls| && c.calls[r].kind.RefreshCall? ==> c'.calls[r] == c.calls[r])
    && (forall r :: 0 <= r < |c.calls| ==> c'.calls[r].kind == c.calls[r].kind)
    && (forall i :: 0 <= i < |c'.queue| && c'.queue[i].Reply? ==> c'.queue[i] in c.queue)
    && c'.store.access == c.store.access && c'.store.refresh == c.store.refresh
  }

  ghost predicate NoNewRefresh(c: C.State, c': C.State) {
    forall r :: |c.calls| <= r < |c'.calls| ==> !c'.calls[r].kind.RefreshCall?
  }

  /** One new refresh call, unsent, with the current token. */
  ghost predicate NewRefresh(c: C.State, c': C.State) {
    && |c'.calls| == |c.calls| + 1 && c.store.refresh.Some?
    && c'.calls[|c.calls|].kind.RefreshCall? && c'.calls[|c.calls|].kind.token == c.store.refresh.value
    && c'.calls[|c.calls|].status.Queued?
  }

  lemma JoinEffect(c: C.State, r: nat)
    requires C.PromiseInRange(c) && r < |c.calls| && !c.calls[r].kind.RefreshCall? && c.store.refresh.Some?
    ensures
      var c' := C.Join(c, r);
      Quiet(c, c') && (if c.refreshPromise.None? then NewRefresh(c, c') else NoNewRefresh(c, c'))
  {
  }

  lemma QuietTrans(c: C.State, d: C.State, e: C.State)
    requires Quiet(c, d) && Quiet(d, e) && |d.calls| == |c.calls|
    ensures Quiet(c, e)
  {
  }

  lemma SendEffect(c: C.State, r: nat)
    requires C.PromiseInRange(c) && r < |c.calls| && CallOk(c.calls[r]) && c.calls[r].status.Queued?
    requires !c.calls[r].kind.RefreshCall? && c.store.access.Some? && c.store.refresh.Some?
    ensures
      var c' := C.RunSend(c, r);
      Quiet(c, c') && (if SF.Joins(c, C.Send(r)) && c.refreshPromise.None? then NewRefresh(c, c') else NoNewRefresh(c, c'))
  {
    hide C.Join;
    if SF.Joins(c, C.Send(r)) {
      var d := c.(calls := c.calls[r := c.calls[r].(tilde := false)]);
      JoinEffect(d, r);
      QuietTrans(c, d, C.Join(d, r));
    }
  }

  lemma ReplyEffect(c: C.State, r: nat, response: C.Response)
    requires C.PromiseInRange(c) && r < |c.calls| && !c.calls[r].kind.RefreshCall? && !c.calls[r].kind.LogoutCall?
    requires response == C.Success || response == C.Fault(C.OtherError)
    ensures Quiet(c, C.RunReply(c, r, response)) && NoNewRefresh(c, C.RunReply(c, r, response))
  {
  }

  lemma WakeEffect(c: C.State, r: nat, ok: bool)
    requires r < |c.calls| && !c.calls[r].kind.RefreshCall?
    ensures Quiet(c, C.RunWake(c, r, ok)) && NoNewRefresh(c, C.RunWake(c, r, ok))
  {
  }

  lemma PoppedQuiet(c: C.State, c': C.State)
    requires c.queue != [] && Quiet(c.(queue := c.queue[1..]), c')
    ensures Quiet(c, c')
  {
    assert forall job :: job in c.queue[1..] ==> job in c.queue;
  }

  /** Replies of other calls are of the two harmless kinds. */
  ghost predicate OthersOk(c: C.State) {
    forall i :: 0 <= i < |c.queue| && c.queue[i].Reply? && c.queue[i].r < |c.calls| && !c.calls[c.queue[i].r].kind.RefreshCall? ==>
      c.queue[i].response == C.Success || c.queue[i].response == C.Fault(C.OtherError)
  }

  lemma HarmlessReplies(c: C.State)
    requires Inv(c) && SF.Smooth(c) && SF.NoneExpired(c)
    ensures OthersOk(c)
  {
    forall i | 0 <= i < |c.queue| && c.queue[i].Reply? && c.queue[i].r < |c.calls| && !c.calls[c.queue[i].r].kind.RefreshCall?
      ensures c.queue[i].response == C.Success || c.queue[i].response == C.Fault(C.OtherError)
    {
      var response := c.queue[i].response;
      assert JobOk(c, c.queue[i]) && SF.JobCalm(c, c.queue[i]) && response != C.Fault(C.ExpiredToken);
      assert C.Answerable(c.calls[c.queue[i].r].kind, response);
      match response
      case Success =>
      case NewTokens(_, _) =>
      case Fault(code) =>
        match code
        case ExpiredToken =>
        case InvalidToken =>
        case InvalidRefreshToken =>
        case OtherError =>
    }
  }

  /** A job that neither sends nor answers a refresh call. */
  lemma RunEffect(c: C.State)
    requires Inv(c) && SF.Smooth(c) && SF.NoneExpired(c) && C.Enabled(c, C.Run)
    requires !HeadIsRefresh(c) && !HeadIsAnswer(c)
    ensures Quiet(c, C.Apply(c, C.Run))
    ensures if Starts(c, C.Run) then NewRefresh(c, C.Apply(c, C.Run)) else NoNewRefresh(c, C.Apply(c, C.Run))
  {
    hide C.RunSend, C.RunReply, C.RunWake, Quiet, WaitersOk;
    var job, d := c.queue[0], c.(queue := c.queue[1..]);
    assert JobOk(c, job) && SF.JobCalm(c, job);
    HarmlessReplies(c);
    assert CallOk(c.calls[job.r]);
    match job {
      case Send(r) => SendEffect(d, r);
      case Reply(r, response) => ReplyEffect(d, r, response);
      case Wake(r, _, ok) => WakeEffect(d, r, ok);
    }
    PoppedQuiet(c, C.Apply(c, C.Run));
  }

  /** A refresh call goes out. */
  lemma DispatchEffect(c: C.State)
    requires C.Enabled(c, C.Run) && HeadIsRefresh(c) && CallOk(c.calls[c.queue[0].r])
    ensures
      var r, c' := c.queue[0].r, C.Apply(c, C.Run);
      c' == c.(queue := c.queue[1..],
               calls := c.calls[r := c.calls[r].(status := C.Sent, dispatches := c.calls[r].dispatches + 1)])
  {
  }

  /** The answer of a refresh call brings its tokens and settles it; other refresh calls and replies stay. */
  lemma AnswerEffect(c: C.State)
    requires Inv(c) && Linked(c) && C.Enabled(c, C.Run) && HeadIsAnswer(c) && c.queue[0].response.NewTokens?
    ensures
      var r, response, c' := c.queue[0].r, c.queue[0].response, C.Apply(c, C.Run);
      && c'.store.access == Some(response.access) && c'.store.refresh == Some(response.refresh)
      && |c'.calls| == |c.calls| && c'.calls[r] == c.calls[r].(status := C.Settled(true))
      && (forall x :: 0 <= x < |c.calls| ==> c'.calls[x].kind == c.calls[x].kind)
      && (forall x :: 0 <= x < |c.calls| && x != r && c.calls[x].kind.RefreshCall? ==> c'.calls[x] == c.calls[x])
      && (forall i :: 0 <= i < |c'.queue| && c'.queue[i].Reply? ==> c'.queue[i] in c.queue)
  {
    hide QueueOk, C.RunReply;
    var r, d := c.queue[0].r, c.(queue := c.queue[1..]);
    assert LinkOk(c, r);
    assert JobOk(c, c.queue[0]) by { HeadJob(c); }
    RefreshAnswered(d, r, c.queue[0].response);
    var ws := c.promises[c.calls[r].kind.p].waiters;
    forall x | 0 <= x < |c.calls| && c.calls[x].kind.RefreshCall?
      ensures x !in ws
    {
      assert CallOk(c.calls[x]) && WaitersAt(c, c.calls[r].kind.p, ws);
    }
    assert forall job :: job in c.queue[1..] ==> job in c.queue;
  }

  lemma HeadJob(c: C.State)
    requires QueueOk(c) && c.queue != []
    ensures JobOk(c, c.queue[0])
  {
  }

  // ---- the timing that single flight needs ----

  lemma SmoothProtected(c: C.State)
    requires SF.Smooth(c)
    ensures Protected(c)
  {
  }

  /** While a refresh is outstanding, its promise is pending and in `refreshPromise`, and no other is outstanding. */
  lemma OneOutstanding(c: C.State, r: nat)
    requires Linked(c) && SF.Smooth(c) && Outstanding(c, r)
    ensures c.refreshPromise.Some? && PromisePending(c) && forall x: nat :: Outstanding(c, x) ==> x == r
  {
    SmoothProtected(c);
    OnlyOne(c, r);
    assert LinkOk(c, r);
  }

  /** The token a refresh has brought is not due while its waiters resume. */
  lemma NotDueWhileResuming(w: World, l: L.World, b: Bounds)
    requires Within(b) && Together(w, l, b) && w.client.store.access.Some? && Timely(w, b) && SF.PromiseFulfilled(w.client)
    ensures !C.NeedsRefresh(w.client.store.access.value, w.client.now)
  {
    hide Inv, Linked, SF.Smooth, RequestsOk, RepliesOk, L.Revocation.Good, L.Secret, L.OursOk, L.Live;
    if l.phase.Refreshing? {
      var r: nat :| Sent(w, l.phase.pid, r);
      OneOutstanding(w.client, r);
    } else {
      assert L.SessionOk(l, l.access, l.refresh, b.delay);
    }
  }

  lemma ClientStep(c: C.State, e: C.Event)
    requires Inv(c) && Linked(c) && SF.Smooth(c) && SF.NoneExpired(c) && C.Enabled(c, e) && SF.Proactive(c, e)
    ensures var c' := C.Apply(c, e); Inv(c') && Linked(c') && SF.Smooth(c') && SF.NoneExpired(c')
  {
    hide Inv, Linked, SF.Smooth, C.Apply, C.Enabled;
    SF.ProactiveIsCalm(c, e);
    StepKeeps(c, e);
    LinkedStep(c, e);
    SF.StepSmooth(c, e);
    SF.NoneExpiredStep(c, e);
  }

  // ---- steps of the server and the sign-in ----

  /** An answered request stays answered. */
  lemma RepliedStays(s: S.State, a: S.Action, pid: S.Pid)
    requires S.Enabled(s, a) && pid in s.procs
    ensures pid in S.Apply(s, a).procs
    ensures s.procs[pid].at.Replied? ==> S.Apply(s, a).procs[pid] == s.procs[pid]
  {
    hide StmtAt, Accepts, DbAfter, Reads, S.Recorded, S.Concluded, Continue, Fits, Answers;
  }

  lemma ClockGrows(s: S.State, a: S.Action)
    requires S.Enabled(s, a)
    ensures s.clock <= S.Apply(s, a).clock
  {
    hide Shaped, StmtAt, Accepts, DbAfter, Reads, S.Recorded, S.Concluded, Continue;
  }

  /** The server has moved on; the client and its requests have not. */
  lemma ServerMoved(w: World, w': World, a: S.Action)
    requires RequestsOk(w) && RepliesOk(w) && S.Enabled(w.server, a)
    requires w'.server == S.Apply(w.server, a) && w'.client == w.client && w'.requests == w.requests && w.ours <= w'.ours
    ensures RequestsOk(w') && RepliesOk(w')
  {
    hide S.Apply, S.Enabled;
    forall r | r in w.requests
      ensures w.requests[r] in w'.server.procs
      ensures HasReply(w.server, w.requests[r]) ==> w'.server.procs[w.requests[r]] == w.server.procs[w.requests[r]]
    {
      RepliedStays(w.server, a, w.requests[r]);
    }
    forall i | 0 <= i < |w.client.queue|
      ensures ReplyOk(w', w'.client.queue[i])
    {
      assert ReplyOk(w, w.client.queue[i]);
    }
  }

  lemma ServeStep(w: World, l: L.World, a: S.Action, b: Bounds) returns (after: L.World)
    requires Within(b) && Together(w, l, b) && Permitted(w, Serve(a), b)
    ensures Together(Moved(w, Serve(a), b), after, b) && (Active(l) ==> Active(after))
  {
    hide L.Inv, S.Apply, S.Enabled, RequestsOk, RepliesOk, ClientOk, Blank;
    var w' := Moved(w, Serve(a), b);
    after := L.Moved(l, L.Serve(a), b.skew, b.delay);
    L.ServeKeeps(l, a, b.skew, b.delay);
    ServerMoved(w, w', a);
    ClockGrows(w.server, a);
    assert after.phase == l.phase && after.access == l.access && after.refresh == l.refresh;
    match l.phase {
      case Idle =>
        forall r: nat
          ensures UnsentOk(w', after, b, r)
        {
          assert UnsentOk(w, l, b, r);
        }
        assert ClientOk(w'.client, after) by { SameTokens(w.client, l, after); }
      case Refreshing(pid) =>
        var r: nat :| Sent(w, pid, r);
        assert Sent(w', pid, r);
        assert ClientOk(w'.client, after) by { SameTokens(w.client, l, after); }
      case _ =>
    }
  }

  lemma SameTokens(c: C.State, l: L.World, after: L.World)
    requires ClientOk(c, l) && after.access == l.access && after.refresh == l.refresh
    ensures ClientOk(c, after)
  {
  }

  lemma SignInStep(w: World, l: L.World, pid: S.Pid, req: Request, b: Bounds) returns (after: L.World)
    requires Together(w, l, b) && Permitted(w, SignIn(pid, req), b)
    ensures Together(Moved(w, SignIn(pid, req), b), after, b) && !Active(l)
  {
    hide L.Inv, S.Apply, S.Enabled, RequestsOk, RepliesOk;
    after := L.Moved(l, L.SignIn(pid, req), b.skew, b.delay);
    L.StartKeeps(l, L.SignIn(pid, req), b.skew, b.delay);
    ServerMoved(w, Moved(w, SignIn(pid, req), b), S.Begin(pid, req));
  }

  lemma ReceiveStep(w: World, l: L.World, b: Bounds) returns (after: L.World)
    requires Together(w, l, b) && Permitted(w, Receive, b)
    ensures Together(Moved(w, Receive, b), after, b) && !Active(l)
  {
    hide L.Inv, Inv, Linked, SF.Smooth;
    after := L.Moved(l, L.Receive, b.skew, b.delay);
    L.ReceiveKeeps(l, b.skew, b.delay);
    var w' := Moved(w, Receive, b);
    if after.phase.Idle? {
      SF.StartSmooth(w'.client);
      assert w'.client.queue == [] && w'.client.calls == [];
    }
  }

  // ---- steps of the client ----

  /** Whenever the client does anything but look at its clock, it is signed in. */
  lemma ActiveOnly(w: World, l: L.World, e: C.Event, b: Bounds)
    requires Matches(w, l, b) && C.Enabled(w.client, e) && !e.Tick? && !e.SignIn? && !e.Leave? && (e.Issue? ==> w.client.store.access.Some?)
    ensures Active(l)
  {
  }

  lemma TickStep(w: World, l: L.World, now: int, b: Bounds)
    requires Together(w, l, b) && Permitted(w, Local(C.Tick(now)), b)
    ensures Together(Moved(w, Local(C.Tick(now)), b), l, b)
  {
    hide L.Inv, Inv, Linked, SF.Smooth, RequestsOk;
    var w' := Moved(w, Local(C.Tick(now)), b);
    assert RequestsOk(w') by { SameCalls(w, w'); }
    assert RepliesOk(w') by {
      forall i | 0 <= i < |w'.client.queue|
        ensures ReplyOk(w', w'.client.queue[i])
      {
        assert ReplyOk(w, w.client.queue[i]);
      }
    }
    if Active(l) {
      ClientStep(w.client, C.Tick(now));
      KeepsPhase(w, w', l, b);
    }
  }

  lemma SameCalls(w: World, w': World)
    requires RequestsOk(w) && w'.server == w.server && w'.ours == w.ours && w'.requests == w.requests && w'.client.calls == w.client.calls
    ensures RequestsOk(w')
  {
  }

  /** Refresh calls unchanged, none added: the phase is unchanged too. */
  lemma KeepsPhase(w: World, w': World, l: L.World, b: Bounds)
    requires Matches(w, l, b) && Active(l)
    requires w'.server == w.server && w'.requests == w.requests && w'.asked == w.asked
    requires |w.client.calls| <= |w'.client.calls| && NoNewRefresh(w.client, w'.client)
    requires forall r :: 0 <= r < |w.client.calls| ==> w'.client.calls[r].kind == w.client.calls[r].kind
    requires forall r :: 0 <= r < |w.client.calls| && w.client.calls[r].kind.RefreshCall? ==> w'.client.calls[r] == w.client.calls[r]
    ensures l.phase.Idle? ==> forall r: nat :: UnsentOk(w', l, b, r)
    ensures l.phase.Refreshing? ==> exists r: nat :: Sent(w', l.phase.pid, r)
  {
    hide ClientOk, RequestsOk, RepliesOk, L.Due;
    if l.phase.Idle? {
      forall r: nat
        ensures UnsentOk(w', l, b, r)
      {
        assert UnsentOk(w, l, b, r);
      }
    } else {
      var r: nat :| Sent(w, l.phase.pid, r);
      assert Sent(w', l.phase.pid, r);
    }
  }

  /** The client moves without touching its refresh calls. */
  lemma QuietStep(w: World, w': World, l: L.World, b: Bounds)
    requires Together(w, l, b) && Active(l) && Quiet(w.client, w'.client) && NoNewRefresh(w.client, w'.client)
    requires w' == w.(client := w'.client)
    requires Inv(w'.client) && Linked(w'.client) && SF.Smooth(w'.client) && SF.NoneExpired(w'.client)
    ensures Together(w', l, b)
  {
    hide L.Inv, Inv, Linked, SF.Smooth, SF.NoneExpired;
    KeepsPhase(w, w', l, b);
    QuietReplies(w, w');
    assert RequestsOk(w') by {
      forall r | 0 <= r < |w'.client.calls| && w'.client.calls[r].kind.RefreshCall? && r !in w.requests
        ensures w'.client.calls[r].status.Queued?
      {
        assert r < |w.client.calls|;
      }
    }
  }

  lemma QuietReplies(w: World, w': World)
    requires RepliesOk(w) && Quiet(w.client, w'.client) && w'.server == w.server && w'.requests == w.requests && Inv(w.client)
    ensures RepliesOk(w')
  {
    forall i | 0 <= i < |w'.client.queue|
      ensures ReplyOk(w', w'.client.queue[i])
    {
      if w'.client.queue[i].Reply? {
        var k :| 0 <= k < |w.client.queue| && w.client.queue[k] == w'.client.queue[i];
        assert ReplyOk(w, w.client.queue[k]) && JobOk(w.client, w.client.queue[k]);
      }
    }
  }

  lemma IssueStep(w: World, l: L.World, private: bool, b: Bounds)
    requires Together(w, l, b) && Permitted(w, Local(C.Issue(private)), b)
    ensures Together(Moved(w, Local(C.Issue(private)), b), l, b)
  {
    hide L.Inv, Inv, Linked, SF.Smooth, SF.NoneExpired, RequestsOk, RepliesOk, UnsentOk, Sent;
    ActiveOnly(w, l, C.Issue(private), b);
    ClientStep(w.client, C.Issue(private));
    var w' := Moved(w, Local(C.Issue(private)), b);
    QuietStep(w, w', l, b);
  }

  /** A refresh call on the wire is the one the server is working on, and its answer carries tokens. */
  lemma AnswerIsTokens(w: World, l: L.World, b: Bounds, r: nat)
    requires Together(w, l, b) && Active(l) && r < |w.client.calls| && w.client.calls[r].kind.RefreshCall?
    requires !w.client.calls[r].status.Queued? && !w.client.calls[r].status.Settled?
    ensures r in w.requests && l.phase == L.Refreshing(w.requests[r])
    ensures HasReply(w.server, w.requests[r]) ==> w.server.procs[w.requests[r]].at.reply.Tokens?
  {
    hide Inv, Linked, SF.Smooth, SF.NoneExpired, RepliesOk, L.Revocation.Good, L.Secret, L.OursOk, L.Live;
    assert Outstanding(w.client, r);
    assert l.phase.Idle? ==> UnsentOk(w, l, b, r);
    var x: nat :| Sent(w, l.phase.pid, x);
    OneOutstanding(w.client, x);
    assert L.RefreshOk(l, l.server.procs[l.phase.pid], b.delay);
  }

  lemma DeliverStep(w: World, l: L.World, r: nat, response: C.Response, b: Bounds)
    requires Together(w, l, b) && Permitted(w, Local(C.Deliver(r, response)), b)
    ensures Together(Moved(w, Local(C.Deliver(r, response)), b), l, b)
  {
    hide L.Inv, Inv, Linked, SF.Smooth, SF.NoneExpired, L.Due;
    var e := C.Deliver(r, response);
    ActiveOnly(w, l, e, b);
    var w' := Moved(w, Local(e), b);
    if w.client.calls[r].kind.RefreshCall? {
      AnswerIsTokens(w, l, b, r);
      assert Sent(w', l.phase.pid, r);
    } else {
      KeepsPhase(w, w', l, b);
    }
    ClientStep(w.client, e);
    DeliveredReplies(w, w', r, response);
  }

  lemma DeliveredReplies(w: World, w': World, r: nat, response: C.Response)
    requires RequestsOk(w) && RepliesOk(w) && r < |w.client.calls| && w.client.calls[r].status.Sent?
    requires w.client.calls[r].kind.RefreshCall? ==>
      r in w.requests && HasReply(w.server, w.requests[r]) && response == ResponseOf(w.server.procs[w.requests[r]].at.reply)
    requires w'.server == w.server && w'.requests == w.requests && w'.ours == w.ours
    requires w'.client.calls == w.client.calls[r := w.client.calls[r].(status := C.Answered)]
    requires w'.client.queue == w.client.queue + [C.Reply(r, response)]
    ensures RequestsOk(w') && RepliesOk(w')
  {
    forall i | 0 <= i < |w'.client.queue|
      ensures ReplyOk(w', w'.client.queue[i])
    {
      if i < |w.client.queue| {
        assert ReplyOk(w, w.client.queue[i]);
      }
    }
  }

  lemma RunProactive(w: World, l: L.World, b: Bounds)
    requires Within(b) && Together(w, l, b) && Active(l) && Timely(w, b)
    ensures SF.Proactive(w.client, C.Run)
  {
    hide L.Inv, RequestsOk, RepliesOk, C.NeedsRefresh;
    if SF.PromiseFulfilled(w.client) {
      NotDueWhileResuming(w, l, b);
    }
  }

  /** A refresh is started: it presents the current token, which is due now. */
  lemma StartedStep(w: World, w': World, l: L.World, b: Bounds)
    requires Together(w, l, b) && Active(l) && Timely(w, b) && Starts(w.client, C.Run)
    requires Quiet(w.client, w'.client) && NewRefresh(w.client, w'.client) && w' == w.(client := w'.client, asked := w.client.now)
    requires Inv(w'.client) && Linked(w'.client) && SF.Smooth(w'.client) && SF.NoneExpired(w'.client)
    ensures Together(w', l, b)
  {
    hide L.Inv, Inv, Linked, SF.Smooth, RepliesOk;
    QuietReplies(w, w');
    assert forall r: nat :: !Outstanding(w.client, r) by {
      forall r: nat
        ensures !Outstanding(w.client, r)
      {
        if Outstanding(w.client, r) {
          OneOutstanding(w.client, r);
        }
      }
    }
    assert l.phase.Idle?;
    assert L.Due(l.access, w.client.now) by { JoinsWhenDue(w.client); }
    forall r: nat
      ensures UnsentOk(w', l, b, r)
    {
      if Outstanding(w'.client, r) {
        assert !Outstanding(w.client, r);
        assert r == |w.client.calls|;
      }
    }
  }

  lemma JoinsWhenDue(c: C.State)
    requires Starts(c, C.Run) && SF.NoneExpired(c)
    ensures c.store.access.Some? && C.NeedsRefresh(c.store.access.value, c.now)
  {
  }

  lemma RunStep(w: World, l: L.World, b: Bounds)
    requires Within(b) && Together(w, l, b) && Permitted(w, Local(C.Run), b)
    requires !HeadIsAnswer(w.client)
    ensures Together(Moved(w, Local(C.Run), b), l, b)
  {
    hide L.Inv, Inv, Linked, SF.Smooth, SF.NoneExpired, RequestsOk, RepliesOk, UnsentOk, Sent, C.RunJob, Quiet, SF.Proactive;
    ActiveOnly(w, l, C.Run, b);
    RunProactive(w, l, b);
    ClientStep(w.client, C.Run);
    RunEffect(w.client);
    var w' := Moved(w, Local(C.Run), b);
    if Starts(w.client, C.Run) {
      StartedStep(w, w', l, b);
    } else {
      QuietStep(w, w', l, b);
    }
  }

  /** The reply of the refresh is processed: this is where the reduced client receives. */
  lemma AnswerStep(w: World, l: L.World, b: Bounds) returns (after: L.World)
    requires Within(b) && Together(w, l, b) && Permitted(w, Local(C.Run), b)
    requires HeadIsAnswer(w.client)
    ensures Together(Moved(w, Local(C.Run), b), after, b) && Active(after)
  {
    hide L.Inv, Inv, Linked, SF.Smooth, SF.NoneExpired, C.RunJob, SF.Proactive, L.Due;
    ActiveOnly(w, l, C.Run, b);
    RunProactive(w, l, b);
    ClientStep(w.client, C.Run);
    var r := w.client.queue[0].r;
    assert JobOk(w.client, w.client.queue[0]) by { InvHead(w.client); }
    assert ReplyOk(w, w.client.queue[0]);
    AnswerIsTokens(w, l, b, r);
    AnswerEffect(w.client);
    after := L.Moved(l, L.Receive, b.skew, b.delay);
    L.ReceiveKeeps(l, b.skew, b.delay);
    var w' := Moved(w, Local(C.Run), b);
    assert forall x: nat :: !Outstanding(w'.client, x) by { OthersSettled(w, l, b, r, w'.client); }
    AnsweredRequests(w, w', r);
  }

  lemma InvHead(c: C.State)
    requires Inv(c) && c.queue != []
    ensures JobOk(c, c.queue[0])
  {
  }

  lemma OthersSettled(w: World, l: L.World, b: Bounds, r: nat, c': C.State)
    requires Matches(w, l, b) && Active(l) && Outstanding(w.client, r)
    requires |c'.calls| == |w.client.calls| && c'.calls[r].status.Settled?
    requires forall x :: 0 <= x < |w.client.calls| ==> c'.calls[x].kind == w.client.calls[x].kind
    requires forall x :: 0 <= x < |w.client.calls| && x != r && w.client.calls[x].kind.RefreshCall? ==> c'.calls[x] == w.client.calls[x]
    ensures forall x: nat :: !Outstanding(c', x)
  {
    hide Inv, Linked, SF.Smooth, RequestsOk, RepliesOk;
    OneOutstanding(w.client, r);
    forall x: nat
      ensures !Outstanding(c', x)
    {
      assert Outstanding(c', x) ==> Outstanding(w.client, x);
    }
  }

  lemma AnsweredRequests(w: World, w': World, r: nat)
    requires RequestsOk(w) && RepliesOk(w) && Inv(w.client) && r in w.requests && HasReply(w.server, w.requests[r])
    requires w.server.procs[w.requests[r]].at.reply.Tokens?
    requires w'.server == w.server && w'.requests == w.requests && w'.ours == w.ours && |w'.client.calls| == |w.client.calls|
    requires w'.client.calls[r] == w.client.calls[r].(status := C.Settled(true))
    requires forall x :: 0 <= x < |w.client.calls| ==> w'.client.calls[x].kind == w.client.calls[x].kind
    requires forall x :: 0 <= x < |w.client.calls| && x != r && w.client.calls[x].kind.RefreshCall? ==> w'.client.calls[x] == w.client.calls[x]
    requires forall i :: 0 <= i < |w'.client.queue| && w'.client.queue[i].Reply? ==> w'.client.queue[i] in w.client.queue
    ensures RequestsOk(w') && RepliesOk(w')
  {
    forall i | 0 <= i < |w'.client.queue|
      ensures ReplyOk(w', w'.client.queue[i])
    {
      if w'.client.queue[i].Reply? {
        var k :| 0 <= k < |w.client.queue| && w.client.queue[k] == w'.client.queue[i];
        assert ReplyOk(w, w.client.queue[k]) && JobOk(w.client, w.client.queue[k]);
      }
    }
  }

  /** A refresh call goes out: this is where the reduced client asks. */
  lemma DispatchStep(w: World, l: L.World, pid: S.Pid, b: Bounds) returns (after: L.World)
    requires Within(b) && Together(w, l, b) && Permitted(w, Dispatch(pid), b)
    ensures Together(Moved(w, Dispatch(pid), b), after, b) && Active(after)
  {
    hide L.Inv, Inv, Linked, SF.Smooth, SF.NoneExpired, C.RunJob, SF.Proactive, L.Due, S.Apply, S.Enabled;
    ActiveOnly(w, l, C.Run, b);
    RunProactive(w, l, b);
    ClientStep(w.client, C.Run);
    var c, r := w.client, w.client.queue[0].r;
    UnsentHead(w, l, b);
    DispatchEffect(c);
    var ask := L.Ask(pid, w.asked);
    after := L.Moved(l, ask, b.skew, b.delay);
    L.StartKeeps(l, ask, b.skew, b.delay);
    var w' := Moved(w, Dispatch(pid), b);
    SentRequests(w, w', pid, r);
    assert Sent(w', pid, r);
  }

  lemma UnsentHead(w: World, l: L.World, b: Bounds)
    requires Together(w, l, b) && Active(l) && HeadIsRefresh(w.client)
    ensures l.phase.Idle? && Outstanding(w.client, w.client.queue[0].r) && CallOk(w.client.calls[w.client.queue[0].r])
    ensures w.client.calls[w.client.queue[0].r].status.Queued? && UnsentOk(w, l, b, w.client.queue[0].r)
    ensures w.client.queue[0].r !in w.requests
  {
    hide L.Inv, Linked, SF.Smooth, SF.NoneExpired, WaitersOk, RepliesOk;
    var r := w.client.queue[0].r;
    assert JobOk(w.client, w.client.queue[0]) && CallOk(w.client.calls[r]);
    assert Outstanding(w.client, r);
    OneOutstanding(w.client, r);
  }

  lemma SentRequests(w: World, w': World, pid: S.Pid, r: nat)
    requires RequestsOk(w) && RepliesOk(w) && r < |w.client.calls| && w.client.calls[r].kind.RefreshCall? && r !in w.requests
    requires Inv(w.client) && w.client.queue != []
    requires S.Enabled(w.server, S.Begin(pid, Refresh(w.client.calls[r].kind.token)))
    requires w'.server == S.Apply(w.server, S.Begin(pid, Refresh(w.client.calls[r].kind.token)))
    requires w'.requests == w.requests[r := pid] && w'.ours == w.ours + {pid}
    requires w'.client.queue == w.client.queue[1..] && |w'.client.calls| == |w.client.calls|
    requires w'.client.calls == w.client.calls[r := w'.client.calls[r]] && w'.client.calls[r].status.Sent?
    requires w'.client.calls[r].kind == w.client.calls[r].kind
    ensures RequestsOk(w') && RepliesOk(w')
  {
    hide Shaped;
    forall i | 0 <= i < |w'.client.queue|
      ensures ReplyOk(w', w'.client.queue[i])
    {
      assert w'.client.queue[i] == w.client.queue[i + 1];
      assert ReplyOk(w, w.client.queue[i + 1]) && JobOk(w.client, w.client.queue[i + 1]);
    }
  }

  // ---- the theorem ----

  lemma StepTogether(w: World, l: L.World, m: Move, b: Bounds) returns (after: L.World)
    requires Within(b) && Together(w, l, b) && Permitted(w, m, b)
    ensures Together(Moved(w, m, b), after, b) && (Active(l) ==> Active(after))
  {
    hide Together, Moved, Active, L.Unhindered, S.Enabled, Timely;
    after := l;
    match m
    case Serve(a) => after := ServeStep(w, l, a, b);
    case SignIn(pid, req) => after := SignInStep(w, l, pid, req, b);
    case Receive => after := ReceiveStep(w, l, b);
    case Dispatch(pid) => after := DispatchStep(w, l, pid, b);
    case Restart => RestartStep(w, l, b);
    case Local(e) =>
      match e
      case Tick(now) => TickStep(w, l, now, b);
      case Issue(private) => IssueStep(w, l, private, b);
      case Deliver(r, response) => DeliverStep(w, l, r, response, b);
      case Fire => NoTimers(w, l, b);
      case Leave =>
      case Run =>
        if HeadIsAnswer(w.client) {
          after := AnswerStep(w, l, b);
        } else {
          RunStep(w, l, b);
        }
  }

  lemma NoTimers(w: World, l: L.World, b: Bounds)
    requires Together(w, l, b)
    ensures w.client.timers == 0
  {
    hide L.Inv, Inv, Linked, RequestsOk, RepliesOk;
  }

  /** The app restarts with its session in the store. */
  lemma RestartStep(w: World, l: L.World, b: Bounds)
    requires Together(w, l, b) && Permitted(w, Restart, b)
    ensures Together(Moved(w, Restart, b), l, b)
  {
    hide L.Inv, Inv, Linked, SF.Smooth;
    var w' := Moved(w, Restart, b);
    assert l.phase.Idle? by { IdleWithoutRefresh(w, l, b); }
    SF.StartSmooth(w'.client);
  }

  lemma IdleWithoutRefresh(w: World, l: L.World, b: Bounds)
    requires Matches(w, l, b) && w.client.store.access.Some? && NoneOutstandingNow(w)
    ensures l.phase.Idle?
  {
    hide Inv, Linked, SF.Smooth, RequestsOk, RepliesOk;
  }

  /** Of the client's requests only a sign-in inserts a session. */
  lemma SessionKept(w: World, l: L.World, m: Move, b: Bounds)
    requires Together(w, l, b) && Active(l) && Permitted(w, m, b)
    ensures Moved(w, m, b).session == w.session
  {
    hide RequestsOk, RepliesOk, ClientOk, L.Revocation.Good, L.Secret, L.Live, S.Concluded, ContinueOtp, ContinueAccount;
    if m.Serve? && m.a.Resume? && m.a.pid in w.ours {
      var p := w.server.procs[m.a.pid];
      assert !p.at.Replied?;
      assert L.Current(l, m.a.pid);
      assert p.req.Refresh?;
      assert Fits(p.req, S.Apply(w.server, m.a).procs[m.a.pid].at);
    }
  }

  lemma {:induction false} LivesTogether(w: World, l: L.World, moves: seq<Move>, v: World, b: Bounds) returns (after: L.World)
    requires Within(b) && Together(w, l, b) && Lives(w, moves, v, b)
    ensures Together(v, after, b) && (Active(l) ==> Active(after) && v.session == w.session)
    decreases |moves|
  {
    hide Together, Moved, Permitted, Active;
    after := l;
    if moves != [] {
      if Active(l) {
        SessionKept(w, l, moves[0], b);
      }
      after := StepTogether(w, l, moves[0], b);
      after := LivesTogether(Moved(w, moves[0], b), after, moves[1..], v, b);
    }
  }

  /** A server that has been running, and an app that has just been installed. */
  ghost predicate Begins(w: World) {
    S.Reachable(w.server) && Blank(w.client) && w.signing.None? && w.requests == map[] && w.ours == {}
  }

  lemma BeginsTogether(w: World, b: Bounds) returns (l: L.World)
    requires Begins(w)
    ensures Together(w, l, b)
  {
    hide S.Reachable, L.Inv;
    l := L.World(w.server, L.SignedOut, Access("", 0, 0), "", w.session, w.renewed, {});
    L.BeginsWell(l, b.skew, b.delay);
  }

  /**
   End to end, in every life of the job-queue client against the interleaving server: no refresh call is ever answered
   with an error, neither RATE_LIMITED nor INVALID_REFRESH_TOKEN nor any other; at most one is outstanding; the client
   is never logged out; and whenever it is signed in with no refresh outstanding, the refresh token it stores is the
   token of its own unrevoked session row.
   */
  lemma EveryProactiveRefreshSucceeds(w: World, moves: seq<Move>, v: World, b: Bounds, q: nat, r: nat)
    requires Begins(w) && Within(b) && Lives(w, moves, v, b)
    ensures r in v.requests && HasReply(v.server, v.requests[r]) ==> v.server.procs[v.requests[r]].at.reply.Tokens?
    ensures r < |v.client.calls| && v.client.calls[r].kind.RefreshCall? && v.client.calls[r].status.Settled? ==>
      v.client.calls[r].status.ok
    ensures Outstanding(v.client, q) && Outstanding(v.client, r) ==> q == r
    ensures v.client.timers == 0 && Flight.Paired(v.client.store)
    ensures v.client.store.refresh.Some? && NoneOutstandingNow(v) ==>
      && v.session in v.server.db.tokens && v.server.db.tokens[v.session].revokedAt.None?
      && v.server.db.tokens[v.session].token == v.client.store.refresh.value
  {
    hide Lives, S.Reachable;
    var l := BeginsTogether(w, b);
    l := LivesTogether(w, l, moves, v, b);
    NoTimers(v, l, b);
    Conclusions(v, l, b, q, r);
    if v.client.store.refresh.Some? && NoneOutstandingNow(v) {
      StoredTokenIsCurrent(v, l, b);
    }
  }

  lemma Conclusions(w: World, l: L.World, b: Bounds, q: nat, r: nat)
    requires Together(w, l, b)
    ensures r in w.requests && HasReply(w.server, w.requests[r]) ==> w.server.procs[w.requests[r]].at.reply.Tokens?
    ensures r < |w.client.calls| && w.client.calls[r].kind.RefreshCall? && w.client.calls[r].status.Settled? ==>
      w.client.calls[r].status.ok
    ensures Outstanding(w.client, q) && Outstanding(w.client, r) ==> q == r
    ensures Flight.Paired(w.client.store)
  {
    hide L.Inv, Inv, Linked, SF.Smooth, SF.NoneExpired, RepliesOk;
    if r in w.requests && !w.client.calls[r].status.Settled? {
      AnswerIsTokens(w, l, b, r);
    }
    if Outstanding(w.client, q) && Outstanding(w.client, r) {
      OneOutstanding(w.client, r);
    }
  }

  lemma StoredTokenIsCurrent(w: World, l: L.World, b: Bounds)
    requires Together(w, l, b) && w.client.store.refresh.Some? && NoneOutstandingNow(w)
    ensures w.session in w.server.db.tokens && w.server.db.tokens[w.session].revokedAt.None?
    ensures w.server.db.tokens[w.session].token == w.client.store.refresh.value
  {
    hide Inv, Linked, SF.Smooth, SF.NoneExpired, RequestsOk, RepliesOk, L.Revocation.Good, L.Secret, L.OursOk;
    assert l.phase.Idle?;
    assert L.SessionOk(l, l.access, l.refresh, b.delay);
  }

  /** Once signed in, the client stays signed in and its session is one row for the rest of its life. */
  lemma SessionIsOneRow(w: World, moves: seq<Move>, u: World, more: seq<Move>, v: World, b: Bounds)
    requires Begins(w) && Within(b) && Lives(w, moves, u, b) && u.client.store.access.Some? && Lives(u, more, v, b)
    ensures v.session == u.session && v.client.store.access.Some?
  {
    hide Lives, S.Reachable;
    var l := BeginsTogether(w, b);
    l := LivesTogether(w, l, moves, u, b);
    SignedInIsActive(u, l, b);
    l := LivesTogether(u, l, more, v, b);
    SignedInIsActive(v, l, b);
  }

  lemma SignedInIsActive(w: World, l: L.World, b: Bounds)
    requires Together(w, l, b)
    ensures w.client.store.access.Some? <==> Active(l)
  {
    hide L.Inv, Inv, Linked, SF.Smooth, SF.NoneExpired, RequestsOk, RepliesOk;
  }
}
