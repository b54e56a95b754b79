/**
 The life of one session, seen by a client reduced to its phases: it signs in, refreshes when its access token is due,
 and stores what it is answered. Every other handler interleaves freely with its requests on the server. `EndToEnd`
 shows that the job-queue client behaves like this one.

 Taken as given, and visible in `Unhindered` and `Permitted`: the client's own statements do not fail and its replies
 arrive; nobody else presents one of its refresh tokens and it does not log out; its clock runs at most `skew` ms ahead
 of the server's, its session is inserted at most `delay` ms after the access token was signed, and the two add up to
 at most 1319001 ms; it is never idle for 30 days.
 */
module Lifeline {
  import opened Schema
  import opened Config
  import opened Handlers
  import opened Server
  import opened Sessions
  import Accounts
  import Revocation
  import Client

  const MARGIN_MS := 1319 * 1000 + 1

  /** A signed token as the client judges it. */
  predicate Due(access: Access, clientMs: Time) {
    Client.NeedsRefresh(Client.Jwt(access.iat, access.exp), clientMs)
  }

  datatype Phase =
    | SignedOut
    | SigningIn(pid: Pid)
    | Idle
    | Refreshing(pid: Pid)
    | Broken(code: ErrorCode)

  /**
   `session` is the row of the client's session, `renewed` the server time at which its expiry was last computed, and
   `ours` are the client's requests.
   */
  datatype World = World(
    server: State, phase: Phase, access: Access, refresh: string, session: Id, renewed: Time, ours: set<Pid>)

  datatype Move =
    | Serve(a: Action)
    | SignIn(pid: Pid, req: Request)
    | Ask(pid: Pid, clientMs: Time)
    | Receive

  ghost predicate IsOurs(s: State, ours: set<Pid>, token: string) {
    token in s.generated && s.generated[token] in ours
  }

  predicate Presents(req: Request, token: string) {
    req == Refresh(token) || req == Logout(token)
  }

  /** What the server may do next, as far as this client's requests are concerned. */
  ghost predicate Unhindered(s: State, ours: set<Pid>, renewed: Time, a: Action, delay: nat) {
    && Enabled(s, a)
    && (a.Begin? ==> a.pid !in ours && forall token :: Presents(a.req, token) ==> !IsOurs(s, ours, token))
    && (a.Exec? && a.pid in ours ==> !a.fault)
    && (a.Exec? && a.pid in ours && s.procs[a.pid].at.SaveTokens? ==> s.clock <= s.procs[a.pid].at.at + delay)
    && (a.Resume? && a.pid in ours ==> forall q :: q in s.procs && q !in ours ==> !Presents(s.procs[q].req, a.f.token))
    && (a.Resume? && a.pid in ours && s.procs[a.pid].at.RefreshFind? ==> s.clock <= renewed + REFRESH_TOKEN_EXPIRY_MS)
  }

  ghost predicate Permitted(w: World, m: Move, skew: nat, delay: nat) {
    var s := w.server;
    match m
    case Serve(a) => Unhindered(s, w.ours, w.renewed, a, delay)
    case SignIn(pid, req) => w.phase.SignedOut? && SignsIn(req) && Enabled(s, Begin(pid, req))
    case Ask(pid, clientMs) =>
      && w.phase.Idle? && Enabled(s, Begin(pid, Refresh(w.refresh)))
      && Due(w.access, clientMs) && clientMs <= s.clock + skew
    case Receive =>
      (w.phase.SigningIn? || w.phase.Refreshing?) && w.phase.pid in s.procs && s.procs[w.phase.pid].at.Replied?
  }

  /** When the expiry of the session was computed last, after a server step. */
  ghost function RenewedAfter(s: State, ours: set<Pid>, renewed: Time, a: Action): Time
    requires Enabled(s, a)
  {
    if a.Resume? && a.pid in ours && Writes(Apply(s, a).procs[a.pid].at) then s.clock else renewed
  }

  /** The row a sign-in of the client is about to insert, after a server step. */
  ghost function SessionAfter(s: State, ours: set<Pid>, session: Id, a: Action): Id
    requires Enabled(s, a)
  {
    if a.Resume? && a.pid in ours && Apply(s, a).procs[a.pid].at.SaveTokens? then Apply(s, a).procs[a.pid].at.row
    else session
  }

  ghost function Moved(w: World, m: Move, skew: nat, delay: nat): World
    requires Permitted(w, m, skew, delay)
  {
    var s := w.server;
    match m
    case Serve(a) =>
      w.(server := Apply(s, a), renewed := RenewedAfter(s, w.ours, w.renewed, a), session := SessionAfter(s, w.ours, w.session, a))
    case SignIn(pid, req) =>
      w.(server := Apply(s, Begin(pid, req)), phase := SigningIn(pid), ours := w.ours + {pid})
    case Ask(pid, _) =>
      w.(server := Apply(s, Begin(pid, Refresh(w.refresh))), phase := Refreshing(pid), ours := w.ours + {pid})
    case Receive =>
      match s.procs[w.phase.pid].at.reply
      case Tokens(access, refresh) => w.(phase := Idle, access := access, refresh := refresh)
      case Error(code) => w.(phase := if w.phase.Refreshing? then Broken(code) else SignedOut)
      case _ => w.(phase := SignedOut)
  }

  ghost predicate Lives(w: World, moves: seq<Move>, v: World, skew: nat, delay: nat)
    decreases |moves|
  {
    if moves == [] then w == v
    else Permitted(w, moves[0], skew, delay) && Lives(Moved(w, moves[0], skew, delay), moves[1..], v, skew, delay)
  }

  // ---- the timing ----

  /** No token signed at `issue` and written at `write` can be due on the client and still cooling on the server. */
  lemma DueMeansCooled(issue: Time, write: Time, clientMs: Time, check: Time, sub: Id, skew: nat, delay: nat)
    requires write <= issue + delay && Due(Mint(sub, issue), clientMs) && clientMs <= check + skew
    requires skew + delay <= MARGIN_MS
    ensures !RecentlyRefreshed(write, check)
  {
  }

  /** The margin is exact: with one more millisecond of skew or delay some due token is still rate limited. */
  lemma MarginIsExact(sub: Id, skew: nat, delay: nat)
    ensures skew + delay <= MARGIN_MS <==>
      forall issue: nat, write: nat, clientMs: nat, check: nat ::
        issue <= write <= issue + delay && write <= check && Due(Mint(sub, issue), clientMs) && clientMs <= check + skew
        ==> !RecentlyRefreshed(write, check)
  {
    if skew + delay > MARGIN_MS {
      var issue, clientMs := 999, 1620 * 1000;
      var write := issue + delay;
      var check := if clientMs - skew < write then write else clientMs - skew;
      assert issue <= write <= issue + delay && write <= check && Due(Mint(sub, issue), clientMs) && clientMs <= check + skew;
      assert RecentlyRefreshed(write, check);
    }
  }

  // ---- the invariant ----

  ghost predicate LiveRow(row: TokenRow, token: string, usedBy: Time, expires: Time) {
    row.token == token && row.revokedAt.None? && row.lastUsedAt <= usedBy && row.expiresAt == expires
  }

  /** Row r is unrevoked and holds the token, last used no later than `usedBy`. */
  ghost predicate Live(tokens: map<Id, TokenRow>, r: Id, token: string, usedBy: Time, expires: Time) {
    r in tokens && LiveRow(tokens[r], token, usedBy, expires)
  }

  function UsedBy(access: Access, delay: nat): Time {
    access.iat * 1000 + 999 + delay
  }

  /** A session the client can rely on: one of its own strings, live on the server. */
  ghost predicate SessionOk(w: World, access: Access, refresh: string, delay: nat) {
    && IsOurs(w.server, w.ours, refresh)
    && access.exp == access.iat + ACCESS_TOKEN_EXPIRY_S
    && Live(w.server.db.tokens, w.session, refresh, UsedBy(access, delay), w.renewed + REFRESH_TOKEN_EXPIRY_MS)
  }

  ghost predicate SigningOk(w: World, p: Proc, delay: nat) {
    match p.at
    case SaveTokens(row, access, newToken, at) =>
      && IsOurs(w.server, w.ours, newToken) && access == Mint(access.sub, at) && w.renewed == at && w.session == row
      && (p.answer == Some(Acknowledged) ==>
            Live(w.server.db.tokens, w.session, newToken, at + delay, at + REFRESH_TOKEN_EXPIRY_MS))
    case Replied(Tokens(access, refresh)) => SessionOk(w, access, refresh, delay)
    case _ => true
  }

  ghost predicate RefreshOk(w: World, p: Proc, delay: nat) {
    match p.at
    case RefreshFind =>
      && SessionOk(w, w.access, w.refresh, delay)
      && (p.answer.Some? ==>
            && p.answer.value.TokenAnswer? && p.answer.value.token.Some?
            && LiveRow(p.answer.value.token.value.1, w.refresh, UsedBy(w.access, delay), w.renewed + REFRESH_TOKEN_EXPIRY_MS))
    case RefreshOwner(_, found) =>
      && SessionOk(w, w.access, w.refresh, delay)
      && LiveRow(found, w.refresh, UsedBy(w.access, delay), w.renewed + REFRESH_TOKEN_EXPIRY_MS)
      && (p.answer.Some? ==> p.answer.value.AuthAnswer? && p.answer.value.auth.Some?)
    case RefreshRotate(_, found, newToken, at) =>
      && IsOurs(w.server, w.ours, w.refresh) && IsOurs(w.server, w.ours, newToken) && w.renewed == at <= w.server.clock
      && (p.answer.None? ==> Live(w.server.db.tokens, w.session, w.refresh, UsedBy(w.access, delay), found.expiresAt))
      && (p.answer.Some? ==>
            p.answer.value.Acknowledged? && Live(w.server.db.tokens, w.session, newToken, at, at + REFRESH_TOKEN_EXPIRY_MS))
    case Replied(Tokens(access, refresh)) => SessionOk(w, access, refresh, delay)
    case _ => false
  }

  /** By the server's clock the access token has been due since the client asked. */
  ghost predicate Asked(w: World, skew: nat) {
    (w.access.iat + 1620) * 1000 <= w.server.clock + skew
  }

  ghost predicate PhaseOk(w: World, skew: nat, delay: nat) {
    match w.phase
    case SignedOut => true
    case SigningIn(pid) =>
      pid in w.ours && pid in w.server.procs && SignsIn(w.server.procs[pid].req) && SigningOk(w, w.server.procs[pid], delay)
    case Idle => SessionOk(w, w.access, w.refresh, delay)
    case Refreshing(pid) =>
      && pid in w.ours && pid in w.server.procs && w.server.procs[pid].req == Refresh(w.refresh)
      && Asked(w, skew) && RefreshOk(w, w.server.procs[pid], delay)
    case Broken(_) => false
  }

  ghost predicate Current(w: World, pid: Pid) {
    (w.phase.SigningIn? || w.phase.Refreshing?) && w.phase.pid == pid
  }

  ghost predicate OursOk(w: World) {
    forall q :: q in w.ours ==> q in w.server.procs && (Current(w, q) || w.server.procs[q].at.Replied?)
  }

  /** Nobody else presents a token of ours. */
  ghost predicate Secret(w: World) {
    forall q, token :: q in w.server.procs && q !in w.ours && Presents(w.server.procs[q].req, token) ==> !IsOurs(w.server, w.ours, token)
  }

  ghost predicate Inv(w: World, skew: nat, delay: nat) {
    Revocation.Good(w.server) && Secret(w) && OursOk(w) && PhaseOk(w, skew, delay)
  }

  // ---- steps of others ----

  /** Statements of requests that do not present the token leave its live row alone. */
  lemma LiveThroughExec(s: State, s': State, pid: Pid, r: Id, token: string, usedBy: Time, expires: Time)
    requires Executed(s, s', pid) && Live(s.db.tokens, r, token, usedBy, expires) && !Presents(s.procs[pid].req, token)
    ensures Live(s'.db.tokens, r, token, usedBy, expires)
  {
    assert RowView(s.db.tokens, s.procs[pid], s.clock, r, s'.db.tokens[r]);
  }

  /** What a step of others cannot take from the client. */
  ghost predicate Untouched(w: World, v: World) {
    && v.phase == w.phase && v.access == w.access && v.refresh == w.refresh && v.ours == w.ours
    && v.renewed == w.renewed && v.session == w.session
    && w.server.clock <= v.server.clock
    && (forall q :: q in w.ours && q in w.server.procs ==> q in v.server.procs && v.server.procs[q] == w.server.procs[q])
    && (forall token :: IsOurs(w.server, w.ours, token) ==> IsOurs(v.server, v.ours, token))
    && (forall token, usedBy, expires :: IsOurs(w.server, w.ours, token) && Live(w.server.db.tokens, w.session, token, usedBy, expires) ==>
          Live(v.server.db.tokens, v.session, token, usedBy, expires))
  }

  lemma UntouchedKeeps(w: World, v: World, skew: nat, delay: nat)
    requires Untouched(w, v) && OursOk(w) && PhaseOk(w, skew, delay)
    ensures OursOk(v) && PhaseOk(v, skew, delay)
  {
    hide IsOurs, Live;
  }

  lemma StrangerExec(w: World, pid: Pid, fault: bool, skew: nat, delay: nat)
    requires Inv(w, skew, delay) && Enabled(w.server, Exec(pid, fault)) && pid !in w.ours
    ensures
      var v := w.(server := Execute(w.server, pid, fault));
      Untouched(w, v) && Secret(v)
  {
    hide Accounts.Inv, Sessions.Inv, PhaseOk, Live, Shaped, StmtAt, Accepts, DbAfter, Reads, Recorded;
    var s, s' := w.server, Execute(w.server, pid, fault);
    ExecIsExecuted(s, pid, fault);
    forall token, usedBy, expires | IsOurs(w.server, w.ours, token) && Live(s.db.tokens, w.session, token, usedBy, expires)
      ensures Live(s'.db.tokens, w.session, token, usedBy, expires)
    {
      LiveThroughExec(s, s', pid, w.session, token, usedBy, expires);
    }
    SecretKept(w, w.(server := s'));
  }

  lemma SecretKept(w: World, v: World)
    requires Secret(w) && v.ours == w.ours
    requires forall q :: q in v.server.procs && q !in v.ours ==> q in w.server.procs && v.server.procs[q].req == w.server.procs[q].req
    requires forall token :: IsOurs(v.server, v.ours, token) ==> IsOurs(w.server, w.ours, token)
    ensures Secret(v)
  {
    hide IsOurs;
  }

  lemma StrangerResume(w: World, pid: Pid, f: Fresh, skew: nat, delay: nat)
    requires Inv(w, skew, delay) && Enabled(w.server, Resume(pid, f)) && pid !in w.ours
    ensures
      var v := w.(server := Proceed(w.server, pid, f));
      Untouched(w, v) && Secret(v)
  {
    hide Revocation.Good, PhaseOk, Live, Shaped, Continue, Concluded;
    SecretKept(w, w.(server := Proceed(w.server, pid, f)));
  }

  lemma StrangerMove(w: World, a: Action, skew: nat, delay: nat)
    requires Inv(w, skew, delay) && Permitted(w, Serve(a), skew, delay) && (a.Tick? || a.pid !in w.ours)
    ensures
      var v := w.(server := Apply(w.server, a));
      Untouched(w, v) && Secret(v)
  {
    hide Revocation.Good, PhaseOk, Live, Shaped;
    match a
    case Tick(_) => SecretKept(w, w.(server := Apply(w.server, a)));
    case Begin(pid, req) =>
      var v := w.(server := Apply(w.server, a));
      assert v.server.procs == w.server.procs[pid := Start(req)];
      assert forall token :: IsOurs(v.server, v.ours, token) == IsOurs(w.server, w.ours, token);
    case Exec(pid, fault) => StrangerExec(w, pid, fault, skew, delay);
    case Resume(pid, f) => StrangerResume(w, pid, f, skew, delay);
  }

  // ---- steps of the client's own request ----

  lemma LiveWeaker(tokens: map<Id, TokenRow>, r: Id, token: string, usedBy: Time, usedBy': Time, expires: Time)
    requires Live(tokens, r, token, usedBy, expires) && usedBy <= usedBy'
    ensures Live(tokens, r, token, usedBy', expires)
  {
  }

  lemma OwnInsert(w: World, pid: Pid, skew: nat, delay: nat)
    requires Inv(w, skew, delay) && w.phase == SigningIn(pid) && Permitted(w, Serve(Exec(pid, false)), skew, delay)
    ensures
      var v := w.(server := Execute(w.server, pid, false));
      SigningOk(v, v.server.procs[pid], delay)
  {
    hide Revocation.Good, Secret, OursOk, Answers;
    var s, p := w.server, w.server.procs[pid];
    if p.at.SaveTokens? && Accepts(s.db, StmtOf(p)) {
      var t := Execute(s, pid, false);
      assert LiveRow(t.db.tokens[p.at.row], p.at.newToken, p.at.at + delay, p.at.at + REFRESH_TOKEN_EXPIRY_MS);
    }
  }

  lemma FoundByToken(s: State, r: Id)
    requires Revocation.Good(s) && r in s.db.tokens
    ensures FindToken(s.db.tokens, s.db.tokens[r].token) == Some(r)
  {
    hide Sessions.Inv, Accounts.ProcsOk;
  }

  lemma OwnFind(w: World, pid: Pid, skew: nat, delay: nat)
    requires Inv(w, skew, delay) && w.phase == Refreshing(pid) && Permitted(w, Serve(Exec(pid, false)), skew, delay)
    requires w.server.procs[pid].at.RefreshFind?
    ensures
      var v := w.(server := Execute(w.server, pid, false));
      RefreshOk(v, v.server.procs[pid], delay)
  {
    hide Secret, OursOk, Answers, Revocation.Good;
    var s := w.server;
    FoundByToken(s, w.session);
  }

  lemma OwnOwner(w: World, pid: Pid, skew: nat, delay: nat)
    requires Inv(w, skew, delay) && w.phase == Refreshing(pid) && Permitted(w, Serve(Exec(pid, false)), skew, delay)
    requires w.server.procs[pid].at.RefreshOwner?
    ensures
      var v := w.(server := Execute(w.server, pid, false));
      RefreshOk(v, v.server.procs[pid], delay)
  {
    hide Secret, OursOk, Answers, Sessions.Inv, Accounts.OrphansOwed;
    var s := w.server;
    assert Accounts.ProcOk(s.accounts, s.db.auth.Keys, s.db.users.Keys, pid, s.procs[pid]);
  }

  lemma OwnRotate(w: World, pid: Pid, skew: nat, delay: nat)
    requires Inv(w, skew, delay) && w.phase == Refreshing(pid) && Permitted(w, Serve(Exec(pid, false)), skew, delay)
    requires w.server.procs[pid].at.RefreshRotate?
    ensures
      var v := w.(server := Execute(w.server, pid, false));
      RefreshOk(v, v.server.procs[pid], delay)
  {
    hide Secret, OursOk, Shaped, Accounts.Inv, ReadersOk, SwapsGone, SwapsOnce, RateKept, DbAfter, Accepts, Recorded, Reads, StmtAt;
    var s, p := w.server, w.server.procs[pid];
    Revocation.RotationLands(s, pid, w.refresh, w.session);
    assert LiveRow(Execute(s, pid, false).db.tokens[w.session], p.at.newToken, p.at.at, p.at.at + REFRESH_TOKEN_EXPIRY_MS);
  }

  lemma OwnExec(w: World, pid: Pid, skew: nat, delay: nat)
    requires Inv(w, skew, delay) && pid in w.ours && Permitted(w, Serve(Exec(pid, false)), skew, delay)
    ensures
      var v := w.(server := Execute(w.server, pid, false));
      Secret(v) && OursOk(v) && PhaseOk(v, skew, delay)
  {
    hide Revocation.Good, Shaped, SigningOk, StmtAt, Accepts, DbAfter, Reads, Recorded, Live;
    var v := w.(server := Execute(w.server, pid, false));
    assert Current(w, pid);
    SecretKept(w, v);
    if w.phase.SigningIn? {
      OwnInsert(w, pid, skew, delay);
    } else {
      var at := w.server.procs[pid].at;
      if at.RefreshFind? {
        OwnFind(w, pid, skew, delay);
      } else if at.RefreshOwner? {
        OwnOwner(w, pid, skew, delay);
      } else if at.RefreshRotate? {
        OwnRotate(w, pid, skew, delay);
      }
    }
  }

  /** The world after the client's request has run one block. */
  ghost function Resumed(w: World, pid: Pid, f: Fresh): World
    requires Enabled(w.server, Resume(pid, f))
  {
    var t := Proceed(w.server, pid, f);
    w.(server := t,
       renewed := if Writes(t.procs[pid].at) then w.server.clock else w.renewed,
       session := if t.procs[pid].at.SaveTokens? then t.procs[pid].at.row else w.session)
  }

  lemma OwnSigningBlock(w: World, pid: Pid, f: Fresh, skew: nat, delay: nat)
    requires Inv(w, skew, delay) && w.phase == SigningIn(pid) && Permitted(w, Serve(Resume(pid, f)), skew, delay)
    ensures SigningOk(Resumed(w, pid, f), Resumed(w, pid, f).server.procs[pid], delay)
  {
    hide Revocation.Good, Secret, OursOk, Concluded, Live, ContinueOtp, ContinueSession;
    var p, v := w.server.procs[pid], Resumed(w, pid, f);
    assert !SessionPoint(p.at);
    if p.at.SaveTokens? && p.answer == Some(Acknowledged) {
      LiveWeaker(w.server.db.tokens, w.session, p.at.newToken, p.at.at + delay, UsedBy(p.at.access, delay), p.at.at + REFRESH_TOKEN_EXPIRY_MS);
    } else if OtpPoint(p.at) {
      OtpNextIsQuiet(p, w.server.clock, f);
    }
  }

  lemma OtpNextIsQuiet(p: Proc, now: Time, f: Fresh)
    requires Shaped(p) && p.answer.Some? && OtpPoint(p.at)
    ensures
      var next := Continue(p.req, p.at, p.answer.value, now, f);
      !next.SaveTokens? && (next.Replied? ==> !next.reply.Tokens?)
  {
  }

  lemma OwnRefreshBlock(w: World, pid: Pid, f: Fresh, skew: nat, delay: nat)
    requires Inv(w, skew, delay) && w.phase == Refreshing(pid) && Permitted(w, Serve(Resume(pid, f)), skew, delay)
    requires skew + delay <= MARGIN_MS
    ensures RefreshOk(Resumed(w, pid, f), Resumed(w, pid, f).server.procs[pid], delay)
  {
    hide Revocation.Good, Secret, OursOk, Concluded, Live, ContinueOtp, ContinueAccount;
    var p, s := w.server.procs[pid], w.server;
    if p.at.RefreshRotate? {
      LiveWeaker(s.db.tokens, w.session, p.at.newToken, p.at.at, UsedBy(Mint(p.at.found.authId, s.clock), delay), p.at.at + REFRESH_TOKEN_EXPIRY_MS);
    }
  }

  lemma OwnSecret(w: World, pid: Pid, f: Fresh, skew: nat, delay: nat)
    requires Secret(w) && pid in w.ours && Permitted(w, Serve(Resume(pid, f)), skew, delay)
    ensures Secret(Resumed(w, pid, f))
  {
    hide Continue, Concluded, Fits, StmtAt, Answers;
    var v := Resumed(w, pid, f);
    forall q, token | q in v.server.procs && q !in v.ours && Presents(v.server.procs[q].req, token)
      ensures !IsOurs(v.server, v.ours, token)
    {
      assert !IsOurs(w.server, w.ours, token);
    }
  }

  lemma OwnResume(w: World, pid: Pid, f: Fresh, skew: nat, delay: nat)
    requires Inv(w, skew, delay) && pid in w.ours && Permitted(w, Serve(Resume(pid, f)), skew, delay)
    requires skew + delay <= MARGIN_MS
    ensures
      var v := Resumed(w, pid, f);
      Secret(v) && OursOk(v) && PhaseOk(v, skew, delay)
  {
    hide Revocation.Good, SigningOk, RefreshOk, Continue, Concluded, Live, Secret;
    var v := Resumed(w, pid, f);
    OwnSecret(w, pid, f, skew, delay);
    assert Current(w, pid);
    if w.phase.SigningIn? {
      OwnSigningBlock(w, pid, f, skew, delay);
    } else {
      OwnRefreshBlock(w, pid, f, skew, delay);
    }
  }

  // ---- the theorem ----

  lemma ServeKeeps(w: World, a: Action, skew: nat, delay: nat)
    requires Inv(w, skew, delay) && Permitted(w, Serve(a), skew, delay) && skew + delay <= MARGIN_MS
    ensures Inv(Moved(w, Serve(a), skew, delay), skew, delay)
  {
    hide Revocation.Good, PhaseOk, Secret, OursOk, Execute, Proceed, Untouched, Shaped;
    Revocation.StepGood(w.server, a);
    if a.Tick? || a.pid !in w.ours {
      StrangerMove(w, a, skew, delay);
      UntouchedKeeps(w, w.(server := Apply(w.server, a)), skew, delay);
    } else if a.Exec? {
      OwnExec(w, a.pid, skew, delay);
    } else {
      OwnResume(w, a.pid, a.f, skew, delay);
    }
  }

  lemma ReceiveKeeps(w: World, skew: nat, delay: nat)
    requires Inv(w, skew, delay) && Permitted(w, Receive, skew, delay)
    ensures Inv(Moved(w, Receive, skew, delay), skew, delay)
  {
    hide Revocation.Good, Live, Shaped, Enabled;
    SecretKept(w, Moved(w, Receive, skew, delay));
  }

  lemma StartKeeps(w: World, m: Move, skew: nat, delay: nat)
    requires Inv(w, skew, delay) && Permitted(w, m, skew, delay) && (m.SignIn? || m.Ask?)
    ensures Inv(Moved(w, m, skew, delay), skew, delay)
  {
    hide Revocation.Good, Live, Shaped;
    var v := Moved(w, m, skew, delay);
    var req := if m.SignIn? then m.req else Refresh(w.refresh);
    Revocation.StepGood(w.server, Begin(m.pid, req));
    GeneratorsStarted(w.server);
    assert v.server.procs == w.server.procs[m.pid := Start(req)];
    assert forall token :: IsOurs(v.server, v.ours, token) ==> IsOurs(w.server, w.ours, token);
  }

  lemma GeneratorsStarted(s: State)
    requires Revocation.Good(s)
    ensures forall token :: token in s.generated ==> s.generated[token] in s.procs
  {
    hide Accounts.Inv;
  }

  lemma {:induction false} LifeKeeps(w: World, moves: seq<Move>, v: World, skew: nat, delay: nat)
    requires Inv(w, skew, delay) && Lives(w, moves, v, skew, delay) && skew + delay <= MARGIN_MS
    ensures Inv(v, skew, delay)
    decreases |moves|
  {
    hide Inv, Permitted, Moved;
    if moves != [] {
      if moves[0].Serve? {
        ServeKeeps(w, moves[0].a, skew, delay);
      } else {
        if moves[0].Receive? {
          ReceiveKeeps(w, skew, delay);
        } else {
          StartKeeps(w, moves[0], skew, delay);
        }
      }
      LifeKeeps(Moved(w, moves[0], skew, delay), moves[1..], v, skew, delay);
    }
  }

  ghost predicate Begins(w: World) {
    Reachable(w.server) && w.phase.SignedOut? && w.ours == {}
  }

  /**
   Whatever else the server does, no refresh of this client is ever refused, and whenever it is not waiting for an
   answer, the refresh token it stores is the token of its own unrevoked session row.
   */
  lemma NoRefreshIsRefused(w: World, moves: seq<Move>, v: World, skew: nat, delay: nat)
    requires Begins(w) && Lives(w, moves, v, skew, delay) && skew + delay <= MARGIN_MS
    ensures !v.phase.Broken?
    ensures v.phase.Idle? ==>
      && v.session in v.server.db.tokens && v.server.db.tokens[v.session].token == v.refresh
      && v.server.db.tokens[v.session].revokedAt.None?
    ensures v.phase.Refreshing? && v.phase.pid in v.server.procs && v.server.procs[v.phase.pid].at.Replied? ==>
      v.server.procs[v.phase.pid].at.reply.Tokens?
  {
    hide Reachable, Lives, Revocation.Good, Secret, OursOk;
    BeginsWell(w, skew, delay);
    LifeKeeps(w, moves, v, skew, delay);
  }

  lemma BeginsWell(w: World, skew: nat, delay: nat)
    requires Begins(w)
    ensures Inv(w, skew, delay)
  {
    hide Reachable, Accounts.Inv, Sessions.Inv;
    Sessions.ReachableInv(w.server);
  }
}
