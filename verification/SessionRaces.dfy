/**
 The two races of refresh and logout do happen: from the empty database, a run of one signup, two refreshes and one
 logout in which every answer is a success and the session is left live, under the token of the first refresh.
 */
module SessionRaces {
  import opened Schema
  import opened Config
  import opened Handlers
  import opened Server
  import opened Revocation
  import Sessions

  /** Who signs up, and the generated values: an account id, a session id and three refresh tokens; two stay unused. */
  datatype Cast = Cast(
    sub: string, mail: string, profile: Profile, id: Id, row: Id, t0: string, t1: string, t2: string,
    spareId: Id, spare: string)

  predicate Sane(c: Cast) {
    && c.id != c.spareId
    && c.t0 != c.t1 && c.t0 != c.t2 && c.t1 != c.t2
    && c.spare != c.t0 && c.spare != c.t1 && c.spare != c.t2
  }

  /** When the first access token is due: 27 minutes later. */
  const LATER := 1620 * 1000

  function Signing(c: Cast): Request {
    OAuthSignup(Google, c.sub, c.mail, c.profile, None)
  }

  function Account(c: Cast): AuthRow {
    AuthRow(Google, c.sub, Some(c.mail))
  }

  function Idle(c: Cast): Fresh {
    Fresh(c.spareId, c.row, c.spare, "")
  }

  function Row(c: Cast, token: string, at: Time): TokenRow {
    TokenRow(c.id, token, None, at + REFRESH_TOKEN_EXPIRY_MS, None, at, 0)
  }

  function Tables(c: Cast, row: TokenRow): Db {
    Db(map[c.id := Account(c)], map[c.id := UserRow(c.profile, 0, 0)], map[], map[c.row := row])
  }

  /** One statement with its answer and the block that follows it, apart from everything else. */
  ghost predicate Step(db: Db, clock: nat, req: Request, at: Point, f: Fresh, db': Db, next: Point) {
    && WellFormed(req) && Fits(req, at) && !at.Replied?
    && var st := StmtAt(req, at);
    && Accepts(db, st) && DbAfter(db, st, clock) == db'
    && Resumable(req, at, Reads(db, st)) && Continue(req, at, Reads(db, st), clock, f) == next
  }

  ghost predicate Drawn(s: State, ids: set<Id>, tokens: set<string>) {
    s.accounts.Keys == ids && s.generated.Keys == tokens
  }

  /** The step, taken by a request among others. */
  lemma Exchange(acts: seq<Action>, s: State, pid: Pid, req: Request, at: Point, f: Fresh, db': Db, next: Point)
    returns (more: seq<Action>, t: State)
    requires Runs(Init(), acts, s) && pid in s.procs && s.procs[pid] == Proc(req, at, None)
    requires Step(s.db, s.clock, req, at, f, db', next) && f.id !in s.accounts && f.token !in s.generated
    ensures Runs(Init(), more, t)
    ensures t.db == db' && t.clock == s.clock && t.procs == s.procs[pid := Proc(req, next, None)]
    ensures t.accounts.Keys == s.accounts.Keys + (if next.InsertAccount? then {next.id} else {})
    ensures t.generated.Keys == s.generated.Keys + (if next.SaveTokens? || next.RefreshRotate? then {next.newToken} else {})
  {
    hide Runs, Continue, Concluded, DbAfter, Accepts, Recorded, Fits, StmtAt, Answers;
    var u := Apply(s, Exec(pid, false));
    t := Apply(u, Resume(pid, f));
    RunsSnoc(Init(), acts, s, Exec(pid, false));
    more := acts + [Exec(pid, false)];
    RunsSnoc(Init(), more, u, Resume(pid, f));
    more := more + [Resume(pid, f)];
  }

  /** A request arrives. */
  lemma Arrive(acts: seq<Action>, s: State, pid: Pid, req: Request, at: Point) returns (more: seq<Action>, t: State)
    requires Runs(Init(), acts, s) && pid !in s.procs && WellFormed(req) && !req.Private? && at == Start(req).at
    ensures Runs(Init(), more, t) && t == s.(procs := s.procs[pid := Proc(req, at, None)])
  {
    hide Runs;
    t := Apply(s, Begin(pid, req));
    RunsSnoc(Init(), acts, s, Begin(pid, req));
    more := acts + [Begin(pid, req)];
  }

  // ---- the signup ----

  function WithAccount(c: Cast): Db {
    Db(map[c.id := Account(c)], map[], map[], map[])
  }

  function WithProfile(c: Cast): Db {
    Db(map[c.id := Account(c)], map[c.id := UserRow(c.profile, 0, 0)], map[], map[])
  }

  function Saving(c: Cast): Point {
    SaveTokens(c.row, Mint(c.id, 0), c.t0, 0)
  }

  const EMPTY := Db(map[], map[], map[], map[])

  lemma AccountStep(c: Cast)
    ensures Step(EMPTY, 0, Signing(c), FindAccount, Idle(c), EMPTY, FindConflict)
  {
    hide ContinueOtp, ContinueSession;
  }

  lemma ConflictStep(c: Cast)
    ensures Step(EMPTY, 0, Signing(c), FindConflict, Idle(c).(id := c.id), EMPTY, InsertAccount(c.id))
  {
    hide ContinueOtp, ContinueSession;
  }

  lemma InsertStep(c: Cast)
    ensures Step(EMPTY, 0, Signing(c), InsertAccount(c.id), Idle(c), WithAccount(c), InsertProfile(c.id))
  {
    hide ContinueOtp, ContinueSession;
  }

  lemma ProfileStep(c: Cast)
    ensures Step(WithAccount(c), 0, Signing(c), InsertProfile(c.id), Idle(c).(token := c.t0), WithProfile(c), Saving(c))
  {
    hide ContinueOtp, ContinueSession;
  }

  lemma SaveStep(c: Cast)
    ensures Step(WithProfile(c), 0, Signing(c), Saving(c), Idle(c), Tables(c, Row(c, c.t0, 0)),
                 Replied(Tokens(Mint(c.id, 0), c.t0)))
  {
    hide ContinueOtp, ContinueSession;
  }

  /** A signup that meets nobody: account, profile, session. */
  lemma SignupRun(c: Cast) returns (acts: seq<Action>, s: State)
    requires Sane(c)
    ensures Runs(Init(), acts, s) && s.clock == 0 && s.procs.Keys == {0} && s.procs[0].at.Replied?
    ensures Drawn(s, {c.id}, {c.t0}) && s.db == Tables(c, Row(c, c.t0, 0))
  {
    hide Runs, Step, WithAccount, WithProfile, Tables, Apply, Enabled;
    var req := Signing(c);
    AccountStep(c);
    ConflictStep(c);
    RunsNone(Init());
    acts, s := Arrive([], Init(), 0, req, FindAccount);
    acts, s := Exchange(acts, s, 0, req, FindAccount, Idle(c), EMPTY, FindConflict);
    acts, s := Exchange(acts, s, 0, req, FindConflict, Idle(c).(id := c.id), EMPTY, InsertAccount(c.id));
    acts, s := SignupRest(acts, s, c);
  }

  lemma SignupRest(acts: seq<Action>, s: State, c: Cast) returns (more: seq<Action>, t: State)
    requires Sane(c) && Runs(Init(), acts, s) && s.db == EMPTY && s.clock == 0 && Drawn(s, {c.id}, {})
    requires s.procs == map[0 := Proc(Signing(c), InsertAccount(c.id), None)]
    ensures Runs(Init(), more, t) && t.clock == 0 && t.procs.Keys == {0} && t.procs[0].at.Replied?
    ensures Drawn(t, {c.id}, {c.t0}) && t.db == Tables(c, Row(c, c.t0, 0))
  {
    hide Runs, Step, WithAccount, WithProfile, Tables, Apply, Enabled, Init;
    var req := Signing(c);
    InsertStep(c);
    ProfileStep(c);
    SaveStep(c);
    more, t := Exchange(acts, s, 0, req, InsertAccount(c.id), Idle(c), WithAccount(c), InsertProfile(c.id));
    more, t := Exchange(more, t, 0, req, InsertProfile(c.id), Idle(c).(token := c.t0), WithProfile(c), Saving(c));
    more, t := Exchange(more, t, 0, req, Saving(c), Idle(c), Tables(c, Row(c, c.t0, 0)), Replied(Tokens(Mint(c.id, 0), c.t0)));
  }

  // ---- two refreshes and a logout of the same session ----

  function Rotating(c: Cast, token: string): Point {
    RefreshRotate(c.row, Row(c, c.t0, 0), token, LATER)
  }

  lemma Found(c: Cast)
    ensures FindToken(map[c.row := Row(c, c.t0, 0)], c.t0) == Some(c.row)
  {
    assert c.row in map[c.row := Row(c, c.t0, 0)];
  }

  lemma FindStep(c: Cast)
    ensures
      var db := Tables(c, Row(c, c.t0, 0));
      Step(db, LATER, Refresh(c.t0), RefreshFind, Idle(c), db, RefreshOwner(c.row, Row(c, c.t0, 0)))
  {
    hide ContinueOtp, ContinueAccount;
    Found(c);
  }

  lemma OwnerStep(c: Cast, token: string)
    ensures
      var db := Tables(c, Row(c, c.t0, 0));
      Step(db, LATER, Refresh(c.t0), RefreshOwner(c.row, Row(c, c.t0, 0)), Idle(c).(token := token), db, Rotating(c, token))
  {
    hide ContinueOtp, ContinueAccount;
  }

  lemma LogoutStep(c: Cast)
    ensures
      var db := Tables(c, Row(c, c.t0, 0));
      Step(db, LATER, Logout(c.t0), LogoutFind, Idle(c), db, LogoutRevoke(LATER))
  {
    hide ContinueOtp, ContinueAccount;
    Found(c);
  }

  /** The session is live and old enough to be refreshed. */
  ghost predicate Ripe(s: State, c: Cast) {
    s.clock == LATER && s.accounts.Keys == {c.id} && s.db == Tables(c, Row(c, c.t0, 0))
  }

  /** A refresh of the session gets as far as sending its UPDATE. */
  lemma RefreshUnderWay(acts: seq<Action>, s: State, c: Cast, pid: Pid, token: string) returns (more: seq<Action>, t: State)
    requires Sane(c) && Runs(Init(), acts, s) && Ripe(s, c) && pid !in s.procs
    requires token !in s.generated && c.spare !in s.generated
    ensures Runs(Init(), more, t) && Ripe(t, c) && t.generated.Keys == s.generated.Keys + {token}
    ensures t.procs == s.procs[pid := Proc(Refresh(c.t0), Rotating(c, token), None)]
  {
    hide Runs, Step, Tables, Apply, Enabled, Init;
    FindStep(c);
    OwnerStep(c, token);
    var req := Refresh(c.t0);
    more, t := Arrive(acts, s, pid, req, RefreshFind);
    more, t := Exchange(more, t, pid, req, RefreshFind, Idle(c), s.db, RefreshOwner(c.row, Row(c, c.t0, 0)));
    more, t := Exchange(more, t, pid, req, RefreshOwner(c.row, Row(c, c.t0, 0)), Idle(c).(token := token), s.db, Rotating(c, token));
  }

  lemma LogoutUnderWay(acts: seq<Action>, s: State, c: Cast, pid: Pid) returns (more: seq<Action>, t: State)
    requires Sane(c) && Runs(Init(), acts, s) && Ripe(s, c) && pid !in s.procs && c.spare !in s.generated
    ensures Runs(Init(), more, t) && Ripe(t, c) && t.generated.Keys == s.generated.Keys
    ensures t.procs == s.procs[pid := Proc(Logout(c.t0), LogoutRevoke(LATER), None)]
  {
    hide Runs, Step, Tables, Apply, Enabled, Init;
    LogoutStep(c);
    var req := Logout(c.t0);
    more, t := Arrive(acts, s, pid, req, LogoutFind);
    more, t := Exchange(more, t, pid, req, LogoutFind, Idle(c), s.db, LogoutRevoke(LATER));
  }

  /** All three have read the live session and sent their UPDATE. */
  lemma AllUnderWay(c: Cast) returns (acts: seq<Action>, s: State)
    requires Sane(c)
    ensures Runs(Init(), acts, s) && Ripe(s, c) && s.generated.Keys == {c.t0, c.t1, c.t2}
    ensures s.procs.Keys == {0, 1, 2, 3} && s.procs[0].at.Replied?
    ensures s.procs[1] == Proc(Refresh(c.t0), Rotating(c, c.t1), None)
    ensures s.procs[2] == Proc(Refresh(c.t0), Rotating(c, c.t2), None)
    ensures s.procs[3] == Proc(Logout(c.t0), LogoutRevoke(LATER), None)
  {
    hide Runs, Tables, Rotating;
    acts, s := SignupRun(c);
    RunsSnoc(Init(), acts, s, Tick(LATER));
    acts := acts + [Tick(LATER)];
    s := Apply(s, Tick(LATER));
    acts, s := RefreshUnderWay(acts, s, c, 1, c.t1);
    acts, s := RefreshUnderWay(acts, s, c, 2, c.t2);
    acts, s := LogoutUnderWay(acts, s, c, 3);
  }

  lemma WinningStep(c: Cast)
    requires Sane(c)
    ensures Step(Tables(c, Row(c, c.t0, 0)), LATER, Refresh(c.t0), Rotating(c, c.t1), Idle(c),
                 Tables(c, Row(c, c.t1, LATER)), Replied(Tokens(Mint(c.id, LATER), c.t1)))
  {
    hide ContinueOtp, ContinueAccount;
  }

  lemma LosingStep(c: Cast)
    requires Sane(c)
    ensures
      var db := Tables(c, Row(c, c.t1, LATER));
      Step(db, LATER, Refresh(c.t0), Rotating(c, c.t2), Idle(c), db, Replied(Tokens(Mint(c.id, LATER), c.t2)))
  {
    hide ContinueOtp, ContinueAccount;
    var tokens := map[c.row := Row(c, c.t1, LATER)];
    assert TokensAfter(tokens, StmtAt(Refresh(c.t0), Rotating(c, c.t2)), LATER) == tokens;
  }

  lemma MissingStep(c: Cast)
    requires Sane(c)
    ensures
      var db := Tables(c, Row(c, c.t1, LATER));
      Step(db, LATER, Logout(c.t0), LogoutRevoke(LATER), Idle(c), db, Replied(LoggedOut))
  {
    hide ContinueOtp, ContinueAccount;
    var tokens := map[c.row := Row(c, c.t1, LATER)];
    assert TokensAfter(tokens, StmtAt(Logout(c.t0), LogoutRevoke(LATER)), LATER) == tokens;
  }

  /**
   The first refresh wins; the logout then misses the session and answers success, and the second refresh is
   answered a token that was never stored and is dead.
   */
  lemma BothRacesAreLost(c: Cast) returns (t: State)
    requires Sane(c)
    ensures Reachable(t) && t.procs.Keys == {0, 1, 2, 3}
    ensures t.procs[1].at == Replied(Tokens(Mint(c.id, LATER), c.t1))
    ensures t.procs[2].at == Replied(Tokens(Mint(c.id, LATER), c.t2)) && Dead(t, c.t2)
    ensures t.procs[3].at == Replied(LoggedOut)
    ensures t.db.tokens == map[c.row := Row(c, c.t1, LATER)]
  {
    hide Runs, Step, Rotating, Dead;
    WinningStep(c);
    LosingStep(c);
    MissingStep(c);
    var db := Tables(c, Row(c, c.t1, LATER));
    var acts, s := AllUnderWay(c);
    acts, s := Exchange(acts, s, 1, Refresh(c.t0), Rotating(c, c.t1), Idle(c), db, Replied(Tokens(Mint(c.id, LATER), c.t1)));
    acts, s := Exchange(acts, s, 3, Logout(c.t0), LogoutRevoke(LATER), Idle(c), db, Replied(LoggedOut));
    acts, s := Exchange(acts, s, 2, Refresh(c.t0), Rotating(c, c.t2), Idle(c), db, Replied(Tokens(Mint(c.id, LATER), c.t2)));
    t := s;
    NeverStored(acts, t, c);
  }

  lemma NeverStored(acts: seq<Action>, s: State, c: Cast)
    requires Sane(c) && Runs(Init(), acts, s) && c.t2 in s.generated
    requires s.db.tokens == map[c.row := Row(c, c.t1, LATER)]
    requires forall pid :: pid in s.procs ==> s.procs[pid].at.Replied?
    ensures Dead(s, c.t2)
  {
    hide Runs;
    assert Reachable(s);
    Sessions.ReachableInv(s);
    GeneratedBySomeone(s, c.t2);
  }

  lemma GeneratedBySomeone(s: State, token: string)
    requires Sessions.Inv(s) && token in s.generated
    ensures s.generated[token] in s.procs
  {
    hide Sessions.ReadersOk, Sessions.SwapsOnce, Sessions.SwapsGone, Sessions.RateKept;
  }
}
