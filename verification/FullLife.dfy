/**
 The end-to-end theorem speaks of something: a life in which a user signs up, a request made 27 minutes later finds its
 token due, the refresh is served by the three statements of its handler, and the waiting request goes out with the new
 access token. Client and server clocks agree here, and nothing takes any time.
 */
module FullLife {
  import opened Schema
  import opened Config
  import opened Handlers
  import S = Server
  import C = Client
  import L = Lifeline
  import opened SessionRaces
  import opened EndToEnd

  const EXACT := Bounds(0, 0, 0)
  const HAD := C.Jwt(0, 1800)
  const GOT := C.Jwt(1620, 3420)

  function App(store: C.Store, promise: Option<nat>, promises: seq<C.Promise>, calls: seq<C.Call>, queue: seq<C.Job>, now: int): C.State {
    C.State(store, promise, promises, calls, queue, 0, now)
  }

  function Holding(access: C.Jwt, refresh: string, loading: bool): C.Store {
    C.Store(Some(access), Some(refresh), true, loading, false)
  }

  function Asker(status: C.Status, header: C.Header): C.Call {
    C.Call(C.PrivateCall, false, false, if status.Sent? then 1 else 0, header, status)
  }

  function Refresher(c: Cast, status: C.Status): C.Call {
    C.Call(C.RefreshCall(0, c.t0), false, false, if status.Queued? then 0 else 1, C.NoHeader, status)
  }

  // ---- lives, step by step ----

  lemma {:induction false} LivesConcat(w: World, xs: seq<Move>, v: World, ys: seq<Move>, u: World)
    requires Lives(w, xs, v, EXACT) && Lives(v, ys, u, EXACT)
    ensures Lives(w, xs + ys, u, EXACT)
    decreases |xs|
  {
    hide Permitted, Moved;
    if xs == [] {
      assert xs + ys == ys;
    } else {
      LivesConcat(Moved(w, xs[0], EXACT), xs[1..], v, ys, u);
      assert (xs + ys)[1..] == xs[1..] + ys;
    }
  }

  lemma Then(w: World, moves: seq<Move>, v: World, m: Move) returns (more: seq<Move>, u: World)
    requires Lives(w, moves, v, EXACT) && Permitted(v, m, EXACT)
    ensures Lives(w, more, u, EXACT) && u == Moved(v, m, EXACT)
  {
    hide Permitted, Moved;
    u := Moved(v, m, EXACT);
    more := moves + [m];
    assert [m][1..] == [];
    assert Lives(v, [m], u, EXACT);
    LivesConcat(w, moves, v, [m], u);
  }

  /** All requests are the client's own; the server side is what the cast needs. */
  ghost predicate Alone(w: World, clock: nat, db: Db, ids: set<Id>, tokens: set<string>) {
    && w.server.procs.Keys == w.ours && w.server.clock == clock && w.server.db == db && Drawn(w.server, ids, tokens)
  }

  /** A statement of one of the client's requests, with the block that follows. */
  lemma Exchanged(w: World, moves: seq<Move>, v: World, pid: S.Pid, req: Request, at: Point, f: Fresh, db': Db, next: Point)
    returns (more: seq<Move>, u: World)
    requires Lives(w, moves, v, EXACT) && v.server.procs.Keys == v.ours && pid in v.ours && v.server.procs[pid] == Proc(req, at, None)
    requires Step(v.server.db, v.server.clock, req, at, f, db', next) && f.id !in v.server.accounts && f.token !in v.server.generated
    requires at.SaveTokens? ==> v.server.clock == at.at
    requires at.RefreshFind? ==> v.server.clock <= v.renewed + REFRESH_TOKEN_EXPIRY_MS
    ensures Lives(w, more, u, EXACT)
    ensures u == v.(server := u.server, renewed := u.renewed, session := u.session)
    ensures u.server.db == db' && u.server.clock == v.server.clock
    ensures u.server.procs == v.server.procs[pid := Proc(req, next, None)] && u.server.procs.Keys == u.ours
    ensures u.server.accounts.Keys == v.server.accounts.Keys + (if next.InsertAccount? then {next.id} else {})
    ensures u.server.generated.Keys ==
      v.server.generated.Keys + (if next.SaveTokens? || next.RefreshRotate? then {next.newToken} else {})
    ensures u.renewed == if next.SaveTokens? || next.RefreshRotate? then v.server.clock else v.renewed
  {
    hide Lives, Continue, S.Concluded, DbAfter, Accepts, S.Recorded, Fits, StmtAt, Answers;
    var x: World;
    more, x := Then(w, moves, v, Serve(S.Exec(pid, false)));
    more, u := Then(w, more, x, Serve(S.Resume(pid, f)));
  }

  lemma LivesNone(w: World)
    ensures Lives(w, [], w, EXACT)
  {
  }

  // ---- the signup ----

  function Newborn(c: Cast): World {
    World(S.Init(), App(C.CLEARED, None, [], [], [], 0), None, map[], {}, c.row, 0, 0)
  }

  /** The signup has been answered; the app does not know yet. */
  lemma SignsUp(c: Cast) returns (moves: seq<Move>, v: World)
    requires Sane(c)
    ensures Begins(Newborn(c)) && Lives(Newborn(c), moves, v, EXACT)
    ensures Alone(v, 0, Tables(c, Row(c, c.t0, 0)), {c.id}, {c.t0}) && v.ours == {0} && v.renewed == 0
    ensures v.server.procs[0] == Proc(Signing(c), Replied(Tokens(Mint(c.id, 0), c.t0)), None)
    ensures v.client == App(C.CLEARED, None, [], [], [], 0) && v.signing == Some(0) && v.requests == map[]
  {
    hide Lives, Step, WithAccount, WithProfile, Tables;
    var w, req := Newborn(c), Signing(c);
    NewbornBegins(c);
    LivesNone(w);
    moves, v := Then(w, [], w, SignIn(0, req));
    AccountStep(c);
    ConflictStep(c);
    moves, v := Exchanged(w, moves, v, 0, req, FindAccount, Idle(c), EMPTY, FindConflict);
    moves, v := Exchanged(w, moves, v, 0, req, FindConflict, Idle(c).(id := c.id), EMPTY, InsertAccount(c.id));
    moves, v := SignsUpRest(c, moves, v);
  }

  lemma NewbornBegins(c: Cast)
    ensures Begins(Newborn(c))
  {
    assert S.Runs(S.Init(), [], S.Init());
  }

  lemma SignsUpRest(c: Cast, moves: seq<Move>, v: World) returns (more: seq<Move>, u: World)
    requires Sane(c) && Lives(Newborn(c), moves, v, EXACT) && Alone(v, 0, EMPTY, {c.id}, {}) && v.ours == {0}
    requires v.server.procs[0] == Proc(Signing(c), InsertAccount(c.id), None)
    ensures Lives(Newborn(c), more, u, EXACT) && u.ours == {0} && u.renewed == 0
    ensures Alone(u, 0, Tables(c, Row(c, c.t0, 0)), {c.id}, {c.t0})
    ensures u.server.procs[0] == Proc(Signing(c), Replied(Tokens(Mint(c.id, 0), c.t0)), None)
    ensures u.client == v.client && u.signing == v.signing && u.requests == v.requests
  {
    hide Lives, Step, WithAccount, WithProfile, Tables, Newborn;
    var w, req := Newborn(c), Signing(c);
    InsertStep(c);
    ProfileStep(c);
    SaveStep(c);
    more, u := Exchanged(w, moves, v, 0, req, InsertAccount(c.id), Idle(c), WithAccount(c), InsertProfile(c.id));
    more, u := Exchanged(w, more, u, 0, req, InsertProfile(c.id), Idle(c).(token := c.t0), WithProfile(c), Saving(c));
    more, u := Exchanged(w, more, u, 0, req, Saving(c), Idle(c), Tables(c, Row(c, c.t0, 0)), Replied(Tokens(Mint(c.id, 0), c.t0)));
  }

  // ---- the request that finds its token due ----

  ghost predicate Due27(v: World, c: Cast) {
    Alone(v, LATER, Tables(c, Row(c, c.t0, 0)), {c.id}, {c.t0}) && v.ours == {0} && v.renewed == 0 && v.signing.None? && v.requests == map[]
  }

  lemma Waits(c: Cast) returns (moves: seq<Move>, v: World)
    requires Sane(c)
    ensures Lives(Newborn(c), moves, v, EXACT) && Due27(v, c)
    ensures v.client == App(Holding(HAD, c.t0, false), None, [], [], [], LATER)
  {
    hide Lives, Tables, Newborn;
    moves, v := SignsUp(c);
    moves, v := Then(Newborn(c), moves, v, Receive);
    moves, v := Then(Newborn(c), moves, v, Serve(S.Tick(LATER)));
    moves, v := Then(Newborn(c), moves, v, Local(C.Tick(LATER)));
  }

  lemma Joins(c: Cast) returns (moves: seq<Move>, v: World)
    requires Sane(c)
    ensures Lives(Newborn(c), moves, v, EXACT) && Due27(v, c)
    ensures v.client == App(Holding(HAD, c.t0, true), Some(0), [C.Pending([0])],
                            [Asker(C.Waiting(0), C.NoHeader), Refresher(c, C.Queued)], [C.Send(1)], LATER)
  {
    hide Lives, Tables, Newborn;
    moves, v := Waits(c);
    moves, v := Then(Newborn(c), moves, v, Local(C.Issue(true)));
    assert [] + [0] == [0] && v.client.queue[1..] == [];
    moves, v := Then(Newborn(c), moves, v, Local(C.Run));
  }

  // ---- the refresh ----

  lemma Asks(c: Cast) returns (moves: seq<Move>, v: World)
    requires Sane(c)
    ensures Lives(Newborn(c), moves, v, EXACT)
    ensures Alone(v, LATER, Tables(c, Row(c, c.t0, 0)), {c.id}, {c.t0}) && v.ours == {0, 1} && v.renewed == 0
    ensures v.server.procs[1] == Proc(Refresh(c.t0), RefreshFind, None) && v.requests == map[1 := 1] && v.signing.None?
    ensures v.client == App(Holding(HAD, c.t0, true), Some(0), [C.Pending([0])],
                            [Asker(C.Waiting(0), C.NoHeader), Refresher(c, C.Sent)], [], LATER)
  {
    hide Lives, Tables, Newborn;
    moves, v := Joins(c);
    assert v.client.queue[1..] == [];
    moves, v := Then(Newborn(c), moves, v, Dispatch(1));
  }

  lemma IsServed(c: Cast) returns (moves: seq<Move>, v: World)
    requires Sane(c)
    ensures Lives(Newborn(c), moves, v, EXACT) && v.server.procs.Keys == v.ours == {0, 1} && v.server.clock == LATER
    ensures v.server.procs[1] == Proc(Refresh(c.t0), Replied(Tokens(Mint(c.id, LATER), c.t1)), None)
    ensures v.requests == map[1 := 1] && v.signing.None?
    ensures v.client == App(Holding(HAD, c.t0, true), Some(0), [C.Pending([0])],
                            [Asker(C.Waiting(0), C.NoHeader), Refresher(c, C.Sent)], [], LATER)
  {
    hide Lives, Tables, Newborn, Step;
    var w, req := Newborn(c), Refresh(c.t0);
    FindStep(c);
    OwnerStep(c, c.t1);
    WinningStep(c);
    moves, v := Asks(c);
    moves, v := Exchanged(w, moves, v, 1, req, RefreshFind, Idle(c), v.server.db, RefreshOwner(c.row, Row(c, c.t0, 0)));
    moves, v := Exchanged(w, moves, v, 1, req, RefreshOwner(c.row, Row(c, c.t0, 0)), Idle(c).(token := c.t1), v.server.db, Rotating(c, c.t1));
    moves, v := Exchanged(w, moves, v, 1, req, Rotating(c, c.t1), Idle(c), Tables(c, Row(c, c.t1, LATER)),
                          Replied(Tokens(Mint(c.id, LATER), c.t1)));
  }

  /** The answer arrives, the store takes the new pair, and the waiting request goes out with the new access token. */
  lemma ARefreshIsLived(c: Cast) returns (moves: seq<Move>, v: World)
    requires Sane(c)
    ensures Begins(Newborn(c)) && Within(EXACT) && Lives(Newborn(c), moves, v, EXACT)
    ensures v.client.calls == [Asker(C.Sent, C.Bearer(Some(GOT))), Refresher(c, C.Settled(true))]
    ensures v.client.store.access == Some(GOT) && v.client.store.refresh == Some(c.t1) && v.client.refreshPromise.None?
  {
    hide Lives, Newborn;
    NewbornBegins(c);
    moves, v := IsServed(c);
    var response := C.NewTokens(GOT, c.t1);
    moves, v := Then(Newborn(c), moves, v, Local(C.Deliver(1, response)));
    assert v.client.queue[1..] == [];
    moves, v := Then(Newborn(c), moves, v, Local(C.Run));
    assert v.client.queue == [C.Wake(0, 0, true)] && v.client.queue[1..] == [];
    assert v.client.calls == [Asker(C.Woken, C.NoHeader), Refresher(c, C.Settled(true))];
    moves, v := Then(Newborn(c), moves, v, Local(C.Run));
  }
}
