/**
 Accounts under interleaving: a signup is a saga over `auth` and `users` whose compensation may run late. What
 survives every interleaving is stated here: an id named by a token or by a session row keeps its profile for ever,
 and once nothing is in flight the two tables hold the same ids.
 */
module Accounts {
  import opened Schema
  import opened Handlers
  import opened Server

  ghost predicate Mine(accounts: map<Id, Account>, id: Id, req: Request) {
    && SignsIn(req)
    && id in accounts
    && accounts[id].provider == IdentityProvider(req)
    && accounts[id].identifier == IdentityName(req)
  }

  ghost predicate Created(accounts: map<Id, Account>, id: Id, req: Request, pid: Pid) {
    Mine(accounts, id, req) && accounts[id].creator == pid
  }

  /** What a request may rely on at each point, given the ids present in the two tables. */
  ghost predicate ProcOk(accounts: map<Id, Account>, auth: set<Id>, users: set<Id>, pid: Pid, p: Proc) {
    match p.at
    case FindAccount =>
      p.answer.Some? && p.answer.value.AuthAnswer? && p.answer.value.auth.Some? ==>
        Mine(accounts, p.answer.value.auth.value.0, p.req)
    case FindProfile(id, _) =>
      && Mine(accounts, id, p.req)
      && (p.answer.Some? && p.answer.value.UserAnswer? && p.answer.value.user.Some? ==> id in users)
    case SaveEmail(id) => Mine(accounts, id, p.req) && id in users
    case SaveTokens(_, access, _, _) => Mine(accounts, access.sub, p.req) && access.sub in users
    case InsertAccount(id) =>
      Created(accounts, id, p.req, pid) && id !in users && (id in auth <==> p.answer == Some(Acknowledged))
    case InsertProfile(id) =>
      Created(accounts, id, p.req, pid) && id in auth && (id in users <==> p.answer == Some(Acknowledged))
    case Cleanup(id) => Created(accounts, id, p.req, pid) && id !in users
    case RefreshFind =>
      p.answer.Some? && p.answer.value.TokenAnswer? && p.answer.value.token.Some? ==>
        p.answer.value.token.value.1.authId in users
    case RefreshOwner(_, found) =>
      found.authId in users && (p.answer.Some? && p.answer.value.AuthAnswer? ==> p.answer.value.auth.Some?)
    case RefreshRotate(_, found, _, _) => found.authId in users
    case CheckProfile =>
      p.req.Private? && p.req.access.sub in users && (p.answer.Some? && p.answer.value.UserAnswer? ==> p.answer.value.user.Some?)
    case Replied(Tokens(access, _)) => access.sub in users && (SignsIn(p.req) ==> Mine(accounts, access.sub, p.req))
    case Replied(Error(code)) => (p.req.Private? ==> !code.ProfileRequired?) && (p.req.Refresh? ==> !code.Unauthorized?)
    case _ => true
  }

  /** The request that generated an id has inserted it into `auth` and still owes it a profile or a cleanup. */
  ghost predicate Completing(p: Proc, id: Id) {
    || (p.at == InsertAccount(id) && p.answer == Some(Acknowledged))
    || (p.at == InsertProfile(id) && p.answer != Some(Acknowledged))
    || (p.at == Cleanup(id) && p.answer.None?)
  }

  ghost predicate Registered(accounts: map<Id, Account>, auth: map<Id, AuthRow>) {
    forall id :: id in auth ==>
      id in accounts && auth[id].provider == accounts[id].provider && auth[id].identifier == accounts[id].identifier
  }

  ghost predicate Owed(s: State, id: Id) {
    && id in s.accounts
    && s.accounts[id].creator in s.procs
    && Completing(s.procs[s.accounts[id].creator], id)
  }

  ghost predicate SessionsOwned(db: Db) {
    forall t :: t in db.tokens ==> db.tokens[t].authId in db.users
  }

  ghost predicate MintedOwned(log: seq<Event>, users: set<Id>) {
    forall e :: e in log && e.Minted? ==> e.access.sub in users
  }

  ghost predicate ProcsOk(s: State) {
    forall pid :: pid in s.procs ==> ProcOk(s.accounts, s.db.auth.Keys, s.db.users.Keys, pid, s.procs[pid])
  }

  ghost predicate OrphansOwed(s: State) {
    forall id :: id in s.db.auth && id !in s.db.users ==> Owed(s, id)
  }

  ghost predicate Inv(s: State) {
    && AllShaped(s)
    && Constraints(s.db)
    && Registered(s.accounts, s.db.auth)
    && SessionsOwned(s.db)
    && MintedOwned(s.log, s.db.users.Keys)
    && ProcsOk(s)
    && OrphansOwed(s)
  }

  // ---- execution of one statement ----

  /** A statement adds or removes only ids its own request generated, and removes no profile. */
  ghost predicate Footprint(s: State, db': Db, pid: Pid) {
    && s.db.users.Keys <= db'.users.Keys
    && forall id :: id in s.accounts && s.accounts[id].creator != pid ==>
         (id in s.db.auth <==> id in db'.auth) && (id in s.db.users <==> id in db'.users)
  }

  /** No session row is lost or changes hands. */
  ghost predicate SessionsKept(tokens: map<Id, TokenRow>, tokens': map<Id, TokenRow>) {
    forall t :: t in tokens ==> t in tokens' && tokens'[t].authId == tokens[t].authId
  }

  lemma ExecFootprint(s: State, pid: Pid)
    requires Inv(s) && Enabled(s, Exec(pid, false)) && Accepts(s.db, StmtOf(s.procs[pid]))
    ensures Footprint(s, DbAfter(s.db, StmtOf(s.procs[pid]), s.clock), pid)
  {
    assert ProcOk(s.accounts, s.db.auth.Keys, s.db.users.Keys, pid, s.procs[pid]);
  }

  lemma ExecSessions(s: State, pid: Pid)
    requires Inv(s) && Enabled(s, Exec(pid, false)) && Accepts(s.db, StmtOf(s.procs[pid]))
    ensures SessionsKept(s.db.tokens, TokensAfter(s.db.tokens, StmtOf(s.procs[pid]), s.clock))
  {
    assert ProcOk(s.accounts, s.db.auth.Keys, s.db.users.Keys, pid, s.procs[pid]);
  }

  /** A request keeps what it relies on when profiles only grow and only its own ids stay put. */
  lemma ProcOkKept(accounts: map<Id, Account>, auth: set<Id>, users: set<Id>,
                   accounts': map<Id, Account>, auth': set<Id>, users': set<Id>, pid: Pid, p: Proc)
    requires ProcOk(accounts, auth, users, pid, p) && users <= users'
    requires forall id :: id in accounts ==> id in accounts' && accounts'[id] == accounts[id]
    requires forall id :: id in accounts && accounts[id].creator == pid ==>
      (id in auth <==> id in auth') && (id in users <==> id in users')
    ensures ProcOk(accounts', auth', users', pid, p)
  {
  }

  lemma ExecOwnProc(s: State, pid: Pid)
    requires Inv(s) && Enabled(s, Exec(pid, false)) && Accepts(s.db, StmtOf(s.procs[pid]))
    ensures
      var p := s.procs[pid];
      var db' := DbAfter(s.db, StmtOf(p), s.clock);
      ProcOk(s.accounts, db'.auth.Keys, db'.users.Keys, pid, p.(answer := Some(Reads(s.db, StmtOf(p)))))
  {
    var p := s.procs[pid];
    assert ProcOk(s.accounts, s.db.auth.Keys, s.db.users.Keys, pid, p);
  }

  lemma ExecOrphans(s: State, pid: Pid)
    requires Inv(s) && Enabled(s, Exec(pid, false)) && Accepts(s.db, StmtOf(s.procs[pid]))
    ensures OrphansOwed(Execute(s, pid, false))
  {
    ExecFootprint(s, pid);
    var p, s' := s.procs[pid], Execute(s, pid, false);
    assert ProcOk(s.accounts, s.db.auth.Keys, s.db.users.Keys, pid, p);
    forall id | id in s'.db.auth && id !in s'.db.users
      ensures Owed(s', id)
    {
      if id in s.db.auth {
        assert Owed(s, id);
      }
    }
  }

  lemma ExecRegistered(s: State, pid: Pid)
    requires Inv(s) && Enabled(s, Exec(pid, false)) && Accepts(s.db, StmtOf(s.procs[pid]))
    ensures Registered(s.accounts, DbAfter(s.db, StmtOf(s.procs[pid]), s.clock).auth)
  {
    assert ProcOk(s.accounts, s.db.auth.Keys, s.db.users.Keys, pid, s.procs[pid]);
  }

  lemma ExecSessionsOwned(s: State, pid: Pid)
    requires Inv(s) && Enabled(s, Exec(pid, false)) && Accepts(s.db, StmtOf(s.procs[pid]))
    ensures SessionsOwned(DbAfter(s.db, StmtOf(s.procs[pid]), s.clock))
  {
    ExecFootprint(s, pid);
    ExecSessions(s, pid);
    var p := s.procs[pid];
    assert ProcOk(s.accounts, s.db.auth.Keys, s.db.users.Keys, pid, p);
    var db' := DbAfter(s.db, StmtOf(p), s.clock);
    forall t | t in db'.tokens
      ensures db'.tokens[t].authId in db'.users
    {
      if t !in s.db.tokens {
        assert p.at.SaveTokens? && t == p.at.row;
      }
    }
  }

  lemma FaultPointOk(accounts: map<Id, Account>, auth: set<Id>, users: set<Id>, pid: Pid, p: Proc)
    requires InFlight(p) && ProcOk(accounts, auth, users, pid, p)
    ensures ProcOk(accounts, auth, users, pid, p.(answer := Some(Failed)))
  {
  }

  lemma ExecMinted(s: State, pid: Pid)
    requires Inv(s) && Enabled(s, Exec(pid, false)) && Accepts(s.db, StmtOf(s.procs[pid]))
    ensures MintedOwned(Execute(s, pid, false).log, Execute(s, pid, false).db.users.Keys)
  {
    hide Accepts;
    ExecFootprint(s, pid);
    assert forall e :: e in Recorded(s.db, StmtOf(s.procs[pid])) ==> !e.Minted?;
  }

  /** The background DELETE never fails. */
  lemma CleanupAccepted(s: State, pid: Pid, fault: bool)
    requires Enabled(s, Exec(pid, fault)) && s.procs[pid].at.Cleanup?
    ensures !fault && Accepts(s.db, StmtOf(s.procs[pid]))
  {
  }

  lemma ExecKeeps(s: State, pid: Pid, fault: bool)
    requires Inv(s) && Enabled(s, Exec(pid, fault))
    ensures Inv(Execute(s, pid, fault))
  {
    hide ProcOk, Shaped, Accepts, DbAfter, Reads, Constraints, StmtAt;
    var p, s' := s.procs[pid], Execute(s, pid, fault);
    ShapedKept(s, Exec(pid, fault));
    if !fault && Accepts(s.db, StmtOf(p)) {
      ConstraintsKept(s.db, StmtOf(p), s.clock);
      ExecFootprint(s, pid);
      ExecOwnProc(s, pid);
      ExecOrphans(s, pid);
      ExecRegistered(s, pid);
      ExecSessionsOwned(s, pid);
      ExecMinted(s, pid);
      forall q | q in s'.procs && q != pid
        ensures ProcOk(s'.accounts, s'.db.auth.Keys, s'.db.users.Keys, q, s'.procs[q])
      {
        ProcOkKept(s.accounts, s.db.auth.Keys, s.db.users.Keys,
                   s'.accounts, s'.db.auth.Keys, s'.db.users.Keys, q, s.procs[q]);
      }
    } else {
      if p.at.Cleanup? {
        CleanupAccepted(s, pid, fault);
      }
      FaultPointOk(s.accounts, s.db.auth.Keys, s.db.users.Keys, pid, p);
      MoveKeeps(s, s', pid);
    }
  }

  // ---- one synchronous block ----

  lemma OtpPointOk(accounts: map<Id, Account>, auth: set<Id>, users: set<Id>, pid: Pid, p: Proc, now: Time, f: Fresh)
    requires Shaped(p) && p.answer.Some? && !p.answer.value.Failed? && OtpPoint(p.at)
    ensures
      var next := ContinueOtp(p.req, p.at, p.answer.value, now, f);
      !next.InsertAccount? && ProcOk(accounts, auth, users, pid, Proc(p.req, next, None))
  {
  }

  lemma SessionPointOk(accounts: map<Id, Account>, auth: set<Id>, users: set<Id>, pid: Pid, p: Proc, now: Time, f: Fresh)
    requires Shaped(p) && p.answer.Some? && !p.answer.value.Failed? && SessionPoint(p.at)
    requires ProcOk(accounts, auth, users, pid, p)
    ensures
      var next := ContinueSession(p.req, p.at, p.answer.value, now, f);
      !next.InsertAccount? && ProcOk(accounts, auth, users, pid, Proc(p.req, next, None))
  {
  }

  lemma AccountPointOk(accounts: map<Id, Account>, auth: set<Id>, users: set<Id>, pid: Pid, p: Proc, now: Time, f: Fresh)
    requires Shaped(p) && p.answer.Some? && !p.answer.value.Failed? && !OtpPoint(p.at) && !SessionPoint(p.at)
    requires ProcOk(accounts, auth, users, pid, p) && f.id !in auth && f.id !in users
    ensures
      var next := ContinueAccount(p.req, p.at, p.answer.value, now, f);
      ProcOk(AccountsAfter(accounts, pid, p.req, next), auth, users, pid, Proc(p.req, next, None))
  {
  }

  lemma FailurePointOk(accounts: map<Id, Account>, auth: set<Id>, users: set<Id>, pid: Pid, p: Proc)
    requires Shaped(p) && p.answer == Some(Failed)
    requires ProcOk(accounts, auth, users, pid, p)
    ensures
      var next := OnFailure(p.at);
      !next.InsertAccount? && ProcOk(accounts, auth, users, pid, Proc(p.req, next, None))
  {
  }

  lemma ProceedOwnProc(s: State, pid: Pid, f: Fresh)
    requires Inv(s) && Enabled(s, Resume(pid, f))
    ensures
      var s' := Proceed(s, pid, f);
      ProcOk(s'.accounts, s.db.auth.Keys, s.db.users.Keys, pid, s'.procs[pid])
  {
    var p, auth, users := s.procs[pid], s.db.auth.Keys, s.db.users.Keys;
    assert ProcOk(s.accounts, auth, users, pid, p);
    if p.answer.value.Failed? {
      FailurePointOk(s.accounts, auth, users, pid, p);
    } else if OtpPoint(p.at) {
      OtpPointOk(s.accounts, auth, users, pid, p, s.clock, f);
    } else if SessionPoint(p.at) {
      SessionPointOk(s.accounts, auth, users, pid, p, s.clock, f);
    } else {
      AccountPointOk(s.accounts, auth, users, pid, p, s.clock, f);
    }
  }

  lemma ProceedMinted(s: State, pid: Pid, f: Fresh)
    requires Inv(s) && Enabled(s, Resume(pid, f))
    ensures MintedOwned(Proceed(s, pid, f).log, s.db.users.Keys)
  {
    var p := s.procs[pid];
    assert ProcOk(s.accounts, s.db.auth.Keys, s.db.users.Keys, pid, p);
    ProceedOwnProc(s, pid, f);
  }

  /** A request that owes an id a profile or a cleanup still owes it after its next block. */
  lemma CompletingKept(p: Proc, id: Id, now: Time, f: Fresh)
    requires Shaped(p) && p.answer.Some? && Completing(p, id)
    ensures Completing(Proc(p.req, Continue(p.req, p.at, p.answer.value, now, f), None), id)
  {
  }

  /** One request moves on, the tables stay as they are. */
  lemma MoveKeeps(s: State, s': State, pid: Pid)
    requires Inv(s) && AllShaped(s') && s'.db == s.db
    requires pid in s.procs && s'.procs.Keys == s.procs.Keys
    requires forall q :: q in s.procs && q != pid ==> s'.procs[q] == s.procs[q]
    requires forall id :: id in s.accounts ==> id in s'.accounts && s'.accounts[id] == s.accounts[id]
    requires MintedOwned(s'.log, s.db.users.Keys)
    requires ProcOk(s'.accounts, s.db.auth.Keys, s.db.users.Keys, pid, s'.procs[pid])
    requires forall id :: Completing(s.procs[pid], id) ==> Completing(s'.procs[pid], id)
    ensures Inv(s')
  {
    hide ProcOk, Shaped, Constraints;
    forall q | q in s'.procs && q != pid
      ensures ProcOk(s'.accounts, s'.db.auth.Keys, s'.db.users.Keys, q, s'.procs[q])
    {
      ProcOkKept(s.accounts, s.db.auth.Keys, s.db.users.Keys,
                 s'.accounts, s'.db.auth.Keys, s'.db.users.Keys, q, s.procs[q]);
    }
    forall id | id in s'.db.auth && id !in s'.db.users
      ensures Owed(s', id)
    {
      assert Owed(s, id);
    }
  }

  lemma ProceedKeeps(s: State, pid: Pid, f: Fresh)
    requires Inv(s) && Enabled(s, Resume(pid, f))
    ensures Inv(Proceed(s, pid, f))
  {
    hide ProcOk, Continue, Shaped, Completing;
    ShapedKept(s, Resume(pid, f));
    ProceedOwnProc(s, pid, f);
    ProceedMinted(s, pid, f);
    forall id | Completing(s.procs[pid], id)
      ensures Completing(Proceed(s, pid, f).procs[pid], id)
    {
      CompletingKept(s.procs[pid], id, s.clock, f);
    }
    MoveKeeps(s, Proceed(s, pid, f), pid);
  }

  lemma BeginKeeps(s: State, pid: Pid, req: Request)
    requires Inv(s) && Enabled(s, Begin(pid, req))
    ensures Inv(Apply(s, Begin(pid, req)))
  {
    hide Shaped, Constraints;
    var s' := Apply(s, Begin(pid, req));
    ShapedKept(s, Begin(pid, req));
    if req.Private? {
      assert Minted(req.access) in s.log && Minted(req.access).Minted?;
    }
    forall id | id in s'.db.auth && id !in s'.db.users
      ensures Owed(s', id)
    {
      assert Owed(s, id);
    }
  }

  lemma TickKeeps(s: State, now: nat)
    requires Inv(s) && Enabled(s, Tick(now))
    ensures Inv(Apply(s, Tick(now)))
  {
    var s' := Apply(s, Tick(now));
    forall id | id in s'.db.auth && id !in s'.db.users
      ensures Owed(s', id)
    {
      assert Owed(s, id);
    }
  }

  lemma StepKeeps(s: State, a: Action)
    requires Inv(s) && Enabled(s, a)
    ensures Inv(Apply(s, a))
  {
    match a
    case Tick(now) => TickKeeps(s, now);
    case Begin(pid, req) => BeginKeeps(s, pid, req);
    case Exec(pid, fault) => ExecKeeps(s, pid, fault);
    case Resume(pid, f) => ProceedKeeps(s, pid, f);
  }

  lemma {:induction false} RunKeeps(s: State, acts: seq<Action>, t: State)
    requires Inv(s) && Runs(s, acts, t)
    ensures Inv(t)
    decreases |acts|
  {
    if acts != [] {
      StepKeeps(s, acts[0]);
      RunKeeps(Apply(s, acts[0]), acts[1..], t);
    }
  }

  lemma ReachableInv(s: State)
    requires Reachable(s)
    ensures Inv(s)
  {
    var acts :| Runs(Init(), acts, s);
    RunKeeps(Init(), acts, s);
  }

  // ---- theorems over all runs ----

  /** What no step ever takes back: profiles, the identity an id stands for, session rows, history. */
  ghost predicate Grows(s: State, t: State) {
    && s.db.users.Keys <= t.db.users.Keys
    && (forall id :: id in s.accounts ==> id in t.accounts && t.accounts[id] == s.accounts[id])
    && SessionsKept(s.db.tokens, t.db.tokens)
    && s.log <= t.log
  }

  lemma StepGrows(s: State, a: Action)
    requires Inv(s) && Enabled(s, a)
    ensures Grows(s, Apply(s, a))
  {
    hide Shaped, Accepts, DbAfter, Reads, Constraints, StmtAt, Continue, Concluded, Recorded, ProcOk;
    if a.Exec? && !a.fault && Accepts(s.db, StmtOf(s.procs[a.pid])) {
      ExecFootprint(s, a.pid);
      ExecSessions(s, a.pid);
      DbAfterTokens(s.db, StmtOf(s.procs[a.pid]), s.clock);
    }
  }

  lemma DbAfterTokens(db: Db, st: Stmt, now: Time)
    ensures DbAfter(db, st, now).tokens == TokensAfter(db.tokens, st, now)
  {
  }

  lemma {:induction false} RunGrows(s: State, acts: seq<Action>, t: State)
    requires Inv(s) && Runs(s, acts, t)
    ensures Inv(t) && Grows(s, t)
    decreases |acts|
  {
    hide Inv, Enabled, Apply;
    if acts != [] {
      var s' := Apply(s, acts[0]);
      StepKeeps(s, acts[0]);
      StepGrows(s, acts[0]);
      RunGrows(s', acts[1..], t);
    }
  }

  /**
   In every interleaving, an id named by a session row or by an access token ever signed has its profile, from then
   on and for ever, and stands for the same identity for ever.
   */
  lemma NamedIdsKeepTheirProfile(s: State, acts: seq<Action>, t: State, id: Id)
    requires Reachable(s) && Runs(s, acts, t)
    requires (exists row :: row in s.db.tokens && s.db.tokens[row].authId == id)
          || (exists access :: Minted(access) in s.log && access.sub == id)
    ensures id in s.db.users && id in t.db.users && id in s.db.auth && id in t.db.auth
    ensures SameIdentity(s.db.auth[id], t.db.auth[id])
  {
    ReachableInv(s);
    RunGrows(s, acts, t);
    assert forall access :: Minted(access) in s.log ==> Minted(access).Minted?;
  }

  /** The "Profile required" branch of requireAuth is dead for every access token the server has signed. */
  lemma ProfileRequiredUnreachable(s: State, pid: Pid)
    requires Reachable(s) && pid in s.procs && s.procs[pid].req.Private?
    ensures s.procs[pid].at != Replied(Error(ProfileRequired))
  {
    ReachableInv(s);
    assert ProcOk(s.accounts, s.db.auth.Keys, s.db.users.Keys, pid, s.procs[pid]);
  }

  /** The compensating DELETE removes one `auth` row at most; its cascade never reaches a profile or a session. */
  lemma CompensationNeverCascades(s: State, pid: Pid)
    requires Reachable(s) && Enabled(s, Exec(pid, false)) && s.procs[pid].at.Cleanup?
    ensures
      var t := Execute(s, pid, false);
      && t.db.users == s.db.users && t.db.tokens == s.db.tokens
      && t.db.auth == s.db.auth - {s.procs[pid].at.id}
  {
    hide AllShaped, OrphansOwed, MintedOwned, Reachable, Constraints, Recorded, Reads;
    ReachableInv(s);
    assert ProcOk(s.accounts, s.db.auth.Keys, s.db.users.Keys, pid, s.procs[pid]);
  }

  /** Nothing is in flight: every request has been answered and no background delete is outstanding. */
  ghost predicate Quiescent(s: State) {
    forall pid :: pid in s.procs ==> s.procs[pid].at.Replied?
  }

  /**
   Signup is all or nothing: at rest `auth` and `users` hold the same ids and one account per identity, so of any
   two ids generated for one identity at least one has left no row in either table.
   */
  lemma SignupAllOrNothing(s: State)
    requires Reachable(s) && Quiescent(s)
    ensures s.db.auth.Keys == s.db.users.Keys
    ensures forall a, b :: a in s.accounts && b in s.accounts && a != b
                && s.accounts[a].provider == s.accounts[b].provider && s.accounts[a].identifier == s.accounts[b].identifier
              ==> (a !in s.db.auth && a !in s.db.users) || (b !in s.db.auth && b !in s.db.users)
  {
    ReachableInv(s);
    assert forall id :: id in s.db.auth && id !in s.db.users ==> Owed(s, id);
  }

  /**
   All successful sign-ins and signups for one identity, in whatever order and interleaving, name the same id, and
   that id is the identity's account for the rest of the run.
   */
  lemma SameIdentitySameAccount(s: State, acts: seq<Action>, t: State, p: Pid, q: Pid)
    requires Reachable(s) && Runs(s, acts, t) && p in s.procs && q in t.procs
    requires s.procs[p].at.Replied? && s.procs[p].at.reply.Tokens? && SignsIn(s.procs[p].req)
    requires t.procs[q].at.Replied? && t.procs[q].at.reply.Tokens? && SignsIn(t.procs[q].req)
    requires IdentityProvider(s.procs[p].req) == IdentityProvider(t.procs[q].req)
    requires IdentityName(s.procs[p].req) == IdentityName(t.procs[q].req)
    ensures s.procs[p].at.reply.access.sub == t.procs[q].at.reply.access.sub
    ensures FindIdentity(t.db.auth, IdentityProvider(t.procs[q].req), IdentityName(t.procs[q].req))
              == Some(t.procs[q].at.reply.access.sub)
  {
    hide Runs, Reachable, Inv;
    ReachableInv(s);
    RunGrows(s, acts, t);
    AnsweredAccount(s, p);
    AnsweredAccount(t, q);
    NamedAccount(t, s.procs[p].at.reply.access.sub, t.procs[q].req);
  }

  lemma AnsweredAccount(s: State, p: Pid)
    requires Inv(s) && p in s.procs && s.procs[p].at.Replied? && s.procs[p].at.reply.Tokens? && SignsIn(s.procs[p].req)
    ensures
      var id := s.procs[p].at.reply.access.sub;
      Mine(s.accounts, id, s.procs[p].req) && id in s.db.users
      && FindIdentity(s.db.auth, IdentityProvider(s.procs[p].req), IdentityName(s.procs[p].req)) == Some(id)
  {
    hide AllShaped, OrphansOwed, SessionsOwned, MintedOwned;
    assert ProcOk(s.accounts, s.db.auth.Keys, s.db.users.Keys, p, s.procs[p]);
    NamedAccount(s, s.procs[p].at.reply.access.sub, s.procs[p].req);
  }

  /** An id with a profile that was generated for an identity is that identity's account. */
  lemma NamedAccount(s: State, id: Id, req: Request)
    requires Inv(s) && SignsIn(req) && Mine(s.accounts, id, req) && id in s.db.users
    ensures FindIdentity(s.db.auth, IdentityProvider(req), IdentityName(req)) == Some(id)
  {
    hide AllShaped, OrphansOwed, SessionsOwned, MintedOwned, ProcsOk;
    var other := FindIdentity(s.db.auth, IdentityProvider(req), IdentityName(req));
    assert id in s.db.auth;
    assert SameIdentity(s.db.auth[id], s.db.auth[other.value]);
  }
}
