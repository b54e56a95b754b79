/**
 Any number of handlers over one database. A step lets time pass, starts a request, lets the database execute the
 statement one request has in flight, or lets the worker continue a request whose answer has arrived. Statements of
 different requests interleave freely: the source uses no transaction.
 */
module Server {
  import opened Schema
  import opened Config
  import opened Handlers

  type Pid = nat

  /** An id generated for the `auth` table: the identity it was generated for, and by which request. */
  datatype Account = Account(provider: Provider, identifier: string, creator: Pid)

  /** History, for the statements of the theorems; no handler reads it. */
  datatype Event =
    | Stored(phone: string, code: string, createdAt: Time, expiresAt: Time)
    | Verified(phone: string, code: string, verdict: Verdict, checkedAt: Time)
    | Jammed(phone: string)
    | Rotated(row: Id, oldToken: string, newToken: string, at: Time)
    | Minted(access: Access)

  datatype State = State(
    db: Db,
    clock: nat,
    procs: map<Pid, Proc>,
    accounts: map<Id, Account>,
    generated: map<string, Pid>,
    log: seq<Event>)

  datatype Action =
    | Tick(now: nat)
    | Begin(pid: Pid, req: Request)
    | Exec(pid: Pid, fault: bool)
    | Resume(pid: Pid, f: Fresh)

  function Init(): State {
    State(Db(map[], map[], map[], map[]), 0, map[], map[], map[], [])
  }

  /** A statement is in flight: sent, not yet executed. */
  predicate InFlight(p: Proc) {
    !p.at.Replied? && p.answer.None?
  }

  /**
   The background DELETE is taken to run (it never faults); a fault of any other statement has no effect.
   Generated account ids and refresh tokens differ from all generated before.
   */
  predicate Enabled(s: State, a: Action) {
    match a
    case Tick(now) => s.clock <= now
    case Begin(pid, req) => pid !in s.procs && WellFormed(req) && (req.Private? ==> Minted(req.access) in s.log)
    case Exec(pid, fault) =>
      pid in s.procs && Shaped(s.procs[pid]) && InFlight(s.procs[pid]) && (s.procs[pid].at.Cleanup? ==> !fault)
    case Resume(pid, f) =>
      pid in s.procs && Shaped(s.procs[pid]) && s.procs[pid].answer.Some?
      && f.id !in s.accounts && f.token !in s.generated
  }

  function StmtOf(p: Proc): Stmt
    requires Shaped(p) && !p.at.Replied?
  {
    StmtAt(p.req, p.at)
  }

  /** What executing a statement adds to the history. */
  ghost function Recorded(db: Db, st: Stmt): seq<Event> {
    match st
    case UpsertOtp(phone, code, expiresAt, createdAt) => [Stored(phone, code, createdAt, expiresAt)]
    case RotateToken(oldToken, newToken, _, at) =>
      var row := FindToken(db.tokens, oldToken);
      if row.Some? then [Rotated(row.value, oldToken, newToken, at)] else []
    case _ => []
  }

  ghost function Execute(s: State, pid: Pid, fault: bool): State
    requires Enabled(s, Exec(pid, fault))
  {
    var p := s.procs[pid];
    var st := StmtOf(p);
    if !fault && Accepts(s.db, st) then
      s.(db := DbAfter(s.db, st, s.clock), procs := s.procs[pid := p.(answer := Some(Reads(s.db, st)))],
         log := s.log + Recorded(s.db, st))
    else
      s.(procs := s.procs[pid := p.(answer := Some(Failed))])
  }

  /** What a synchronous block adds to the history: the verdict of an OTP verification, or a signed access token. */
  function Concluded(req: Request, at: Point, a: Answer, now: Time): seq<Event>
    requires Resumable(req, at, a)
  {
    match at
    case VerifyFind =>
      if a.OtpAnswer? && a.otp.None? then [Verified(req.phone, req.code, NotFound, now)] else []
    case VerifyBump(n, t) =>
      if !a.Failed? && n < OTP_MAX_ATTEMPTS then [Verified(req.phone, req.code, Invalid, t)] else []
    case VerifyDrop(v, t) =>
      if !a.Failed? then [Verified(req.phone, req.code, v, t)]
      else if v.MaxAttempts? then [Jammed(req.phone)]
      else []
    case RefreshRotate(_, found, _, _) => if !a.Failed? then [Minted(Mint(found.authId, now))] else []
    case _ => []
  }

  function Signed(next: Point): seq<Event> {
    if next.SaveTokens? then [Minted(next.access)] else []
  }

  function AccountsAfter(accounts: map<Id, Account>, pid: Pid, req: Request, next: Point): map<Id, Account>
    requires Fits(req, next)
  {
    if next.InsertAccount? then accounts[next.id := Account(IdentityProvider(req), IdentityName(req), pid)]
    else accounts
  }

  function Proceed(s: State, pid: Pid, f: Fresh): State
    requires Enabled(s, Resume(pid, f))
  {
    var p := s.procs[pid];
    var next := Continue(p.req, p.at, p.answer.value, s.clock, f);
    s.(procs := s.procs[pid := Proc(p.req, next, None)],
       accounts := AccountsAfter(s.accounts, pid, p.req, next),
       generated := if next.SaveTokens? || next.RefreshRotate? then s.generated[next.newToken := pid] else s.generated,
       log := s.log + Concluded(p.req, p.at, p.answer.value, s.clock) + Signed(next))
  }

  ghost function Apply(s: State, a: Action): State
    requires Enabled(s, a)
  {
    match a
    case Tick(now) => s.(clock := now)
    case Begin(pid, req) => s.(procs := s.procs[pid := Start(req)])
    case Exec(pid, fault) => Execute(s, pid, fault)
    case Resume(pid, f) => Proceed(s, pid, f)
  }

  /** t is reached from s by the given steps. */
  ghost predicate Runs(s: State, acts: seq<Action>, t: State)
    decreases |acts|
  {
    if acts == [] then s == t
    else Enabled(s, acts[0]) && Runs(Apply(s, acts[0]), acts[1..], t)
  }

  ghost predicate Reachable(s: State) {
    exists acts :: Runs(Init(), acts, s)
  }

  lemma {:induction false} RunsConcat(s: State, xs: seq<Action>, t: State, ys: seq<Action>, u: State)
    requires Runs(s, xs, t) && Runs(t, ys, u)
    ensures Runs(s, xs + ys, u)
    decreases |xs|
  {
    if xs == [] {
      assert xs + ys == ys;
    } else {
      RunsConcat(Apply(s, xs[0]), xs[1..], t, ys, u);
      assert (xs + ys)[1..] == xs[1..] + ys;
    }
  }

  /** A longer run goes through the end of a shorter one. */
  lemma {:induction false} RunsSuffix(s: State, xs: seq<Action>, t: State, ys: seq<Action>, u: State)
    requires Runs(s, xs, t) && Runs(s, xs + ys, u)
    ensures Runs(t, ys, u)
    decreases |xs|
  {
    hide Enabled, Apply;
    if xs == [] {
      assert xs + ys == ys;
    } else {
      assert (xs + ys)[0] == xs[0] && (xs + ys)[1..] == xs[1..] + ys;
      RunsSuffix(Apply(s, xs[0]), xs[1..], t, ys, u);
    }
  }

  lemma RunsNone(s: State)
    ensures Runs(s, [], s)
  {
  }

  lemma RunsSnoc(s: State, acts: seq<Action>, t: State, a: Action)
    requires Runs(s, acts, t) && Enabled(t, a)
    ensures Runs(s, acts + [a], Apply(t, a))
  {
    hide Enabled, Apply;
    assert [a][1..] == [];
    assert Runs(t, [a], Apply(t, a));
    RunsConcat(s, acts, t, [a], Apply(t, a));
  }

  ghost predicate AllShaped(s: State) {
    forall pid :: pid in s.procs ==> Shaped(s.procs[pid])
  }

  lemma ShapedKept(s: State, a: Action)
    requires AllShaped(s) && Enabled(s, a)
    ensures AllShaped(Apply(s, a))
  {
    if a.Exec? {
      assert Answers(StmtOf(s.procs[a.pid]), Reads(s.db, StmtOf(s.procs[a.pid])));
    }
  }
}
