/** Whose tokens an endpoint hands out: the session a reply belongs to, in every interleaving. */
module Provenance {
  import opened Schema
  import opened Handlers
  import opened Server
  import opened Sessions
  import Accounts

  /** Row r of this account holds the string now, or held it until a rotation swapped it out. */
  ghost predicate HeldBy(s: State, r: Id, token: string, sub: Id) {
    && r in s.db.tokens && s.db.tokens[r].authId == sub
    && (s.db.tokens[r].token == token || exists e :: e in s.log && e.Rotated? && e.row == r && e.oldToken == token)
  }

  /** The same for a session inserted with this device. */
  ghost predicate OpenedFor(s: State, r: Id, token: string, sub: Id, device: Option<DeviceInfo>) {
    HeldBy(s, r, token, sub) && s.db.tokens[r].deviceInfo == device
  }

  ghost predicate Traced(s: State, p: Proc) {
    match p.at
    case RefreshFind =>
      p.req.Refresh? && (p.answer.Some? && p.answer.value.TokenAnswer? && p.answer.value.token.Some? ==>
        HeldBy(s, p.answer.value.token.value.0, p.req.token, p.answer.value.token.value.1.authId))
    case RefreshOwner(r, found) => p.req.Refresh? && HeldBy(s, r, p.req.token, found.authId)
    case RefreshRotate(r, found, _, _) => p.req.Refresh? && HeldBy(s, r, p.req.token, found.authId)
    case SaveTokens(r, access, token, _) =>
      SignsIn(p.req) && (p.answer == Some(Acknowledged) ==> OpenedFor(s, r, token, access.sub, DeviceOf(p.req)))
    case Replied(Tokens(access, token)) =>
      && (p.req.Refresh? ==> exists r :: HeldBy(s, r, p.req.token, access.sub))
      && (SignsIn(p.req) ==> exists r :: OpenedFor(s, r, token, access.sub, DeviceOf(p.req)))
    case _ => true
  }

  ghost predicate AllTraced(s: State) {
    forall pid :: pid in s.procs ==> Traced(s, s.procs[pid])
  }

  /** Sessions keep what traces rely on. */
  ghost predicate Remembers(s: State, t: State) {
    forall r, token, sub, device :: OpenedFor(s, r, token, sub, device) ==> OpenedFor(t, r, token, sub, device)
  }

  lemma TraceKept(s: State, t: State, p: Proc)
    requires Remembers(s, t) && Traced(s, p)
    ensures Traced(t, p)
  {
    hide OpenedFor;
    forall r, token, sub | HeldBy(s, r, token, sub)
      ensures HeldBy(t, r, token, sub)
    {
      HeldKept(s, t, r, token, sub);
    }
  }

  lemma HeldKept(s: State, t: State, r: Id, token: string, sub: Id)
    requires Remembers(s, t) && HeldBy(s, r, token, sub)
    ensures HeldBy(t, r, token, sub)
  {
    assert OpenedFor(s, r, token, sub, s.db.tokens[r].deviceInfo);
  }

  /** A rotation that changes a row is in the history. */
  lemma RotationRecorded(s: State, pid: Pid, r: Id)
    requires Accounts.Inv(s) && Enabled(s, Exec(pid, false)) && Accepts(s.db, StmtOf(s.procs[pid]))
    requires s.procs[pid].at.RefreshRotate? && s.procs[pid].req.Refresh?
    requires r in s.db.tokens && s.db.tokens[r].token == s.procs[pid].req.token
    ensures Rotated(r, s.db.tokens[r].token, s.procs[pid].at.newToken, s.procs[pid].at.at) in Execute(s, pid, false).log
  {
    hide Accounts.ProcsOk, Accounts.OrphansOwed, DbAfter, Reads;
    var st := StmtOf(s.procs[pid]);
    assert FindToken(s.db.tokens, s.db.tokens[r].token) == Some(r);
    assert Recorded(s.db, st) == [Rotated(r, s.db.tokens[r].token, s.procs[pid].at.newToken, s.procs[pid].at.at)];
  }

  lemma ExecRemembers(s: State, pid: Pid, fault: bool)
    requires Accounts.Inv(s) && Enabled(s, Exec(pid, fault))
    ensures Remembers(s, Execute(s, pid, fault))
  {
    hide Accounts.Inv, Shaped, StmtAt, Accepts, DbAfter, Reads, Recorded;
    var t := Execute(s, pid, fault);
    ExecView(s, pid, fault);
    forall r, token, sub, device | OpenedFor(s, r, token, sub, device)
      ensures OpenedFor(t, r, token, sub, device)
    {
      assert RowView(s.db.tokens, s.procs[pid], s.clock, r, t.db.tokens[r]);
      assert forall e :: e in s.log ==> e in t.log;
      if t.db.tokens[r].token != s.db.tokens[r].token {
        RotationRecorded(s, pid, r);
      }
    }
  }

  lemma OwnExec(s: State, pid: Pid, fault: bool)
    requires Accounts.Inv(s) && Enabled(s, Exec(pid, fault)) && Traced(s, s.procs[pid])
    ensures Traced(Execute(s, pid, fault), Execute(s, pid, fault).procs[pid])
  {
    hide Accounts.Inv, Recorded;
    ExecRemembers(s, pid, fault);
    var p, t := s.procs[pid], Execute(s, pid, fault);
    TraceKept(s, t, p);
    if p.at.SaveTokens? && !fault && Accepts(s.db, StmtOf(p)) {
      assert t.db.tokens[p.at.row].token == p.at.newToken;
    }
  }

  lemma OwnResume(s: State, pid: Pid, f: Fresh)
    requires Enabled(s, Resume(pid, f)) && Traced(s, s.procs[pid])
    ensures Traced(Proceed(s, pid, f), Proceed(s, pid, f).procs[pid])
  {
    hide Concluded, HeldBy, OpenedFor, Remembers;
    var p, t := s.procs[pid], Proceed(s, pid, f);
    ResumeRemembers(s, pid, f);
    TraceKept(s, t, p);
    if p.at.RefreshRotate? {
      assert HeldBy(t, p.at.row, p.req.token, p.at.found.authId);
    }
    if p.at.SaveTokens? && p.answer == Some(Acknowledged) {
      assert OpenedFor(t, p.at.row, p.at.newToken, p.at.access.sub, DeviceOf(p.req));
    }
  }

  lemma ResumeRemembers(s: State, pid: Pid, f: Fresh)
    requires Enabled(s, Resume(pid, f))
    ensures Remembers(s, Proceed(s, pid, f))
  {
    hide Concluded, Continue, Shaped;
  }

  lemma StepTraced(s: State, a: Action)
    requires Accounts.Inv(s) && AllTraced(s) && Enabled(s, a)
    ensures AllTraced(Apply(s, a))
  {
    hide Accounts.Inv, Traced, Remembers, Shaped, StmtAt, Accepts, DbAfter, Reads, Recorded, Continue, Concluded;
    var t := Apply(s, a);
    assert Remembers(s, t) by { StepRemembers(s, a); }
    forall pid | pid in t.procs
      ensures Traced(t, t.procs[pid])
    {
      if a.Begin? && a.pid == pid {
        StartTraced(t, a.req);
      } else if a.Exec? && a.pid == pid {
        OwnExec(s, pid, a.fault);
      } else if a.Resume? && a.pid == pid {
        OwnResume(s, pid, a.f);
      } else {
        TraceKept(s, t, s.procs[pid]);
      }
    }
  }

  lemma StepRemembers(s: State, a: Action)
    requires Accounts.Inv(s) && Enabled(s, a)
    ensures Remembers(s, Apply(s, a))
  {
    hide Accounts.Inv, Shaped, Execute, Proceed;
    if a.Exec? {
      ExecRemembers(s, a.pid, a.fault);
    } else if a.Resume? {
      ResumeRemembers(s, a.pid, a.f);
    }
  }

  lemma StartTraced(t: State, req: Request)
    requires WellFormed(req)
    ensures Traced(t, Start(req))
  {
  }

  lemma {:induction false} RunTraced(s: State, acts: seq<Action>, t: State)
    requires Accounts.Inv(s) && AllTraced(s) && Runs(s, acts, t)
    ensures AllTraced(t)
    decreases |acts|
  {
    hide Accounts.Inv, AllTraced, Enabled, Apply;
    if acts != [] {
      StepTraced(s, acts[0]);
      Accounts.StepKeeps(s, acts[0]);
      RunTraced(Apply(s, acts[0]), acts[1..], t);
    }
  }

  lemma ReachableTraced(s: State)
    requires Reachable(s)
    ensures AllTraced(s)
  {
    var acts :| Runs(Init(), acts, s);
    RunTraced(Init(), acts, s);
  }

  /**
   A refresh answers for the account of the one session that the presented string was ever stored in; a sign-in or
   signup answers a refresh token that was stored in a session of the account it names, with the device it sent.
   */
  lemma RepliesBelongToTheirSession(s: State, pid: Pid)
    requires Reachable(s) && pid in s.procs && s.procs[pid].at.Replied? && s.procs[pid].at.reply.Tokens?
    ensures s.procs[pid].req.Refresh? ==>
      exists r :: HeldBy(s, r, s.procs[pid].req.token, s.procs[pid].at.reply.access.sub)
    ensures SignsIn(s.procs[pid].req) ==>
      exists r :: OpenedFor(s, r, s.procs[pid].at.reply.refresh, s.procs[pid].at.reply.access.sub, DeviceOf(s.procs[pid].req))
    ensures s.procs[pid].at.reply.access.sub in s.db.users
  {
    hide Reachable, HeldBy, OpenedFor, Accounts.Inv;
    ReachableTraced(s);
    assert Traced(s, s.procs[pid]);
    OwnerHasProfile(s, pid);
  }

  lemma OwnerHasProfile(s: State, pid: Pid)
    requires Reachable(s) && pid in s.procs && s.procs[pid].at.Replied? && s.procs[pid].at.reply.Tokens?
    ensures s.procs[pid].at.reply.access.sub in s.db.users
  {
    hide Reachable;
    Accounts.ReachableInv(s);
    assert Accounts.ProcOk(s.accounts, s.db.auth.Keys, s.db.users.Keys, pid, s.procs[pid]);
  }

  /** A string belongs to one session for all time, so the account a refresh answers for is determined by the string. */
  lemma OneSessionPerString(s: State, r: Id, q: Id, token: string, a: Id, b: Id)
    requires Reachable(s) && HeldBy(s, r, token, a) && HeldBy(s, q, token, b)
    ensures r == q && a == b
  {
    hide Reachable, Accounts.ProcsOk, ReadersOk, RateKept, WritersRegistered, RowsLanded;
    Sessions.ReachableInv(s);
    assert forall e :: e in s.log && e.Rotated? ==> Gone(s, e.oldToken);
  }
}
