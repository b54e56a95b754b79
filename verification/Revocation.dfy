/** The promises of the refresh and logout endpoints, over all runs of any number of interleaved handlers. */
module Revocation {
  import opened Schema
  import opened Config
  import opened Handlers
  import opened Server
  import opened Sessions
  import Accounts

  ghost predicate Good(s: State) {
    Accounts.Inv(s) && Sessions.Inv(s)
  }

  lemma StepGood(s: State, a: Action)
    requires Good(s) && Enabled(s, a)
    ensures Good(Apply(s, a))
  {
    hide Accounts.Inv, Sessions.Inv, Enabled, Apply;
    Accounts.StepKeeps(s, a);
    Sessions.StepKeeps(s, a);
  }

  // ---- rotation ----

  /** Of all refreshes that present one token at most one rotates: no string is swapped out twice. */
  lemma RotationIsCompareAndSwap(s: State, i: nat, j: nat)
    requires Reachable(s) && i < j < |s.log| && s.log[i].Rotated? && s.log[j].Rotated?
    ensures s.log[i].oldToken != s.log[j].oldToken
  {
    Sessions.ReachableInv(s);
  }

  /** A row rotated k times was last used at least k cooldowns after its creation: T ms allow T / 300000 rotations. */
  lemma RotationRate(s: State, r: Id)
    requires Reachable(s) && r in s.db.tokens
    ensures s.db.tokens[r].createdAt + Rotations(s.log, r) * REFRESH_COOLDOWN_MS <= s.db.tokens[r].lastUsedAt
    ensures Rotations(s.log, r) <= (s.clock - s.db.tokens[r].createdAt) / REFRESH_COOLDOWN_MS
  {
    hide Accounts.Inv, Rotations, RowsLanded, WritersRegistered, ReadersOk, SwapsOnce, SwapsGone;
    Sessions.ReachableInv(s);
    assert RateAt(s, r);
  }

  /** Rotations of one row are a cooldown apart, and its `lastUsedAt` is no earlier than the latest. */
  ghost predicate Spaced(s: State) {
    && (forall e :: e in s.log && e.Rotated? ==> e.row in s.db.tokens && e.at <= s.db.tokens[e.row].lastUsedAt)
    && (forall i, j :: 0 <= i < j < |s.log| && s.log[i].Rotated? && s.log[j].Rotated? && s.log[i].row == s.log[j].row ==>
          s.log[i].at + REFRESH_COOLDOWN_MS <= s.log[j].at)
  }

  lemma SpacedQuiet(s: State, t: State)
    requires Spaced(s) && s.log <= t.log && (forall i :: |s.log| <= i < |t.log| ==> !t.log[i].Rotated?)
    requires forall r :: r in s.db.tokens ==> r in t.db.tokens && t.db.tokens[r].lastUsedAt == s.db.tokens[r].lastUsedAt
    ensures Spaced(t)
  {
    forall e | e in t.log && e.Rotated?
      ensures e in s.log
    {
      var i :| 0 <= i < |t.log| && t.log[i] == e;
      assert s.log[i] == e;
    }
  }

  lemma SpacedSwap(s: State, t: State, pid: Pid, e: Event)
    requires Spaced(s) && Executed(s, t, pid) && t.log == s.log + [e] && Swapped(s, t, s.procs[pid], e)
    requires ReaderOk(s, s.procs[pid])
    ensures Spaced(t)
  {
    hide Landed, Held;
    var r := e.row;
    assert s.db.tokens[r].lastUsedAt + REFRESH_COOLDOWN_MS <= e.at;
    forall x | x in t.log && x.Rotated?
      ensures x.row in t.db.tokens && x.at <= t.db.tokens[x.row].lastUsedAt
    {
      if x != e {
        assert x in s.log;
        assert RowView(s.db.tokens, s.procs[pid], s.clock, x.row, t.db.tokens[x.row]);
      }
    }
  }

  lemma SpacedStep(s: State, a: Action)
    requires Good(s) && Spaced(s) && Enabled(s, a)
    ensures Spaced(Apply(s, a))
  {
    hide Spaced, Accounts.Inv, Landed, RateKept, SwapsOnce, SwapsGone, Proceed, Execute, Shaped, Start, Executed, Swapped;
    if a.Exec? {
      var t := Execute(s, a.pid, a.fault);
      ExecIsExecuted(s, a.pid, a.fault);
      ExecHistory(s, a.pid, a.fault);
      if e :| t.log == s.log + [e] && Swapped(s, t, s.procs[a.pid], e) {
        SpacedSwap(s, t, a.pid, e);
      } else {
        SpacedQuiet(s, t);
      }
    } else {
      if a.Resume? {
        ProceedMoves(s, a.pid, a.f);
      } else {
        MovedAlone(s, a, if a.Tick? then 0 else a.pid);
      }
      SpacedQuiet(s, Apply(s, a));
    }
  }

  lemma {:induction false} SpacedRun(s: State, acts: seq<Action>, t: State)
    requires Good(s) && Spaced(s) && Runs(s, acts, t)
    ensures Spaced(t)
    decreases |acts|
  {
    hide Good, Spaced, Enabled, Apply;
    if acts != [] {
      SpacedStep(s, acts[0]);
      StepGood(s, acts[0]);
      SpacedRun(Apply(s, acts[0]), acts[1..], t);
    }
  }

  /** In every interleaving any two rotations of one row are at least a cooldown apart. */
  lemma RotationsAreSpaced(s: State, i: nat, j: nat)
    requires Reachable(s) && i < j < |s.log| && s.log[i].Rotated? && s.log[j].Rotated? && s.log[i].row == s.log[j].row
    ensures s.log[i].at + REFRESH_COOLDOWN_MS <= s.log[j].at <= s.clock
  {
    hide Good, Runs;
    var acts :| Runs(Init(), acts, s);
    InitGood();
    SpacedRun(Init(), acts, s);
    RowsInThePast(s, s.log[j].row);
    assert s.log[j] in s.log;
  }

  lemma RowsInThePast(s: State, r: Id)
    requires Reachable(s)
    ensures r in s.db.tokens ==> s.db.tokens[r].lastUsedAt <= s.clock
  {
    hide Accounts.Inv, Rotations, RowsLanded, WritersRegistered, ReadersOk, SwapsOnce, SwapsGone;
    Sessions.ReachableInv(s);
    assert r in s.db.tokens ==> RateAt(s, r);
  }

  lemma InitGood()
    ensures Good(Init()) && Spaced(Init())
  {
  }

  /** What a step may do to a row: rotate its token, revoke it, or nothing. */
  ghost predicate RowStep(s: State, a: Action, row: TokenRow, row': TokenRow) {
    || row' == row
    || (a.Exec? && a.pid in s.procs && s.procs[a.pid].at.RefreshRotate? && s.procs[a.pid].req == Refresh(row.token)
        && row' == row.(token := row'.token, expiresAt := row'.expiresAt, lastUsedAt := row'.lastUsedAt))
    || (a.Exec? && a.pid in s.procs && s.procs[a.pid].at.LogoutRevoke?
        && row' == row.(revokedAt := row'.revokedAt) && row'.revokedAt.Some?)
  }

  lemma EveryStepKeepsRows(s: State, a: Action, r: Id)
    requires Good(s) && Enabled(s, a) && r in s.db.tokens
    ensures r in Apply(s, a).db.tokens && RowStep(s, a, s.db.tokens[r], Apply(s, a).db.tokens[r])
  {
    hide Accounts.Inv, Sessions.Inv, Shaped, Execute, Continue;
    if a.Exec? {
      ExecView(s, a.pid, a.fault);
      assert RowView(s.db.tokens, s.procs[a.pid], s.clock, r, Apply(s, a).db.tokens[r]);
    }
  }

  /** No run loses a session row, hands it over, or clears a revocation; rotation leaves `revokedAt` alone. */
  lemma {:induction false} SessionRowsPersist(s: State, acts: seq<Action>, t: State, r: Id)
    requires Good(s) && Runs(s, acts, t) && r in s.db.tokens
    ensures r in t.db.tokens
    ensures
      var row, row' := s.db.tokens[r], t.db.tokens[r];
      && row'.authId == row.authId && row'.deviceInfo == row.deviceInfo && row'.createdAt == row.createdAt
      && (row.revokedAt.Some? ==> row'.revokedAt.Some?)
    decreases |acts|
  {
    hide Good, Enabled, Apply;
    if acts != [] {
      EveryStepKeepsRows(s, acts[0], r);
      StepGood(s, acts[0]);
      SessionRowsPersist(Apply(s, acts[0]), acts[1..], t, r);
    }
  }

  // ---- strings that will never refresh again ----

  /** No unrevoked row holds the string, and no statement in flight will store it. */
  ghost predicate Dead(s: State, token: string) {
    && Landed(s, token)
    && forall r :: r in s.db.tokens && s.db.tokens[r].token == token ==> s.db.tokens[r].revokedAt.Some?
  }

  lemma DeadThroughExec(s: State, s': State, pid: Pid, token: string)
    requires Executed(s, s', pid) && WritersRegistered(s) && Dead(s, token)
    ensures Dead(s', token)
  {
    LandedThroughExec(s, s', pid, token);
    forall r | r in s'.db.tokens && s'.db.tokens[r].token == token
      ensures s'.db.tokens[r].revokedAt.Some?
    {
      assert RowView(s.db.tokens, s.procs[pid], s.clock, r, s'.db.tokens[r]);
    }
  }

  lemma DeadStep(s: State, a: Action, token: string)
    requires Good(s) && Enabled(s, a) && Dead(s, token)
    ensures Dead(Apply(s, a), token)
  {
    hide Accounts.Inv, Landed, Shaped, Execute, Continue, RateKept, ReadersOk, SwapsGone, SwapsOnce, RowsLanded;
    LandedKept(s, a, token);
    if a.Exec? {
      ExecIsExecuted(s, a.pid, a.fault);
      DeadThroughExec(s, Apply(s, a), a.pid, token);
    }
  }

  lemma {:induction false} DeadForever(s: State, acts: seq<Action>, t: State, token: string)
    requires Good(s) && Runs(s, acts, t) && Dead(s, token)
    ensures Dead(t, token)
    decreases |acts|
  {
    hide Good, Enabled, Apply, Dead;
    if acts != [] {
      DeadStep(s, acts[0], token);
      StepGood(s, acts[0]);
      DeadForever(Apply(s, acts[0]), acts[1..], t, token);
    }
  }

  /** A refresh of this string that has not got past its SELECT, or has been refused there. */
  ghost predicate Refused(p: Proc) {
    || (p.at.RefreshFind? && (p.answer.Some? && p.answer.value.TokenAnswer? && p.answer.value.token.Some? ==>
          p.answer.value.token.value.1.revokedAt.Some?))
    || p.at == Replied(Error(InvalidRefreshToken))
    || p.at == Replied(Error(Thrown))
  }

  /** Every refresh of this string that the request with this pid may be is refused. */
  ghost predicate RefusedAt(s: State, pid: Pid, token: string) {
    pid in s.procs && s.procs[pid].req == Refresh(token) ==> Refused(s.procs[pid])
  }

  lemma RefusedOwnExec(s: State, pid: Pid, fault: bool, token: string)
    requires Enabled(s, Exec(pid, fault)) && Dead(s, token) && RefusedAt(s, pid, token)
    ensures RefusedAt(Execute(s, pid, fault), pid, token)
  {
    hide Landed, DbAfter, Recorded, Answers;
  }

  lemma RefusedOwnResume(s: State, pid: Pid, f: Fresh, token: string)
    requires Enabled(s, Resume(pid, f)) && RefusedAt(s, pid, token)
    ensures RefusedAt(Proceed(s, pid, f), pid, token)
  {
    hide Concluded, ContinueOtp, ContinueAccount;
  }

  lemma RefusedStep(s: State, a: Action, pid: Pid, token: string)
    requires Enabled(s, a) && Dead(s, token) && RefusedAt(s, pid, token)
    ensures RefusedAt(Apply(s, a), pid, token)
  {
    hide Landed, DbAfter, Recorded, Answers, Reads, Continue, Concluded, StmtAt, Accepts;
    if a.Exec? && a.pid == pid {
      RefusedOwnExec(s, pid, a.fault, token);
    } else if a.Resume? && a.pid == pid {
      RefusedOwnResume(s, pid, a.f, token);
    }
  }

  lemma {:induction false} DeadTokenRefused(s: State, acts: seq<Action>, t: State, token: string, pid: Pid)
    requires Good(s) && Runs(s, acts, t) && Dead(s, token) && RefusedAt(s, pid, token)
    ensures RefusedAt(t, pid, token)
    decreases |acts|
  {
    hide Good, Enabled, Apply, Dead, RefusedAt;
    if acts != [] {
      DeadStep(s, acts[0], token);
      RefusedStep(s, acts[0], pid, token);
      StepGood(s, acts[0]);
      DeadTokenRefused(Apply(s, acts[0]), acts[1..], t, token, pid);
    }
  }

  /** The request has not begun, or the database has not executed the SELECT of its refresh. */
  ghost predicate NotYetRead(s: State, pid: Pid) {
    pid in s.procs && s.procs[pid].req.Refresh? ==> s.procs[pid].at.RefreshFind? && s.procs[pid].answer.None?
  }

  /** A rotated-out string is never found again, and every refresh of it whose SELECT comes later is refused. */
  lemma RotatedOutNeverRefreshes(s: State, acts: seq<Action>, t: State, e: Event, pid: Pid)
    requires Reachable(s) && Runs(s, acts, t) && e in s.log && e.Rotated? && NotYetRead(s, pid)
    ensures FindToken(t.db.tokens, e.oldToken).None?
    ensures RefusedAt(t, pid, e.oldToken)
  {
    Sessions.ReachableInv(s);
    DeadTokenRefused(s, acts, t, e.oldToken, pid);
    Accounts.RunGrows(s, acts, t);
    Sessions.RunKeeps(s, acts, t);
    assert e in t.log;
  }

  /**
   Revocation is permanent: the row stays revoked, and whatever token a later rotation puts into it, every refresh
   of that token whose SELECT has not been executed yet is refused.
   */
  lemma RevocationIsPermanent(s: State, acts: seq<Action>, t: State, r: Id, later: seq<Action>, u: State, pid: Pid)
    requires Reachable(s) && Runs(s, acts, t) && Runs(t, later, u)
    requires r in s.db.tokens && s.db.tokens[r].revokedAt.Some? && NotYetRead(t, pid)
    ensures r in t.db.tokens && t.db.tokens[r].revokedAt.Some?
    ensures RefusedAt(u, pid, t.db.tokens[r].token)
  {
    hide Runs, Accounts.Inv, ReadersOk, SwapsGone, SwapsOnce, RateKept, WritersRegistered;
    Sessions.ReachableInv(s);
    SessionRowsPersist(s, acts, t, r);
    Sessions.RunKeeps(s, acts, t);
    RevokedRowIsDead(t, r);
    DeadTokenRefused(t, later, u, t.db.tokens[r].token, pid);
  }

  lemma RevokedRowIsDead(s: State, r: Id)
    requires Good(s) && r in s.db.tokens && s.db.tokens[r].revokedAt.Some?
    ensures Dead(s, s.db.tokens[r].token)
  {
    hide Accounts.ProcsOk, ReadersOk, SwapsGone, SwapsOnce, RateKept, WritersRegistered;
  }

  // ---- expired sessions ----

  /** The SELECT has been answered with a row. */
  predicate HasRow(p: Proc) {
    p.at.RefreshFind? && p.answer.Some? && p.answer.value.TokenAnswer? && p.answer.value.token.Some?
  }

  /** Whoever has read the string's row has read an expired one, and nobody is past that. */
  ghost predicate NobodyRotates(s: State, token: string) {
    forall pid :: pid in s.procs && s.procs[pid].req == Refresh(token) ==>
      && !s.procs[pid].at.RefreshOwner? && !s.procs[pid].at.RefreshRotate?
      && (HasRow(s.procs[pid]) ==> s.procs[pid].answer.value.token.value.1.expiresAt < s.clock)
  }

  /** The session has not been refreshed in time. */
  ghost predicate Lapsed(s: State, r: Id, token: string) {
    r in s.db.tokens && s.db.tokens[r].token == token && s.db.tokens[r].expiresAt < s.clock && NobodyRotates(s, token)
  }

  /** This refresh of the string has not got past its SELECT, or has been refused there. */
  ghost predicate LapsedAt(s: State, pid: Pid, token: string) {
    pid in s.procs && s.procs[pid].req == Refresh(token) ==>
      s.procs[pid].at.RefreshFind? || s.procs[pid].at == Replied(Error(InvalidRefreshToken)) || s.procs[pid].at == Replied(Error(Thrown))
  }

  lemma LapsedRow(s: State, pid: Pid, fault: bool, r: Id, token: string)
    requires Good(s) && Enabled(s, Exec(pid, fault)) && Lapsed(s, r, token)
    ensures
      var t := Execute(s, pid, fault);
      && r in t.db.tokens && t.db.tokens[r].token == token && t.db.tokens[r].expiresAt == s.db.tokens[r].expiresAt
      && (forall i :: |s.log| <= i < |t.log| && t.log[i].Rotated? ==> t.log[i].row != r)
  {
    hide Accounts.Inv, Sessions.Inv, Shaped, Execute, HistoryView;
    var t := Execute(s, pid, fault);
    ExecView(s, pid, fault);
    assert RowView(s.db.tokens, s.procs[pid], s.clock, r, t.db.tokens[r]);
    assert HistoryView(s, t, s.procs[pid]) by { SessionHistory(s, pid, fault); }
    NotSwapped(s, t, pid, r, token);
  }

  lemma SessionHistory(s: State, pid: Pid, fault: bool)
    requires Good(s) && Enabled(s, Exec(pid, fault))
    ensures HistoryView(s, Execute(s, pid, fault), s.procs[pid])
  {
    hide Accounts.Inv, HistoryView, Execute, ReadersOk, SwapsGone, SwapsOnce, RateKept;
    ExecHistory(s, pid, fault);
  }

  lemma NotSwapped(s: State, t: State, pid: Pid, r: Id, token: string)
    requires pid in s.procs && HistoryView(s, t, s.procs[pid]) && Lapsed(s, r, token)
    ensures forall i :: |s.log| <= i < |t.log| && t.log[i].Rotated? ==> t.log[i].row != r
  {
  }

  lemma LapsedReader(s: State, pid: Pid, fault: bool, r: Id, token: string)
    requires Good(s) && Enabled(s, Exec(pid, fault)) && Lapsed(s, r, token)
    ensures NobodyRotates(Execute(s, pid, fault), token)
  {
    hide Good, Shaped, DbAfter, Recorded, Reads, Accepts, StmtAt;
    if s.procs[pid].at.RefreshFind? && s.procs[pid].req == Refresh(token) {
      ReadsLapsed(s, pid, fault, r, token);
    }
  }

  lemma ReadsLapsed(s: State, pid: Pid, fault: bool, r: Id, token: string)
    requires Good(s) && Enabled(s, Exec(pid, fault)) && r in s.db.tokens && s.db.tokens[r].token == token
    requires s.procs[pid].at.RefreshFind? && s.procs[pid].req == Refresh(token)
    ensures
      var p := Execute(s, pid, fault).procs[pid];
      HasRow(p) ==> p.answer.value.token.value.1 == s.db.tokens[r]
  {
    hide Good, DbAfter, Recorded, Answers;
    TokensUnique(s);
    assert FindToken(s.db.tokens, token) == Some(r);
  }

  lemma LapsedResume(s: State, pid: Pid, f: Fresh, r: Id, token: string)
    requires Enabled(s, Resume(pid, f)) && Lapsed(s, r, token)
    ensures Lapsed(Proceed(s, pid, f), r, token)
    ensures forall q :: LapsedAt(s, q, token) ==> LapsedAt(Proceed(s, pid, f), q, token)
    ensures forall i :: |s.log| <= i < |Proceed(s, pid, f).log| ==> !Proceed(s, pid, f).log[i].Rotated?
  {
    hide ContinueOtp, ContinueAccount;
  }

  lemma LapsedStep(s: State, a: Action, r: Id, token: string)
    requires Good(s) && Enabled(s, a) && Lapsed(s, r, token)
    ensures Lapsed(Apply(s, a), r, token)
    ensures forall q :: LapsedAt(s, q, token) ==> LapsedAt(Apply(s, a), q, token)
    ensures s.log <= Apply(s, a).log
    ensures forall i :: |s.log| <= i < |Apply(s, a).log| && Apply(s, a).log[i].Rotated? ==> Apply(s, a).log[i].row != r
  {
    hide Good, Shaped, Continue, Concluded, DbAfter, Accepts, Reads, Recorded, StmtAt;
    match a
    case Tick(_) =>
    case Begin(_, _) =>
    case Exec(pid, fault) =>
      LapsedRow(s, pid, fault, r, token);
      LapsedReader(s, pid, fault, r, token);
    case Resume(pid, f) => LapsedResume(s, pid, f, r, token);
  }

  lemma {:induction false} LapsedRun(s: State, acts: seq<Action>, t: State, r: Id, token: string)
    requires Good(s) && Runs(s, acts, t) && Lapsed(s, r, token)
    ensures Lapsed(t, r, token) && s.log <= t.log
    ensures forall q :: LapsedAt(s, q, token) ==> LapsedAt(t, q, token)
    ensures forall i :: |s.log| <= i < |t.log| && t.log[i].Rotated? ==> t.log[i].row != r
    decreases |acts|
  {
    hide Good, Enabled, Apply, Lapsed, LapsedAt;
    if acts != [] {
      LapsedStep(s, acts[0], r, token);
      StepGood(s, acts[0]);
      LapsedRun(Apply(s, acts[0]), acts[1..], t, r, token);
    }
  }

  /** No refresh of this string has got past its SELECT: each is still to read, or answered. */
  ghost predicate NonePastSelect(s: State, token: string) {
    forall pid :: pid in s.procs && s.procs[pid].req == Refresh(token) ==>
      s.procs[pid].at.Replied? || (s.procs[pid].at.RefreshFind? && s.procs[pid].answer.None?)
  }

  /**
   A session that was not refreshed in time is over, in every interleaving: once its expiry has passed with no refresh
   of its token under way, no run ever rotates its row, the token stays where it is, and every refresh of it whose
   SELECT comes later is answered INVALID_REFRESH_TOKEN (or throws).
   */
  lemma ExpiryIsPermanent(s: State, acts: seq<Action>, t: State, r: Id, pid: Pid)
    requires Reachable(s) && Runs(s, acts, t) && r in s.db.tokens && s.db.tokens[r].expiresAt < s.clock
    requires NonePastSelect(s, s.db.tokens[r].token) && NotYetRead(s, pid)
    ensures r in t.db.tokens && t.db.tokens[r].token == s.db.tokens[r].token && t.db.tokens[r].expiresAt < t.clock
    ensures s.log <= t.log && forall i :: |s.log| <= i < |t.log| && t.log[i].Rotated? ==> t.log[i].row != r
    ensures LapsedAt(t, pid, s.db.tokens[r].token)
  {
    hide Runs, Good, Reachable, Lapsed, LapsedAt, NonePastSelect, NotYetRead, Accounts.Inv, Sessions.Inv;
    Sessions.ReachableInv(s);
    GoodParts(s);
    LapseBegins(s, r, pid);
    LapsedIsExpired(t, r, s.db.tokens[r].token);
    LapsedRun(s, acts, t, r, s.db.tokens[r].token);
  }

  lemma LapseBegins(s: State, r: Id, pid: Pid)
    requires r in s.db.tokens && s.db.tokens[r].expiresAt < s.clock
    requires NonePastSelect(s, s.db.tokens[r].token) && NotYetRead(s, pid)
    ensures Lapsed(s, r, s.db.tokens[r].token) && LapsedAt(s, pid, s.db.tokens[r].token)
  {
  }

  lemma LapsedIsExpired(s: State, r: Id, token: string)
    ensures Lapsed(s, r, token) ==> r in s.db.tokens && s.db.tokens[r].token == token && s.db.tokens[r].expiresAt < s.clock
  {
  }

  lemma GoodParts(s: State)
    requires Accounts.Inv(s) && Sessions.Inv(s)
    ensures Good(s)
  {
  }

  // ---- a refresh that was under way when its session was revoked ----

  /** The request has read row r, and anything it answers is a dead token. */
  ghost predicate Bound(s: State, p: Proc, r: Id) {
    match p.at
    case RefreshFind =>
      p.answer.Some? && p.answer.value.TokenAnswer? && p.answer.value.token.Some? && p.answer.value.token.value.0 == r
    case RefreshOwner(r', _) => r' == r
    case RefreshRotate(r', _, _, _) => r' == r
    case Replied(Tokens(_, token)) => Dead(s, token)
    case Replied(Error(_)) => true
    case _ => false
  }

  lemma BoundOwnResume(s: State, pid: Pid, f: Fresh, r: Id)
    requires Good(s) && Enabled(s, Resume(pid, f)) && Bound(s, s.procs[pid], r) && s.procs[pid].req.Refresh?
    requires r in s.db.tokens && s.db.tokens[r].revokedAt.Some?
    ensures Bound(Proceed(s, pid, f), Proceed(s, pid, f).procs[pid], r)
  {
    hide Concluded, ContinueOtp, ContinueAccount, Accounts.Inv, SwapsGone, SwapsOnce, RateKept;
    assert ReaderOk(s, s.procs[pid]);
  }

  lemma BoundStep(s: State, a: Action, pid: Pid, r: Id)
    requires Good(s) && Enabled(s, a) && pid in s.procs && s.procs[pid].req.Refresh? && Bound(s, s.procs[pid], r)
    requires r in s.db.tokens && s.db.tokens[r].revokedAt.Some?
    ensures
      var t := Apply(s, a);
      pid in t.procs && t.procs[pid].req == s.procs[pid].req && Bound(t, t.procs[pid], r)
  {
    hide Good, Dead, DbAfter, Recorded, Answers, Reads, Continue, Concluded, StmtAt, Accepts;
    if a.Resume? && a.pid == pid {
      BoundOwnResume(s, pid, a.f, r);
    } else {
      var p := s.procs[pid];
      if p.at.Replied? && p.at.reply.Tokens? {
        DeadStep(s, a, p.at.reply.refresh);
      }
    }
  }

  lemma {:induction false} BoundRun(s: State, acts: seq<Action>, t: State, pid: Pid, r: Id)
    requires Good(s) && Runs(s, acts, t) && pid in s.procs && s.procs[pid].req.Refresh? && Bound(s, s.procs[pid], r)
    requires r in s.db.tokens && s.db.tokens[r].revokedAt.Some?
    ensures pid in t.procs && Bound(t, t.procs[pid], r)
    decreases |acts|
  {
    hide Good, Enabled, Apply, Bound;
    if acts != [] {
      BoundStep(s, acts[0], pid, r);
      EveryStepKeepsRows(s, acts[0], r);
      StepGood(s, acts[0]);
      BoundRun(Apply(s, acts[0]), acts[1..], t, pid, r);
    }
  }

  /**
   A refresh that had read its row before the row was revoked may still be answered, but only with a refresh token
   that is dead: refused for ever.
   */
  lemma InFlightRefreshYieldsDeadToken(s: State, acts: seq<Action>, t: State, pid: Pid, r: Id)
    requires Reachable(s) && Runs(s, acts, t) && r in s.db.tokens && s.db.tokens[r].revokedAt.Some?
    requires pid in s.procs && s.procs[pid].req.Refresh? && !s.procs[pid].at.Replied? && Bound(s, s.procs[pid], r)
    ensures pid in t.procs
    ensures t.procs[pid].at.Replied? && t.procs[pid].at.reply.Tokens? ==> Dead(t, t.procs[pid].at.reply.refresh)
  {
    Sessions.ReachableInv(s);
    BoundRun(s, acts, t, pid, r);
  }

  // ---- the two races, and what they leave behind ----

  /**
   A refresh that lost the race (its token is no longer in the table when its UPDATE is executed) changes nothing,
   yet is answered with the token it generated. That token is dead.
   */
  lemma LosingRefreshAnswersDeadToken(s: State, pid: Pid, token: string, f: Fresh)
    requires Good(s) && Enabled(s, Exec(pid, false)) && s.procs[pid].at.RefreshRotate? && s.procs[pid].req == Refresh(token)
    requires !Held(s.db.tokens, token)
    requires Enabled(Execute(s, pid, false), Resume(pid, f))
    ensures
      var t := Proceed(Execute(s, pid, false), pid, f);
      && t.db == s.db
      && t.procs[pid].at == Replied(Tokens(Mint(s.procs[pid].at.found.authId, s.clock), s.procs[pid].at.newToken))
      && Dead(t, s.procs[pid].at.newToken)
  {
    hide Accounts.Inv, ReadersOk, SwapsGone, SwapsOnce, RateKept;
    var p := s.procs[pid];
    assert TokensAfter(s.db.tokens, StmtOf(p), s.clock) == s.db.tokens;
  }

  /** An unrevoked row holds the string. */
  ghost predicate LiveHolder(tokens: map<Id, TokenRow>, token: string) {
    exists r :: r in tokens && tokens[r].token == token && tokens[r].revokedAt.None?
  }

  lemma WinningRefresh(s: State, pid: Pid, token: string, r: Id, f: Fresh)
    requires Good(s) && Enabled(s, Exec(pid, false)) && s.procs[pid].at.RefreshRotate? && s.procs[pid].req == Refresh(token)
    requires r in s.db.tokens && s.db.tokens[r].token == token
    requires Enabled(Execute(s, pid, false), Resume(pid, f))
    ensures
      var t, newToken := Proceed(Execute(s, pid, false), pid, f), s.procs[pid].at.newToken;
      && t.procs[pid].at == Replied(Tokens(Mint(s.procs[pid].at.found.authId, s.clock), newToken))
      && (Dead(t, newToken) <==> s.db.tokens[r].revokedAt.Some?)
  {
    hide Accounts.ProcsOk, Accounts.OrphansOwed, ReadersOk, SwapsGone, SwapsOnce, RateKept, DbAfter, Accepts, Recorded, Reads;
    RotationLands(s, pid, token, r);
    var u := Execute(s, pid, false);
    assert Good(u) by { StepGood(s, Exec(pid, false)); }
  }

  /**
   When the answer of a refresh is worth something: the refresh token it carries is live exactly if an unrevoked row
   holds the presented token when the UPDATE is executed. Otherwise it is dead on arrival, after the same answer.
   */
  lemma RefreshAnswerIsLiveExactly(s: State, pid: Pid, token: string, f: Fresh)
    requires Good(s) && Enabled(s, Exec(pid, false)) && s.procs[pid].at.RefreshRotate? && s.procs[pid].req == Refresh(token)
    requires Enabled(Execute(s, pid, false), Resume(pid, f))
    ensures
      var t, newToken := Proceed(Execute(s, pid, false), pid, f), s.procs[pid].at.newToken;
      && t.procs[pid].at == Replied(Tokens(Mint(s.procs[pid].at.found.authId, s.clock), newToken))
      && (!Dead(t, newToken) <==> LiveHolder(s.db.tokens, token))
  {
    hide Good, Dead, Execute, Proceed;
    if Held(s.db.tokens, token) {
      var r :| r in s.db.tokens && s.db.tokens[r].token == token;
      WinningRefresh(s, pid, token, r, f);
      TokensUnique(s);
    } else {
      LosingRefreshAnswersDeadToken(s, pid, token, f);
    }
  }

  lemma TokensUnique(s: State)
    requires Good(s)
    ensures UniqueToken(s.db.tokens)
  {
  }

  /** A logout that has read a live session revokes it exactly if the presented token is still the row's token. */
  lemma LogoutRevokesExactlyTheCurrentToken(s: State, pid: Pid, token: string, r: Id)
    requires Good(s) && Enabled(s, Exec(pid, false)) && s.procs[pid].at.LogoutRevoke? && s.procs[pid].req == Logout(token)
    requires r in s.db.tokens && s.db.tokens[r].revokedAt.None?
    ensures
      var t := Execute(s, pid, false);
      r in t.db.tokens && (t.db.tokens[r].revokedAt.Some? <==> s.db.tokens[r].token == token)
  {
    hide Accounts.Inv, Sessions.Inv;
  }

  /** The race a logout can lose: a rotation executed first leaves the session live, and the answer is still success. */
  lemma LogoutCanMissItsSession(s: State, out: Pid, rot: Pid, token: string, r: Id, f: Fresh) returns (t: State)
    requires Good(s) && Enabled(s, Exec(out, false)) && Enabled(s, Exec(rot, false))
    requires s.procs[out].at.LogoutRevoke? && s.procs[out].req == Logout(token)
    requires s.procs[rot].at.RefreshRotate? && s.procs[rot].req == Refresh(token)
    requires r in s.db.tokens && s.db.tokens[r].revokedAt.None? && s.db.tokens[r].token == token
    requires f.id !in s.accounts && f.token !in s.generated
    ensures Runs(s, [Exec(rot, false), Exec(out, false), Resume(out, f)], t)
    ensures out in t.procs && t.procs[out].at == Replied(LoggedOut)
    ensures r in t.db.tokens && t.db.tokens[r].revokedAt.None? && t.db.tokens[r].token != token
  {
    hide Accounts.Inv, ReadersOk, SwapsGone, SwapsOnce, RateKept, Shaped, Execute, Proceed;
    RotationLands(s, rot, token, r);
    LogoutStillRuns(s, out, rot);
    var u := Apply(s, Exec(rot, false));
    MissedLogout(u, out, token, r, f);
    t := Apply(Apply(u, Exec(out, false)), Resume(out, f));
    RunsThree(s, Exec(rot, false), Exec(out, false), Resume(out, f));
  }

  lemma RunsThree(s: State, a: Action, b: Action, c: Action)
    requires Enabled(s, a) && Enabled(Apply(s, a), b) && Enabled(Apply(Apply(s, a), b), c)
    ensures Runs(s, [a, b, c], Apply(Apply(Apply(s, a), b), c))
  {
    hide Runs, Enabled, Apply;
    RunsNone(s);
    RunsSnoc(s, [], s, a);
    RunsSnoc(s, [] + [a], Apply(s, a), b);
    RunsSnoc(s, [] + [a] + [b], Apply(Apply(s, a), b), c);
    assert [] + [a] + [b] + [c] == [a, b, c];
  }

  lemma RotationLands(s: State, pid: Pid, token: string, r: Id)
    requires RowsLanded(s) && WritersRegistered(s)
    requires Enabled(s, Exec(pid, false)) && s.procs[pid].at.RefreshRotate? && s.procs[pid].req == Refresh(token)
    requires r in s.db.tokens && s.db.tokens[r].token == token
    ensures
      var t := Execute(s, pid, false);
      && r in t.db.tokens && t.db.tokens[r].token == s.procs[pid].at.newToken != token
      && t.db.tokens[r].revokedAt == s.db.tokens[r].revokedAt
      && t.db.tokens[r].lastUsedAt == s.procs[pid].at.at
      && t.db.tokens[r].expiresAt == s.procs[pid].at.at + REFRESH_TOKEN_EXPIRY_MS
      && t.procs[pid].answer == Some(Acknowledged)
  {
    forall x | x in s.db.tokens
      ensures s.db.tokens[x].token != s.procs[pid].at.newToken
    {
      assert Landed(s, s.db.tokens[x].token);
    }
  }

  lemma LogoutStillRuns(s: State, out: Pid, rot: Pid)
    requires Enabled(s, Exec(out, false)) && Enabled(s, Exec(rot, false)) && out != rot
    ensures
      var t := Execute(s, rot, false);
      Enabled(t, Exec(out, false)) && t.procs[out] == s.procs[out] && t.accounts == s.accounts && t.generated == s.generated
  {
    hide Shaped, StmtAt, Accepts, DbAfter, Reads, Recorded;
  }

  lemma MissedLogout(s: State, pid: Pid, token: string, r: Id, f: Fresh)
    requires Enabled(s, Exec(pid, false)) && s.procs[pid].at.LogoutRevoke? && s.procs[pid].req == Logout(token)
    requires r in s.db.tokens && s.db.tokens[r].token != token
    requires f.id !in s.accounts && f.token !in s.generated
    ensures
      var t := Execute(s, pid, false);
      && r in t.db.tokens && t.db.tokens[r] == s.db.tokens[r]
      && Enabled(t, Resume(pid, f))
      && Proceed(t, pid, f).db == t.db
      && pid in Proceed(t, pid, f).procs && Proceed(t, pid, f).procs[pid].at == Replied(LoggedOut)
  {
  }

  // ---- what the two endpoints can answer ----

  /** Neither endpoint answers EXPIRED_TOKEN, and logout answers no code that makes a client log out. */
  ghost predicate CodeOk(p: Proc) {
    p.at.Replied? && p.at.reply.Error? ==>
      var code := p.at.reply.code;
      && (p.req.Refresh? ==> code.InvalidRefreshToken? || code.Unauthorized? || code.RateLimited? || code.Thrown?)
      && (p.req.Logout? ==> code.Unauthorized? || code.Thrown?)
  }

  ghost predicate CodesOk(s: State) {
    AllShaped(s) && forall pid :: pid in s.procs ==> CodeOk(s.procs[pid])
  }

  lemma CodesStep(s: State, a: Action)
    requires CodesOk(s) && Enabled(s, a)
    ensures CodesOk(Apply(s, a))
  {
    hide Concluded, ContinueOtp, ContinueAccount, DbAfter, Reads, Recorded, Accepts;
    ShapedKept(s, a);
    if a.Resume? {
      var p := s.procs[a.pid];
      assert p.req.Refresh? || p.req.Logout? ==> SessionPoint(p.at);
    }
  }

  lemma {:induction false} CodesRun(s: State, acts: seq<Action>, t: State)
    requires CodesOk(s) && Runs(s, acts, t)
    ensures CodesOk(t)
    decreases |acts|
  {
    hide CodesOk, Enabled, Apply;
    if acts != [] {
      CodesStep(s, acts[0]);
      CodesRun(Apply(s, acts[0]), acts[1..], t);
    }
  }

  lemma EndpointCodes(s: State, pid: Pid)
    requires Reachable(s) && pid in s.procs
    ensures CodeOk(s.procs[pid])
  {
    var acts :| Runs(Init(), acts, s);
    CodesRun(Init(), acts, s);
  }
}
