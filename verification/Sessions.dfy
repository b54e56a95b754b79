/**
 Sessions under interleaving. A refresh reads a row by its token and later writes `WHERE token = old`: the UPDATE is
 a compare-and-swap on the token string. This module proves what that gives: each string is swapped out at most once
 and never comes back, rotations of a row keep their distance, and a revoked session never refreshes again.
 */
module Sessions {
  import opened Schema
  import opened Config
  import opened Handlers
  import opened Server
  import Accounts

  predicate Writes(at: Point) {
    at.SaveTokens? || at.RefreshRotate?
  }

  /** The statement in flight would put this string into the table. */
  predicate Pending(p: Proc, token: string) {
    Writes(p.at) && p.at.newToken == token && p.answer.None?
  }

  /** The string has been generated, and the one statement that could store it has been executed. */
  ghost predicate Landed(s: State, token: string) {
    token in s.generated && s.generated[token] in s.procs && !Pending(s.procs[s.generated[token]], token)
  }

  ghost predicate Held(tokens: map<Id, TokenRow>, token: string) {
    exists r :: r in tokens && tokens[r].token == token
  }

  /** No row holds the string and none ever will. */
  ghost predicate Gone(s: State, token: string) {
    Landed(s, token) && !Held(s.db.tokens, token)
  }

  /** Rows hold landed strings only. */
  ghost predicate RowsLanded(s: State) {
    forall r :: r in s.db.tokens ==> Landed(s, s.db.tokens[r].token)
  }

  ghost predicate WritersRegistered(s: State) {
    && (forall token :: token in s.generated ==> s.generated[token] in s.procs)
    && (forall pid :: pid in s.procs && Writes(s.procs[pid].at) ==>
          s.procs[pid].at.newToken in s.generated && s.generated[s.procs[pid].at.newToken] == pid)
  }

  /** What a refresh that has read (r, row) may rely on until it writes. */
  ghost predicate Snapshot(s: State, r: Id, row: TokenRow) {
    && r in s.db.tokens
    && Landed(s, row.token)
    && forall x :: x in s.db.tokens && s.db.tokens[x].token == row.token ==>
         x == r && s.db.tokens[x].lastUsedAt == row.lastUsedAt
  }

  ghost predicate ReaderOk(s: State, p: Proc) {
    match p.at
    case RefreshFind =>
      p.answer.Some? && p.answer.value.TokenAnswer? && p.answer.value.token.Some? ==>
        p.req.Refresh? && p.answer.value.token.value.1.token == p.req.token
        && Snapshot(s, p.answer.value.token.value.0, p.answer.value.token.value.1)
    case RefreshOwner(r, row) => p.req.Refresh? && row.token == p.req.token && Snapshot(s, r, row)
    case RefreshRotate(r, row, newToken, at) =>
      && p.req.Refresh? && row.token == p.req.token && Snapshot(s, r, row)
      && row.lastUsedAt + REFRESH_COOLDOWN_MS <= at <= s.clock
      && forall x :: x in s.db.tokens && s.db.tokens[x].token == newToken ==> x == r
    case _ => true
  }

  ghost predicate ReadersOk(s: State) {
    forall pid :: pid in s.procs ==> ReaderOk(s, s.procs[pid])
  }

  function Rotations(log: seq<Event>, r: Id): nat {
    if log == [] then 0
    else Rotations(log[..|log| - 1], r) + if log[|log| - 1].Rotated? && log[|log| - 1].row == r then 1 else 0
  }

  ghost predicate SwapsOnce(log: seq<Event>) {
    forall i, j :: 0 <= i < j < |log| && log[i].Rotated? && log[j].Rotated? ==> log[i].oldToken != log[j].oldToken
  }

  ghost predicate SwapsGone(s: State) {
    forall e :: e in s.log && e.Rotated? ==> e.row in s.db.tokens && Gone(s, e.oldToken)
  }

  ghost predicate RateAt(s: State, r: Id)
    requires r in s.db.tokens
  {
    && s.db.tokens[r].createdAt + REFRESH_COOLDOWN_MS * Rotations(s.log, r) <= s.db.tokens[r].lastUsedAt
    && s.db.tokens[r].lastUsedAt <= s.clock
  }

  ghost predicate RateKept(s: State) {
    forall r :: r in s.db.tokens ==> RateAt(s, r)
  }

  ghost predicate Inv(s: State) {
    && RowsLanded(s)
    && WritersRegistered(s)
    && ReadersOk(s)
    && SwapsOnce(s.log)
    && SwapsGone(s)
    && RateKept(s)
  }

  // ---- the history of one statement or block ----

  lemma {:induction false} RotationsConcat(a: seq<Event>, b: seq<Event>, r: Id)
    ensures Rotations(a + b, r) == Rotations(a, r) + Rotations(b, r)
  {
    if b == [] {
      assert a + b == a;
    } else {
      assert (a + b)[..|a + b| - 1] == a + b[..|b| - 1];
      RotationsConcat(a, b[..|b| - 1], r);
    }
  }

  lemma {:induction false} NoRotations(log: seq<Event>, r: Id)
    requires forall e :: e in log && e.Rotated? ==> e.row != r
    ensures Rotations(log, r) == 0
  {
    if log != [] {
      NoRotations(log[..|log| - 1], r);
    }
  }

  // ---- execution of one statement ----

  /** How a row may look after a request p has had its statement executed: as before, inserted, or rotated. */
  ghost predicate RowView(tokens: map<Id, TokenRow>, p: Proc, clock: Time, r: Id, row: TokenRow) {
    || (r in tokens && row == tokens[r].(revokedAt := row.revokedAt)
        && (row.revokedAt != tokens[r].revokedAt ==>
              p.at.LogoutRevoke? && p.req == Logout(tokens[r].token) && row.revokedAt.Some?))
    || (p.at.SaveTokens? && r !in tokens && row.token == p.at.newToken && row.lastUsedAt == row.createdAt == clock
        && row.expiresAt == p.at.at + REFRESH_TOKEN_EXPIRY_MS && row.revokedAt.None?)
    || (p.at.RefreshRotate? && p.req.Refresh? && r in tokens && tokens[r].token == p.req.token
        && row == tokens[r].(token := p.at.newToken, expiresAt := p.at.at + REFRESH_TOKEN_EXPIRY_MS, lastUsedAt := p.at.at))
  }

  ghost predicate TableView(tokens: map<Id, TokenRow>, p: Proc, clock: Time, tokens': map<Id, TokenRow>) {
    && tokens.Keys <= tokens'.Keys
    && forall r :: r in tokens' ==> RowView(tokens, p, clock, r, tokens'[r])
  }

  lemma StatementView(db: Db, p: Proc, clock: Time)
    requires Shaped(p) && !p.at.Replied? && Accepts(db, StmtOf(p))
    requires Accounts.SessionsKept(db.tokens, TokensAfter(db.tokens, StmtOf(p), clock))
    ensures TableView(db.tokens, p, clock, TokensAfter(db.tokens, StmtOf(p), clock))
  {
    hide Answers;
  }

  lemma ExecView(s: State, pid: Pid, fault: bool)
    requires Accounts.Inv(s) && Enabled(s, Exec(pid, fault))
    ensures TableView(s.db.tokens, s.procs[pid], s.clock, Execute(s, pid, fault).db.tokens)
  {
    hide Shaped, StmtAt, Accepts, Reads, Recorded, AuthAfter, UsersAfter, OtpsAfter, TokensAfter, Accounts.Inv;
    if !fault && Accepts(s.db, StmtOf(s.procs[pid])) {
      Accounts.ExecSessions(s, pid);
      StatementView(s.db, s.procs[pid], s.clock);
    }
  }

  lemma LandedKept(s: State, a: Action, token: string)
    requires Enabled(s, a) && Landed(s, token)
    ensures Landed(Apply(s, a), token)
  {
    hide Shaped, Reads, Recorded, Accepts, DbAfter, StmtAt, Concluded, Fits, Answers;
  }

  /** The part of an executed statement that matters to sessions. */
  ghost predicate Executed(s: State, s': State, pid: Pid) {
    && pid in s.procs && pid in s'.procs && InFlight(s.procs[pid]) && s'.procs[pid].answer.Some?
    && s'.procs == s.procs[pid := s.procs[pid].(answer := s'.procs[pid].answer)]
    && s'.clock == s.clock && s'.generated == s.generated
    && TableView(s.db.tokens, s.procs[pid], s.clock, s'.db.tokens)
  }

  lemma ExecIsExecuted(s: State, pid: Pid, fault: bool)
    requires Accounts.Inv(s) && Enabled(s, Exec(pid, fault))
    ensures Executed(s, Execute(s, pid, fault), pid)
  {
    hide Shaped, Reads, Recorded, Accepts, DbAfter, StmtAt, TableView, Accounts.Inv;
    ExecView(s, pid, fault);
  }

  lemma LandedThroughExec(s: State, s': State, pid: Pid, token: string)
    requires Executed(s, s', pid) && Landed(s, token)
    ensures Landed(s', token)
  {
  }

  lemma RowsLandedThroughExec(s: State, s': State, pid: Pid)
    requires Executed(s, s', pid) && RowsLanded(s) && WritersRegistered(s)
    ensures RowsLanded(s') && WritersRegistered(s')
  {
  }

  lemma SnapshotThroughExec(s: State, s': State, pid: Pid, r: Id, row: TokenRow)
    requires Executed(s, s', pid) && WritersRegistered(s) && Snapshot(s, r, row)
    ensures Snapshot(s', r, row)
  {
    LandedThroughExec(s, s', pid, row.token);
    forall x | x in s'.db.tokens && s'.db.tokens[x].token == row.token
      ensures x == r && s'.db.tokens[x].lastUsedAt == row.lastUsedAt
    {
      assert RowView(s.db.tokens, s.procs[pid], s.clock, x, s'.db.tokens[x]);
      assert !Pending(s.procs[pid], row.token);
    }
  }

  /** A string another request has generated and not yet stored stays out of every row it does not aim at. */
  lemma AimThroughExec(s: State, s': State, pid: Pid, q: Pid)
    requires Executed(s, s', pid) && WritersRegistered(s) && q in s.procs && q != pid && ReaderOk(s, s.procs[q])
    ensures ReaderOk(s', s.procs[q])
  {
    hide Snapshot, Landed, TableView;
    var p := s.procs[q];
    match p.at
    case RefreshFind =>
      if p.answer.Some? && p.answer.value.TokenAnswer? && p.answer.value.token.Some? {
        SnapshotThroughExec(s, s', pid, p.answer.value.token.value.0, p.answer.value.token.value.1);
      }
    case RefreshOwner(r, row) =>
      SnapshotThroughExec(s, s', pid, r, row);
    case RefreshRotate(r, row, newToken, at) =>
      SnapshotThroughExec(s, s', pid, r, row);
      NoOtherWriter(s, s', pid, q, newToken);
    case _ =>
  }

  lemma NoOtherWriter(s: State, s': State, pid: Pid, q: Pid, token: string)
    requires Executed(s, s', pid) && WritersRegistered(s) && q in s.procs && q != pid
    requires Writes(s.procs[q].at) && s.procs[q].at.newToken == token
    ensures forall x :: x in s'.db.tokens && s'.db.tokens[x].token == token ==>
      x in s.db.tokens && s.db.tokens[x].token == token
  {
    forall x | x in s'.db.tokens && s'.db.tokens[x].token == token
      ensures x in s.db.tokens && s.db.tokens[x].token == token
    {
      assert RowView(s.db.tokens, s.procs[pid], s.clock, x, s'.db.tokens[x]);
    }
  }

  /** A row read by its token is the only one with that token: a snapshot. */
  lemma SelectGivesSnapshot(s: State, pid: Pid, fault: bool)
    requires Accounts.Inv(s) && RowsLanded(s) && Enabled(s, Exec(pid, fault)) && s.procs[pid].at.RefreshFind?
    ensures ReaderOk(Execute(s, pid, fault), Execute(s, pid, fault).procs[pid])
  {
    hide Answers, Accounts.ProcOk;
  }

  lemma RotatorThroughExec(s: State, s': State, pid: Pid)
    requires Executed(s, s', pid) && RowsLanded(s) && WritersRegistered(s)
    requires s.procs[pid].at.RefreshRotate? && ReaderOk(s, s.procs[pid])
    ensures ReaderOk(s', s'.procs[pid])
  {
    hide Landed;
    var p := s.procs[pid];
    SnapshotThroughExec(s, s', pid, p.at.row, p.at.found);
    forall x | x in s'.db.tokens && s'.db.tokens[x].token == p.at.newToken
      ensures x == p.at.row
    {
      assert RowView(s.db.tokens, p, s.clock, x, s'.db.tokens[x]);
    }
  }

  lemma OwnReader(s: State, pid: Pid, fault: bool)
    requires Accounts.Inv(s) && RowsLanded(s) && WritersRegistered(s) && ReadersOk(s) && Enabled(s, Exec(pid, fault))
    ensures ReaderOk(Execute(s, pid, fault), Execute(s, pid, fault).procs[pid])
  {
    hide Accounts.Inv, Shaped, Accepts, DbAfter, Reads, Recorded, StmtAt, Snapshot, RowsLanded, WritersRegistered;
    var p, s' := s.procs[pid], Execute(s, pid, fault);
    ExecIsExecuted(s, pid, fault);
    assert ReaderOk(s, p);
    if p.at.RefreshFind? {
      SelectGivesSnapshot(s, pid, fault);
    } else if p.at.RefreshOwner? {
      SnapshotThroughExec(s, s', pid, p.at.row, p.at.found);
    } else if p.at.RefreshRotate? {
      RotatorThroughExec(s, s', pid);
    }
  }

  /** The history of an executed statement: one rotation if it was an UPDATE whose token matched a row. */
  ghost predicate Swapped(s: State, s': State, p: Proc, e: Event) {
    && e.Rotated? && p.at.RefreshRotate? && p.req.Refresh? && e.at == p.at.at
    && e.row in s.db.tokens && s.db.tokens[e.row].token == e.oldToken == p.req.token
    && e.row in s'.db.tokens && s'.db.tokens[e.row].lastUsedAt == p.at.at
    && !Held(s'.db.tokens, e.oldToken)
  }

  ghost predicate HistoryView(s: State, s': State, p: Proc) {
    || (s.log <= s'.log && (forall i :: |s.log| <= i < |s'.log| ==> !s'.log[i].Rotated?)
        && forall r :: r in s.db.tokens ==> s'.db.tokens.Keys >= {r} && s'.db.tokens[r].lastUsedAt == s.db.tokens[r].lastUsedAt)
    || exists e :: s'.log == s.log + [e] && Swapped(s, s', p, e)
  }

  lemma RotateHistory(s: State, pid: Pid)
    requires Accounts.Inv(s) && RowsLanded(s) && WritersRegistered(s) && Enabled(s, Exec(pid, false))
    requires s.procs[pid].at.RefreshRotate? && Accepts(s.db, StmtOf(s.procs[pid]))
    ensures HistoryView(s, Execute(s, pid, false), s.procs[pid])
  {
    hide Answers, Accounts.Inv, AuthAfter, UsersAfter, OtpsAfter, Reads, Accepts;
    var p, s' := s.procs[pid], Execute(s, pid, false);
    var row := FindToken(s.db.tokens, p.req.token);
    if row.Some? {
      var e := Rotated(row.value, p.req.token, p.at.newToken, p.at.at);
      assert p.req.token != p.at.newToken by { assert Landed(s, s.db.tokens[row.value].token); }
      assert s'.log == s.log + [e] && Swapped(s, s', p, e);
    }
  }

  lemma QuietHistory(s: State, pid: Pid)
    requires Accounts.Inv(s) && Enabled(s, Exec(pid, false))
    requires !s.procs[pid].at.RefreshRotate? && Accepts(s.db, StmtOf(s.procs[pid]))
    ensures HistoryView(s, Execute(s, pid, false), s.procs[pid])
  {
    hide Answers, Accounts.Inv, DbAfter, Reads, Accepts;
    ExecView(s, pid, false);
  }

  lemma ExecHistory(s: State, pid: Pid, fault: bool)
    requires Accounts.Inv(s) && RowsLanded(s) && WritersRegistered(s) && Enabled(s, Exec(pid, fault))
    ensures HistoryView(s, Execute(s, pid, fault), s.procs[pid])
  {
    hide Shaped, Accounts.Inv, DbAfter, Reads, Accepts, StmtAt, Recorded, RowsLanded, WritersRegistered;
    if !fault && Accepts(s.db, StmtOf(s.procs[pid])) {
      if s.procs[pid].at.RefreshRotate? {
        RotateHistory(s, pid);
      } else {
        QuietHistory(s, pid);
      }
    }
  }

  lemma SwapsThroughExec(s: State, s': State, pid: Pid)
    requires Executed(s, s', pid) && HistoryView(s, s', s.procs[pid])
    requires RowsLanded(s) && WritersRegistered(s) && SwapsOnce(s.log) && SwapsGone(s)
    ensures SwapsOnce(s'.log) && SwapsGone(s')
  {
    forall e | e in s'.log && e.Rotated?
      ensures e.row in s'.db.tokens && Gone(s', e.oldToken)
    {
      if e in s.log {
        GoneThroughExec(s, s', pid, e.oldToken);
      } else {
        assert Swapped(s, s', s.procs[pid], e);
        LandedThroughExec(s, s', pid, e.oldToken);
      }
    }
    forall i, j | 0 <= i < j < |s'.log| && s'.log[i].Rotated? && s'.log[j].Rotated?
      ensures s'.log[i].oldToken != s'.log[j].oldToken
    {
      assert s'.log[i] == s.log[i] && s.log[i] in s.log;
      if j == |s.log| {
        assert Swapped(s, s', s.procs[pid], s'.log[j]);
      }
    }
  }

  lemma GoneThroughExec(s: State, s': State, pid: Pid, token: string)
    requires Executed(s, s', pid) && WritersRegistered(s) && Gone(s, token)
    ensures Gone(s', token)
  {
    LandedThroughExec(s, s', pid, token);
    forall r | r in s'.db.tokens
      ensures s'.db.tokens[r].token != token
    {
      assert RowView(s.db.tokens, s.procs[pid], s.clock, r, s'.db.tokens[r]);
    }
  }

  lemma RotationsAppended(log: seq<Event>, added: seq<Event>, r: Id)
    requires forall e :: e in added && e.Rotated? ==> e.row != r
    ensures Rotations(log + added, r) == Rotations(log, r)
  {
    RotationsConcat(log, added, r);
    NoRotations(added, r);
  }

  lemma QuietRate(s: State, s': State, pid: Pid, r: Id)
    requires Executed(s, s', pid) && SwapsGone(s) && RateKept(s) && r in s'.db.tokens && s.log <= s'.log
    requires forall e :: e in s'.log[|s.log|..] && e.Rotated? ==> e.row in s.db.tokens && e.row != r
    requires r in s.db.tokens ==> s'.db.tokens[r].lastUsedAt == s.db.tokens[r].lastUsedAt
    ensures RateAt(s', r)
  {
    hide Landed, Held;
    assert RowView(s.db.tokens, s.procs[pid], s.clock, r, s'.db.tokens[r]);
    assert s'.log == s.log + s'.log[|s.log|..];
    RotationsAppended(s.log, s'.log[|s.log|..], r);
    if r in s.db.tokens {
      assert RateAt(s, r);
    } else {
      NoRotations(s.log, r);
    }
  }

  lemma SwapRate(s: State, s': State, pid: Pid, e: Event)
    requires Executed(s, s', pid) && s'.log == s.log + [e] && Swapped(s, s', s.procs[pid], e)
    requires RateKept(s) && ReaderOk(s, s.procs[pid])
    ensures RateAt(s', e.row)
  {
    hide Landed, Held;
    var r := e.row;
    assert RowView(s.db.tokens, s.procs[pid], s.clock, r, s'.db.tokens[r]);
    assert RateAt(s, r);
    assert Rotations([e], r) == 1;
    RotationsConcat(s.log, [e], r);
  }

  lemma RateThroughExec(s: State, s': State, pid: Pid)
    requires Executed(s, s', pid) && HistoryView(s, s', s.procs[pid])
    requires SwapsGone(s) && RateKept(s) && ReaderOk(s, s.procs[pid])
    ensures RateKept(s')
  {
    hide Landed, Held, RateAt, Rotations;
    var p := s.procs[pid];
    if e :| s'.log == s.log + [e] && Swapped(s, s', p, e) {
      forall r | r in s'.db.tokens
        ensures RateAt(s', r)
      {
        if r == e.row {
          SwapRate(s, s', pid, e);
        } else {
          assert RowView(s.db.tokens, p, s.clock, r, s'.db.tokens[r]);
          assert s'.log[|s.log|..] == [e];
          QuietRate(s, s', pid, r);
        }
      }
    } else {
      forall r | r in s'.db.tokens
        ensures RateAt(s', r)
      {
        QuietRate(s, s', pid, r);
      }
    }
  }

  lemma ExecKeeps(s: State, pid: Pid, fault: bool)
    requires Accounts.Inv(s) && Inv(s) && Enabled(s, Exec(pid, fault))
    ensures Inv(Execute(s, pid, fault))
  {
    hide Accounts.Inv, Execute, Executed, HistoryView, RowsLanded, WritersRegistered, ReaderOk, SwapsOnce, SwapsGone, RateKept;
    var s' := Execute(s, pid, fault);
    ExecIsExecuted(s, pid, fault);
    ExecHistory(s, pid, fault);
    RowsLandedThroughExec(s, s', pid);
    SwapsThroughExec(s, s', pid);
    assert ReaderOk(s, s.procs[pid]);
    RateThroughExec(s, s', pid);
    forall q | q in s'.procs
      ensures ReaderOk(s', s'.procs[q])
    {
      if q == pid {
        OwnReader(s, pid, fault);
      } else {
        ExecutedOthers(s, s', pid, q);
        AimThroughExec(s, s', pid, q);
      }
    }
  }

  lemma ExecutedOthers(s: State, s': State, pid: Pid, q: Pid)
    requires Executed(s, s', pid) && q in s'.procs && q != pid
    ensures q in s.procs && s.procs[q] == s'.procs[q]
  {
  }

  // ---- every other step ----

  /** A step that leaves the session table alone and swaps nothing; one request may start or move on. */
  ghost predicate Moved(s: State, s': State, pid: Pid) {
    && s'.db.tokens == s.db.tokens && s.clock <= s'.clock && s.log <= s'.log
    && (forall i :: |s.log| <= i < |s'.log| ==> !s'.log[i].Rotated?)
    && (forall q :: q in s.procs ==> q in s'.procs)
    && (forall q :: q in s'.procs && q != pid ==> q in s.procs && s'.procs[q] == s.procs[q])
    && (forall token :: Landed(s, token) ==> Landed(s', token))
  }

  lemma MovedRate(s: State, s': State, pid: Pid)
    requires Moved(s, s', pid) && RateKept(s)
    ensures RateKept(s')
  {
    hide Landed;
    forall r | r in s'.db.tokens
      ensures RateAt(s', r)
    {
      assert RateAt(s, r);
      assert s'.log == s.log + s'.log[|s.log|..];
      RotationsAppended(s.log, s'.log[|s.log|..], r);
    }
  }

  lemma MovedKeeps(s: State, s': State, pid: Pid)
    requires Inv(s) && Moved(s, s', pid) && WritersRegistered(s')
    requires pid in s'.procs ==> ReaderOk(s', s'.procs[pid])
    ensures Inv(s')
  {
    hide Landed, Held, WritersRegistered, RateAt;
    MovedRate(s, s', pid);
    assert ReadersOk(s') by {
      forall q | q in s'.procs && q != pid
        ensures ReaderOk(s', s'.procs[q])
      {
        assert ReaderOk(s, s.procs[q]);
      }
    }
    assert SwapsOnce(s'.log) by {
      forall i, j | 0 <= i < j < |s'.log| && s'.log[i].Rotated? && s'.log[j].Rotated?
        ensures s'.log[i].oldToken != s'.log[j].oldToken
      {
        assert s'.log[i] == s.log[i] && s'.log[j] == s.log[j];
      }
    }
    assert SwapsGone(s') by {
      forall e | e in s'.log && e.Rotated?
        ensures e in s.log
      {
        var i :| 0 <= i < |s'.log| && s'.log[i] == e;
      }
    }
  }

  lemma ProceedMoves(s: State, pid: Pid, f: Fresh)
    requires Enabled(s, Resume(pid, f))
    ensures Moved(s, Proceed(s, pid, f), pid)
  {
    hide Shaped, Continue, Landed;
    forall token | Landed(s, token)
      ensures Landed(Proceed(s, pid, f), token)
    {
      LandedKept(s, Resume(pid, f), token);
    }
  }

  lemma ProceedWriters(s: State, pid: Pid, f: Fresh)
    requires WritersRegistered(s) && Enabled(s, Resume(pid, f))
    ensures WritersRegistered(Proceed(s, pid, f))
  {
    hide Shaped, Continue, Concluded;
  }

  lemma ProceedReader(s: State, pid: Pid, f: Fresh)
    requires RowsLanded(s) && ReadersOk(s) && Enabled(s, Resume(pid, f))
    ensures ReaderOk(Proceed(s, pid, f), Proceed(s, pid, f).procs[pid])
  {
    hide Concluded, ContinueOtp, ContinueAccount, AccountsAfter;
    var p, s' := s.procs[pid], Proceed(s, pid, f);
    assert ReaderOk(s, p);
    ProceedMoves(s, pid, f);
    if p.req.Refresh? {
      assert SessionPoint(p.at);
    } else {
      assert Fits(p.req, s'.procs[pid].at);
    }
  }

  lemma StepKeeps(s: State, a: Action)
    requires Accounts.Inv(s) && Inv(s) && Enabled(s, a)
    ensures Inv(Apply(s, a))
  {
    hide Accounts.Inv, Landed, ReaderOk, RateKept, SwapsOnce, SwapsGone, Proceed, Execute, Shaped, Start;
    match a
    case Tick(now) =>
      MovedAlone(s, a, 0);
      if 0 in s.procs {
        ReaderLater(s, now, 0);
      }
      MovedKeeps(s, Apply(s, a), 0);
    case Begin(pid, req) =>
      MovedAlone(s, a, pid);
      StartReader(s, pid, req);
      MovedKeeps(s, Apply(s, a), pid);
    case Exec(pid, fault) =>
      ExecKeeps(s, pid, fault);
    case Resume(pid, f) =>
      ProceedMoves(s, pid, f);
      ProceedWriters(s, pid, f);
      ProceedReader(s, pid, f);
      MovedKeeps(s, Apply(s, a), pid);
  }

  lemma MovedAlone(s: State, a: Action, pid: Pid)
    requires Enabled(s, a) && (a.Tick? || (a.Begin? && a.pid == pid)) && WritersRegistered(s)
    ensures Moved(s, Apply(s, a), pid) && WritersRegistered(Apply(s, a))
  {
    hide Landed, Shaped;
    forall token | Landed(s, token)
      ensures Landed(Apply(s, a), token)
    {
      LandedKept(s, a, token);
    }
  }

  lemma ReaderLater(s: State, now: nat, pid: Pid)
    requires s.clock <= now && pid in s.procs && ReadersOk(s)
    ensures ReaderOk(s.(clock := now), s.procs[pid])
  {
    assert ReaderOk(s, s.procs[pid]);
  }

  lemma StartReader(s: State, pid: Pid, req: Request)
    requires Enabled(s, Begin(pid, req))
    ensures pid in Apply(s, Begin(pid, req)).procs && ReaderOk(Apply(s, Begin(pid, req)), Apply(s, Begin(pid, req)).procs[pid])
  {
  }

  lemma {:induction false} RunKeeps(s: State, acts: seq<Action>, t: State)
    requires Accounts.Inv(s) && Inv(s) && Runs(s, acts, t)
    ensures Accounts.Inv(t) && Inv(t)
    decreases |acts|
  {
    hide Accounts.Inv, Inv, Enabled, Apply;
    if acts != [] {
      Accounts.StepKeeps(s, acts[0]);
      StepKeeps(s, acts[0]);
      RunKeeps(Apply(s, acts[0]), acts[1..], t);
    }
  }

  lemma ReachableInv(s: State)
    requires Reachable(s)
    ensures Accounts.Inv(s) && Inv(s)
  {
    var acts :| Runs(Init(), acts, s);
    RunKeeps(Init(), acts, s);
  }
}
