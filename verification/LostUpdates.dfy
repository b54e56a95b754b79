/**
 The attempt budget of one stored code in every interleaving. It is kept as long as every count is written over the
 count it was computed from; and a single lost update, before the code expires, is enough to exceed it.
 */
module LostUpdates {
  import opened Schema
  import opened Config
  import opened Handlers
  import opened Server
  import opened OtpLock
  import OneTimeCodes

  /** The step executes a SetAttempts for this phone. */
  ghost predicate Bumps(s: State, a: Action, phone: string) {
    && a.Exec? && !a.fault && a.pid in s.procs && Verifies(s.procs[a.pid].req) && s.procs[a.pid].req.phone == phone
    && s.procs[a.pid].at.VerifyBump?
  }

  ghost predicate Stores(s: State, a: Action, phone: string) {
    && a.Exec? && !a.fault && a.pid in s.procs && s.procs[a.pid].req.RequestOtp? && s.procs[a.pid].req.phone == phone
    && s.procs[a.pid].at.StoreOtp?
  }

  /** The write will be answered OTP_INVALID: its count stays below the maximum. */
  ghost predicate CountsMiss(s: State, a: Action, phone: string) {
    Bumps(s, a, phone) && s.procs[a.pid].at.attempts < OTP_MAX_ATTEMPTS
  }

  /** No code is stored, and every count is written over the count it was computed from. */
  ghost predicate ExactRun(s: State, acts: seq<Action>, t: State, phone: string)
    decreases |acts|
  {
    if acts == [] then s == t
    else
      && Enabled(s, acts[0]) && !Stores(s, acts[0], phone)
      && (Bumps(s, acts[0], phone) ==>
            phone in s.db.otps && s.db.otps[phone].attempts + 1 == s.procs[acts[0].pid].at.attempts)
      && ExactRun(Apply(s, acts[0]), acts[1..], t, phone)
  }

  lemma {:induction false} ExactIsRun(s: State, acts: seq<Action>, t: State, phone: string)
    requires ExactRun(s, acts, t, phone)
    ensures Runs(s, acts, t)
    decreases |acts|
  {
    hide Enabled, Apply, Stores, Bumps;
    if acts != [] {
      ExactIsRun(Apply(s, acts[0]), acts[1..], t, phone);
    }
  }

  /** The writes of a run that are answered OTP_INVALID. */
  ghost function MissWrites(s: State, acts: seq<Action>, t: State, phone: string): nat
    requires Runs(s, acts, t)
    decreases |acts|
  {
    if acts == [] then 0
    else
      MissWrites(Apply(s, acts[0]), acts[1..], t, phone) + if CountsMiss(s, acts[0], phone) then 1 else 0
  }

  // ---- writes and answers ----

  /** The write has been executed, and its OTP_INVALID is still to be sent. */
  predicate Owes(p: Proc, phone: string) {
    && Verifies(p.req) && p.req.phone == phone && p.at.VerifyBump? && p.at.attempts < OTP_MAX_ATTEMPTS
    && p.answer == Some(Acknowledged)
  }

  ghost function Owing(s: State, phone: string): set<Pid> {
    set pid | pid in s.procs && Owes(s.procs[pid], phone)
  }

  /** Answers given and answers owed. */
  ghost function Account(s: State, phone: string): nat {
    Misses(s.log, phone) + |Owing(s, phone)|
  }

  predicate IsMiss(e: Event, phone: string) {
    Concerns(e, phone) && e.Verified? && e.verdict.Invalid?
  }

  lemma MissesSnoc(log: seq<Event>, e: Event, phone: string)
    ensures Misses(log + [e], phone) == Misses(log, phone) + if IsMiss(e, phone) then 1 else 0
  {
    assert (log + [e])[..|log|] == log;
  }

  lemma {:induction false} NoMisses(log: seq<Event>, added: seq<Event>, phone: string)
    requires forall e :: e in added ==> !IsMiss(e, phone)
    ensures Misses(log + added, phone) == Misses(log, phone)
  {
    if added == [] {
      assert log + added == log;
    } else {
      var n := |added| - 1;
      NoMisses(log, added[..n], phone);
      assert log + added == (log + added[..n]) + [added[n]];
      MissesSnoc(log + added[..n], added[n], phone);
    }
  }

  /** One request has moved; the others owe what they owed. */
  lemma OwingMoves(s: State, t: State, pid: Pid, phone: string)
    requires pid in t.procs && t.procs == s.procs[pid := t.procs[pid]]
    ensures Owing(t, phone) == (if Owes(t.procs[pid], phone) then Owing(s, phone) + {pid} else Owing(s, phone) - {pid})
  {
  }

  lemma ExecAccount(s: State, pid: Pid, fault: bool, phone: string)
    requires Enabled(s, Exec(pid, fault))
    ensures Account(Execute(s, pid, fault), phone)
              == Account(s, phone) + if CountsMiss(s, Exec(pid, fault), phone) then 1 else 0
  {
    hide Answers, Misses, DbAfter, IsMiss;
    var p, t := s.procs[pid], Execute(s, pid, fault);
    OwingMoves(s, t, pid, phone);
    assert pid !in Owing(s, phone);
    assert p.at.VerifyBump? ==> Accepts(s.db, StmtOf(p)) && Reads(s.db, StmtOf(p)) == Acknowledged;
    NothingVerified(s.db, StmtOf(p), phone);
    NoMisses(s.log, Recorded(s.db, StmtOf(p)), phone);
  }

  lemma NothingVerified(db: Db, st: Stmt, phone: string)
    ensures forall e :: e in Recorded(db, st) ==> !IsMiss(e, phone)
  {
  }

  lemma ResumeAccount(s: State, pid: Pid, f: Fresh, phone: string)
    requires Enabled(s, Resume(pid, f))
    ensures Account(Proceed(s, pid, f), phone) == Account(s, phone)
    ensures Owing(Proceed(s, pid, f), phone) == Owing(s, phone) - {pid}
  {
    hide Continue, Misses, IsMiss, Fits, StmtAt, Answers;
    var p, t := s.procs[pid], Proceed(s, pid, f);
    OwingMoves(s, t, pid, phone);
    var done, signed := Concluded(p.req, p.at, p.answer.value, s.clock), Signed(t.procs[pid].at);
    BlockMisses(p, s.clock, phone);
    SignedNoMiss(t.procs[pid].at, phone);
    assert t.log == s.log + done + signed;
    NoMisses(s.log + done, signed, phone);
    if Owes(p, phone) {
      MissesSnoc(s.log, done[0], phone);
    } else {
      NoMisses(s.log, done, phone);
    }
  }

  /** A block answers OTP_INVALID exactly if it was owed. */
  lemma BlockMisses(p: Proc, now: Time, phone: string)
    requires Shaped(p) && p.answer.Some?
    ensures
      var done := Concluded(p.req, p.at, p.answer.value, now);
      if Owes(p, phone) then |done| == 1 && IsMiss(done[0], phone) else forall e :: e in done ==> !IsMiss(e, phone)
  {
  }

  lemma SignedNoMiss(at: Point, phone: string)
    ensures forall e :: e in Signed(at) ==> !IsMiss(e, phone)
  {
  }

  lemma StepAccount(s: State, a: Action, phone: string)
    requires AllShaped(s) && Enabled(s, a)
    ensures Account(Apply(s, a), phone) == Account(s, phone) + if CountsMiss(s, a, phone) then 1 else 0
  {
    hide Shaped, Execute, Proceed;
    match a
    case Tick(_) => assert Owing(Apply(s, a), phone) == Owing(s, phone);
    case Begin(pid, req) =>
      OwingMoves(s, Apply(s, a), pid, phone);
      assert pid !in Owing(s, phone);
    case Exec(pid, fault) => ExecAccount(s, pid, fault, phone);
    case Resume(pid, f) => ResumeAccount(s, pid, f, phone);
  }

  /** Every write below the maximum is one OTP_INVALID answer, given or owed, and there are no others. */
  lemma {:induction false} WritesAreAnswers(s: State, acts: seq<Action>, t: State, phone: string)
    requires AllShaped(s) && Runs(s, acts, t)
    ensures AllShaped(t) && Account(t, phone) == Account(s, phone) + MissWrites(s, acts, t, phone)
    decreases |acts|
  {
    hide AllShaped, Enabled, Apply, CountsMiss, Account;
    if acts != [] {
      ShapedKept(s, acts[0]);
      StepAccount(s, acts[0], phone);
      WritesAreAnswers(Apply(s, acts[0]), acts[1..], t, phone);
    }
  }

  // ---- exact counts keep the budget ----

  function Min2(n: nat): nat {
    if n <= 2 then n else 2
  }

  /** How many misses the stored row still allows. */
  function Budget(otps: map<string, OtpRow>, phone: string): (b: nat)
    ensures b <= 2
  {
    if phone in otps then 2 - Min2(otps[phone].attempts) else 0
  }

  /** How a step that stores nothing may change the row: count by one, drop it, or leave it alone. */
  lemma StepCounts(s: State, a: Action, phone: string)
    requires AllShaped(s) && Enabled(s, a) && !Stores(s, a, phone)
    requires Bumps(s, a, phone) ==> phone in s.db.otps && s.db.otps[phone].attempts + 1 == s.procs[a.pid].at.attempts
    ensures
      var t := Apply(s, a);
      phone in t.db.otps ==>
        && phone in s.db.otps
        && t.db.otps[phone] == s.db.otps[phone].(attempts := s.db.otps[phone].attempts + if Bumps(s, a, phone) then 1 else 0)
    ensures Bumps(s, a, phone) ==> phone in Apply(s, a).db.otps
  {
    hide Answers, Continue, Concluded, Recorded, Reads, AuthAfter, UsersAfter, TokensAfter;
  }

  /** The row counts the misses, and no run has more of them than the row allows. */
  lemma {:induction false} CountsAreExact(s: State, acts: seq<Action>, t: State, phone: string)
    requires AllShaped(s) && ExactRun(s, acts, t, phone) && Runs(s, acts, t)
    ensures MissWrites(s, acts, t, phone) <= Budget(s.db.otps, phone)
    ensures phone in t.db.otps ==>
      && phone in s.db.otps && t.db.otps[phone] == s.db.otps[phone].(attempts := t.db.otps[phone].attempts)
      && Min2(t.db.otps[phone].attempts) == Min2(s.db.otps[phone].attempts) + MissWrites(s, acts, t, phone)
    decreases |acts|
  {
    hide AllShaped, Enabled, Apply, Bumps, Stores;
    if acts != [] {
      ShapedKept(s, acts[0]);
      StepCounts(s, acts[0], phone);
      CountsAreExact(Apply(s, acts[0]), acts[1..], t, phone);
    }
  }

  /**
   In every interleaving in which no update of the count is lost, one stored code is answered OTP_INVALID at most twice:
   the answers given and owed grow by as many as the row still allows.
   */
  lemma NoLostUpdateMeansTwoMisses(s: State, acts: seq<Action>, t: State, phone: string)
    requires Reachable(s) && ExactRun(s, acts, t, phone)
    ensures Account(t, phone) <= Account(s, phone) + Budget(s.db.otps, phone) <= Account(s, phone) + 2
    ensures Misses(t.log, phone) <= Misses(s.log, phone) + |Owing(s, phone)| + 2
  {
    hide AllShaped, ExactRun, Runs;
    ReachableShaped(s);
    ExactIsRun(s, acts, t, phone);
    WritesAreAnswers(s, acts, t, phone);
    CountsAreExact(s, acts, t, phone);
  }

  lemma ReachableShaped(s: State)
    requires Reachable(s)
    ensures AllShaped(s)
  {
    var acts :| Runs(Init(), acts, s);
    OneTimeCodes.HistoryRun(Init(), acts, s);
  }

  // ---- a lost update exceeds it ----

  lemma {:induction false} BoundedLengths(keys: set<string>) returns (n: nat)
    ensures forall k :: k in keys ==> |k| < n
  {
    n := 0;
    if keys != {} {
      var k :| k in keys;
      n := BoundedLengths(keys - {k});
      n := if |k| < n then n else |k| + 1;
    }
  }

  lemma UnusedString(keys: set<string>) returns (x: string)
    ensures x !in keys
  {
    var n := BoundedLengths(keys);
    x := seq(n, i => 'a');
  }

  lemma {:induction false} BoundedPids(pids: set<Pid>) returns (n: Pid)
    ensures forall p :: p in pids ==> p < n
  {
    n := 0;
    if pids != {} {
      var p :| p in pids;
      n := BoundedPids(pids - {p});
      assert forall q :: q in pids ==> q == p || q in pids - {p};
      n := if p < n then n else p + 1;
    }
  }

  /** Generated values that are still unused. */
  lemma Unused(s: State) returns (f: Fresh)
    ensures f.id !in s.accounts && f.token !in s.generated
  {
    var id := UnusedString(s.accounts.Keys);
    var token := UnusedString(s.generated.Keys);
    f := Fresh(id, "", token, "");
  }

  /** Everything owed is answered. */
  lemma {:induction false} AnswerAll(s: State, phone: string) returns (acts: seq<Action>, t: State)
    requires AllShaped(s)
    ensures Runs(s, acts, t) && Misses(t.log, phone) == Account(s, phone)
    decreases |Owing(s, phone)|
  {
    hide Runs, Shaped, Misses, Proceed;
    if Owing(s, phone) == {} {
      RunsNone(s);
      acts, t := [], s;
    } else {
      var pid :| pid in Owing(s, phone);
      var f := Unused(s);
      var a := Resume(pid, f);
      ResumeAccount(s, pid, f, phone);
      ShapedKept(s, a);
      var u := Apply(s, a);
      acts, t := AnswerAll(u, phone);
      RunsNone(s);
      RunsSnoc(s, [], s, a);
      RunsConcat(s, [] + [a], u, acts, t);
      acts := [] + [a] + acts;
    }
  }

  /** A verification begins, reads the row and finds another code than its own. */
  lemma GuessReads(s: State, pid: Pid, phone: string, f: Fresh) returns (acts: seq<Action>, t: State)
    requires AllShaped(s) && pid !in s.procs && f.id !in s.accounts && f.token !in s.generated
    requires phone in s.db.otps && s.db.otps[phone].attempts == 1 && s.clock <= s.db.otps[phone].expiresAt
    ensures Runs(s, acts, t) && AllShaped(t) && Account(t, phone) == Account(s, phone)
    ensures Enabled(t, Exec(pid, false)) && CountsMiss(t, Exec(pid, false), phone)
  {
    hide Runs, Account;
    var req := PhoneSignIn(phone, s.db.otps[phone].code + "0", None);
    var a, e, r := Begin(pid, req), Exec(pid, false), Resume(pid, f);
    var u := Apply(s, a);
    assert u.procs[pid] == Proc(req, VerifyFind, None);
    var v := Apply(u, e);
    assert v.procs[pid] == Proc(req, VerifyFind, Some(OtpAnswer(Some(s.db.otps[phone]))));
    GuessSteps(s, a, phone);
    GuessSteps(u, e, phone);
    GuessSteps(v, r, phone);
    t := Apply(v, r);
    assert t.procs[pid] == Proc(req, VerifyBump(2, s.clock), None);
    RunsNone(s);
    RunsSnoc(s, [], s, a);
    RunsSnoc(s, [] + [a], u, e);
    RunsSnoc(s, [] + [a] + [e], v, r);
    acts := [] + [a] + [e] + [r];
  }

  lemma GuessSteps(s: State, a: Action, phone: string)
    requires AllShaped(s) && Enabled(s, a)
    ensures AllShaped(Apply(s, a))
    ensures Account(Apply(s, a), phone) == Account(s, phone) + if CountsMiss(s, a, phone) then 1 else 0
  {
    hide AllShaped, Enabled, Apply, CountsMiss, Account;
    ShapedKept(s, a);
    StepAccount(s, a, phone);
  }

  /** One more verification misses. */
  lemma OneMoreMiss(s: State, phone: string) returns (acts: seq<Action>, t: State)
    requires AllShaped(s)
    requires phone in s.db.otps && s.db.otps[phone].attempts == 1 && s.clock <= s.db.otps[phone].expiresAt
    ensures Runs(s, acts, t) && AllShaped(t) && Account(t, phone) == Account(s, phone) + 1
  {
    hide Runs, Account, AllShaped, Apply, Enabled, CountsMiss;
    var pid := BoundedPids(s.procs.Keys);
    var f := Unused(s);
    var u: State;
    acts, u := GuessReads(s, pid, phone, f);
    var e := Exec(pid, false);
    GuessSteps(u, e, phone);
    RunsSnoc(s, acts, u, e);
    acts, t := acts + [e], Apply(u, e);
  }

  /** The write lands on the row, whatever the row says by now. */
  lemma LostWrite(s: State, pid: Pid, phone: string)
    requires AllShaped(s) && Enabled(s, Exec(pid, false)) && Bumps(s, Exec(pid, false), phone) && phone in s.db.otps
    ensures
      var t := Apply(s, Exec(pid, false));
      && t.clock == s.clock && phone in t.db.otps
      && t.db.otps[phone] == s.db.otps[phone].(attempts := s.procs[pid].at.attempts)
  {
  }

  lemma BumpIsPositive(s: State, pid: Pid, phone: string)
    requires Reachable(s) && Enabled(s, Exec(pid, false)) && Bumps(s, Exec(pid, false), phone)
    ensures s.procs[pid].at.attempts >= 1
  {
    var acts :| Runs(Init(), acts, s);
    OneTimeCodes.HistoryRun(Init(), acts, s);
    assert OneTimeCodes.HistoryOk(s.log, s.procs[pid]);
  }

  /**
   The converse. A code has been stored and counted exactly so far; now a verification that will be answered OTP_INVALID
   writes a count no higher than the one on the row, before the code expires. The run can then be continued until three
   OTP_INVALID have been answered for this code, beyond those owed from before it was stored.
   */
  lemma LostUpdateMakesThreeMisses(s: State, acts: seq<Action>, t: State, pid: Pid, phone: string)
    returns (more: seq<Action>, u: State)
    requires Reachable(s) && phone in s.db.otps && s.db.otps[phone].attempts == 0 && ExactRun(s, acts, t, phone)
    requires Enabled(t, Exec(pid, false)) && CountsMiss(t, Exec(pid, false), phone)
    requires phone in t.db.otps && t.procs[pid].at.attempts <= t.db.otps[phone].attempts
    requires t.clock <= t.db.otps[phone].expiresAt
    ensures Runs(t, [Exec(pid, false)] + more, u)
    ensures Misses(u.log, phone) >= Misses(s.log, phone) + |Owing(s, phone)| + 3
  {
    hide AllShaped, ExactRun, Runs, Reachable, Misses, Owing, Apply, Enabled;
    var e := Exec(pid, false);
    ReachableShaped(s);
    ExactIsRun(s, acts, t, phone);
    WritesAreAnswers(s, acts, t, phone);
    CountsAreExact(s, acts, t, phone);
    RunStaysReachable(s, acts, t);
    BumpIsPositive(t, pid, phone);
    GuessSteps(t, e, phone);
    LostWrite(t, pid, phone);
    var v := Apply(t, e);
    RunsNone(t);
    RunsSnoc(t, [], t, e);
    var first := [] + [e];
    var next: seq<Action>;
    var w := v;
    more := [];
    if t.procs[pid].at.attempts == 1 && t.db.otps[phone].attempts == 1 {
      more, w := OneMoreMiss(v, phone);
      RunsConcat(t, first, v, more, w);
    } else {
      assert first + more == first;
    }
    next, u := AnswerAll(w, phone);
    RunsConcat(t, first + more, w, next, u);
    assert first + more + next == [e] + (more + next);
    more := more + next;
  }

  lemma RunStaysReachable(s: State, acts: seq<Action>, t: State)
    requires Reachable(s) && Runs(s, acts, t)
    ensures Reachable(t)
  {
    hide Runs;
    var before :| Runs(Init(), before, s);
    RunsConcat(Init(), before, s, acts, t);
  }
}
