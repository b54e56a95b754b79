/**
 One-time codes. When at most one request at a time is inside its OTP statements for a phone, requestOTP and
 verifyOTPCode refine the reference lock, whatever the requests of other phones and the later statements of the same
 phone do. Some guarantees need no such order; they close the module.
 */
module OneTimeCodes {
  import opened Schema
  import opened Config
  import opened Handlers
  import opened Server
  import opened OtpLock

  predicate OnPhone(p: Proc, phone: string) {
    HasPhone(p.req) && p.req.phone == phone && OtpPoint(p.at)
  }

  ghost predicate OneAtATime(s: State, phone: string) {
    forall p, q :: p in s.procs && q in s.procs && OnPhone(s.procs[p], phone) && OnPhone(s.procs[q], phone) ==> p == q
  }

  ghost predicate Idle(s: State, phone: string) {
    forall p :: p in s.procs ==> !OnPhone(s.procs[p], phone)
  }

  /** A run in which the OTP parts of requests for this phone never overlap. */
  ghost predicate SerialRuns(s: State, acts: seq<Action>, t: State, phone: string)
    decreases |acts|
  {
    && OneAtATime(s, phone)
    && if acts == [] then s == t
       else Enabled(s, acts[0]) && SerialRuns(Apply(s, acts[0]), acts[1..], t, phone)
  }

  function RowOf(otps: map<string, OtpRow>, phone: string): Option<OtpRow> {
    if phone in otps then Some(otps[phone]) else None
  }

  ghost predicate RowIs(lock: Lock, row: Option<OtpRow>, attempts: nat) {
    lock.Open? && row == Some(OtpRow(lock.code, attempts, lock.createdAt + OTP_EXPIRY_MS, lock.createdAt))
  }

  /** The stored row between two requests. */
  ghost predicate Rest(lock: Lock, row: Option<OtpRow>, clock: Time) {
    match lock
    case Never => row.None?
    case Closed(createdAt, why) => row.None? && (why.Expired? ==> createdAt + OTP_EXPIRY_MS < clock)
    case Open(_, _, misses, jammed) =>
      misses <= 2 && (jammed ==> misses == 2) && RowIs(lock, row, if jammed then 3 else misses)
  }

  /** Enough time has passed for another code to be stored. */
  ghost predicate Cooled(lock: Lock, at: Time) {
    lock.Open? || (lock.Closed? && lock.why.Expired?) ==> lock.createdAt + OTP_COOLDOWN_MS <= at
  }

  ghost predicate PointOk(lock: Lock, row: Option<OtpRow>, clock: Time, p: Proc) {
    match p.at
    case CooldownCheck =>
      Rest(lock, row, clock) && (p.answer.Some? && p.answer.value.OtpAnswer? ==> p.answer.value.otp == row)
    case PurposeAuth => Rest(lock, row, clock) && Cooled(lock, clock)
    case PurposeUser(_) => Rest(lock, row, clock) && Cooled(lock, clock)
    case StoreOtp(_, _, at) =>
      Rest(lock, row, clock) && (p.answer.None? ==> Cooled(lock, at) && at <= clock)
    case VerifyFind =>
      Rest(lock, row, clock) && (p.answer.Some? && p.answer.value.OtpAnswer? ==> p.answer.value.otp == row)
    case VerifyBump(n, at) =>
      && lock.Open? && !lock.jammed && Verifies(p.req) && p.req.code != lock.code
      && at <= lock.createdAt + OTP_EXPIRY_MS && lock.misses <= 2 && n == lock.misses + 1
      && RowIs(lock, row, if p.answer == Some(Acknowledged) then n else lock.misses)
    case VerifyDrop(v, at) =>
      && lock.Open? && Verifies(p.req) && lock.misses <= 2 && (lock.jammed ==> lock.misses == 2)
      && (if v.Expired? then lock.createdAt + OTP_EXPIRY_MS < at <= clock else at <= lock.createdAt + OTP_EXPIRY_MS)
      && (v.Success? ==> p.req.code == lock.code && !lock.jammed)
      && (v.MaxAttempts? ==> lock.misses == 2 && (lock.jammed || p.req.code != lock.code))
      && (if p.answer == Some(Acknowledged) then row.None?
          else RowIs(lock, row, if v.MaxAttempts? || lock.jammed then 3 else lock.misses))
    case _ => true
  }

  ghost predicate Inv(s: State, phone: string) {
    && AllShaped(s)
    && Legal(s.log, phone)
    && (forall pid :: pid in s.procs && OnPhone(s.procs[pid], phone) ==>
          PointOk(After(s.log, phone), RowOf(s.db.otps, phone), s.clock, s.procs[pid]))
    && (Idle(s, phone) ==> Rest(After(s.log, phone), RowOf(s.db.otps, phone), s.clock))
  }

  // ---- requests that are not in the OTP part of this phone ----

  lemma StrangerExec(db: Db, p: Proc, phone: string)
    requires Shaped(p) && InFlight(p) && !OnPhone(p, phone)
    ensures RowOf(OtpsAfter(db.otps, StmtOf(p)), phone) == RowOf(db.otps, phone)
    ensures forall e :: e in Recorded(db, StmtOf(p)) ==> !Concerns(e, phone)
  {
  }

  lemma StrangerResume(p: Proc, now: Time, f: Fresh, phone: string)
    requires Shaped(p) && p.answer.Some? && !OnPhone(p, phone)
    ensures !OnPhone(Proc(p.req, Continue(p.req, p.at, p.answer.value, now, f), None), phone)
    ensures forall e :: e in Concluded(p.req, p.at, p.answer.value, now) ==> !Concerns(e, phone)
  {
  }

  lemma LaterOk(lock: Lock, row: Option<OtpRow>, clock: Time, clock': Time, p: Proc)
    requires clock <= clock'
    ensures PointOk(lock, row, clock, p) ==> PointOk(lock, row, clock', p)
    ensures Rest(lock, row, clock) ==> Rest(lock, row, clock')
  {
  }

  // ---- the request in its OTP part ----

  /** Executing its statement: the row and the lock move together. */
  lemma OwnExec(db: Db, clock: Time, p: Proc, phone: string, log: seq<Event>)
    requires Shaped(p) && InFlight(p) && OnPhone(p, phone) && Legal(log, phone)
    requires PointOk(After(log, phone), RowOf(db.otps, phone), clock, p)
    ensures
      var log' := log + Recorded(db, StmtOf(p));
      && Legal(log', phone)
      && PointOk(After(log', phone), RowOf(OtpsAfter(db.otps, StmtOf(p)), phone), clock, p.(answer := Some(Reads(db, StmtOf(p)))))
  {
    hide After, Legal, Answers;
    if p.at.StoreOtp? {
      var e := Stored(phone, p.at.otp, p.at.at, p.at.at + OTP_EXPIRY_MS);
      assert Recorded(db, StmtOf(p)) == [e];
      LegalAppend(log, e, phone);
    } else {
      assert Recorded(db, StmtOf(p)) == [];
      LegalSkip(log, [], phone);
    }
  }

  lemma FaultOk(lock: Lock, row: Option<OtpRow>, clock: Time, p: Proc)
    requires InFlight(p) && PointOk(lock, row, clock, p)
    ensures PointOk(lock, row, clock, p.(answer := Some(Failed)))
  {
  }

  /** What a block of the request adds is what the lock allows, and the row still fits the lock. */
  ghost predicate Settled(log: seq<Event>, phone: string, row: Option<OtpRow>, clock: Time, p: Proc) {
    && Legal(log, phone)
    && (if OnPhone(p, phone) then PointOk(After(log, phone), row, clock, p) else Rest(After(log, phone), row, clock))
  }

  lemma OwnFailure(log: seq<Event>, row: Option<OtpRow>, clock: Time, p: Proc, phone: string)
    requires Shaped(p) && p.answer == Some(Failed) && OnPhone(p, phone) && Legal(log, phone)
    requires PointOk(After(log, phone), row, clock, p)
    ensures Settled(log + Concluded(p.req, p.at, Failed, clock), phone, row, clock, Proc(p.req, OnFailure(p.at), None))
  {
    hide After, Legal;
    if p.at.VerifyDrop? && p.at.verdict.MaxAttempts? {
      LegalAppend(log, Jammed(phone), phone);
    } else {
      assert Concluded(p.req, p.at, Failed, clock) == [];
      LegalSkip(log, [], phone);
    }
  }

  lemma OwnRequestBlock(log: seq<Event>, row: Option<OtpRow>, clock: Time, p: Proc, f: Fresh, phone: string)
    requires Shaped(p) && p.answer.Some? && !p.answer.value.Failed? && OnPhone(p, phone) && Legal(log, phone)
    requires p.req.RequestOtp? && PointOk(After(log, phone), row, clock, p)
    ensures
      var a := p.answer.value;
      Settled(log + Concluded(p.req, p.at, a, clock), phone, row, clock, Proc(p.req, ContinueOtp(p.req, p.at, a, clock, f), None))
  {
    assert Concluded(p.req, p.at, p.answer.value, clock) == [];
    LegalSkip(log, [], phone);
  }

  lemma OwnVerifyBlock(log: seq<Event>, row: Option<OtpRow>, clock: Time, p: Proc, f: Fresh, phone: string)
    requires Shaped(p) && p.answer.Some? && !p.answer.value.Failed? && OnPhone(p, phone) && Legal(log, phone)
    requires Verifies(p.req) && PointOk(After(log, phone), row, clock, p)
    ensures
      var a := p.answer.value;
      Settled(log + Concluded(p.req, p.at, a, clock), phone, row, clock, Proc(p.req, ContinueOtp(p.req, p.at, a, clock, f), None))
  {
    hide After, Legal;
    var added := Concluded(p.req, p.at, p.answer.value, clock);
    if added == [] {
      LegalSkip(log, [], phone);
    } else {
      LegalAppend(log, added[0], phone);
    }
  }

  lemma OwnResume(log: seq<Event>, row: Option<OtpRow>, clock: Time, p: Proc, f: Fresh, phone: string)
    requires Shaped(p) && p.answer.Some? && OnPhone(p, phone) && Legal(log, phone)
    requires PointOk(After(log, phone), row, clock, p)
    ensures
      var a := p.answer.value;
      var next := Continue(p.req, p.at, a, clock, f);
      && Settled(log + Concluded(p.req, p.at, a, clock), phone, row, clock, Proc(p.req, next, None))
      && Signed(next) == []
  {
    hide PointOk, Rest, After, Legal, Concluded;
    if p.answer.value.Failed? {
      OwnFailure(log, row, clock, p, phone);
    } else if p.req.RequestOtp? {
      OwnRequestBlock(log, row, clock, p, f, phone);
    } else {
      OwnVerifyBlock(log, row, clock, p, f, phone);
    }
  }

  // ---- steps and runs ----

  lemma ExecKeeps(s: State, pid: Pid, fault: bool, phone: string)
    requires Inv(s, phone) && OneAtATime(s, phone) && Enabled(s, Exec(pid, fault))
    ensures Inv(Execute(s, pid, fault), phone)
  {
    hide Shaped, Accepts, StmtAt, Recorded, Reads, PointOk, Rest, After, Legal, OtpsAfter;
    var p, s' := s.procs[pid], Execute(s, pid, fault);
    ShapedKept(s, Exec(pid, fault));
    if !fault && Accepts(s.db, StmtOf(p)) {
      if OnPhone(p, phone) {
        OwnExec(s.db, s.clock, p, phone, s.log);
      } else {
        StrangerExec(s.db, p, phone);
        LegalSkip(s.log, Recorded(s.db, StmtOf(p)), phone);
      }
    } else if OnPhone(p, phone) {
      FaultOk(After(s.log, phone), RowOf(s.db.otps, phone), s.clock, p);
    }
    IdleSame(s, s', pid, phone);
  }

  lemma IdleSame(s: State, s': State, pid: Pid, phone: string)
    requires pid in s.procs && pid in s'.procs && s'.procs == s.procs[pid := s'.procs[pid]]
    requires OnPhone(s.procs[pid], phone) == OnPhone(s'.procs[pid], phone)
    ensures Idle(s, phone) == Idle(s', phone)
  {
    assert forall q :: q in s.procs ==> OnPhone(s.procs[q], phone) == OnPhone(s'.procs[q], phone);
  }

  lemma ProceedKeeps(s: State, pid: Pid, f: Fresh, phone: string)
    requires Inv(s, phone) && OneAtATime(s, phone) && Enabled(s, Resume(pid, f))
    ensures Inv(Proceed(s, pid, f), phone)
  {
    hide Continue, Concluded, PointOk, Rest, After, Legal, Fits, StmtAt, Answers;
    var p, s' := s.procs[pid], Proceed(s, pid, f);
    ShapedKept(s, Resume(pid, f));
    var added := Concluded(p.req, p.at, p.answer.value, s.clock);
    if OnPhone(p, phone) {
      OwnResume(s.log, RowOf(s.db.otps, phone), s.clock, p, f, phone);
      assert s'.log == s.log + added;
      assert pid in s'.procs && s'.procs[pid] == Proc(p.req, s'.procs[pid].at, None);
      forall q | q in s'.procs && OnPhone(s'.procs[q], phone)
        ensures q == pid
      {
      }
    } else {
      StrangerResume(p, s.clock, f, phone);
      assert s'.log == s.log + (added + Signed(s'.procs[pid].at));
      LegalSkip(s.log, added + Signed(s'.procs[pid].at), phone);
      IdleSame(s, s', pid, phone);
    }
  }

  lemma BeginKeeps(s: State, pid: Pid, req: Request, phone: string)
    requires Inv(s, phone) && Enabled(s, Begin(pid, req)) && OneAtATime(Apply(s, Begin(pid, req)), phone)
    ensures Inv(Apply(s, Begin(pid, req)), phone)
  {
    hide Shaped, Rest, After, Legal;
    var s' := Apply(s, Begin(pid, req));
    ShapedKept(s, Begin(pid, req));
    assert s'.procs[pid] == Start(req);
    if OnPhone(Start(req), phone) {
      assert forall q :: q in s.procs ==> q in s'.procs && s'.procs[q] == s.procs[q];
      assert Idle(s, phone);
    } else if Idle(s', phone) {
      assert forall q :: q in s.procs ==> q in s'.procs && s'.procs[q] == s.procs[q];
      assert Idle(s, phone);
    }
  }

  lemma TickKeeps(s: State, now: nat, phone: string)
    requires Inv(s, phone) && Enabled(s, Tick(now))
    ensures Inv(Apply(s, Tick(now)), phone)
  {
    hide Shaped, PointOk, Rest, After, Legal;
    var lock, row := After(s.log, phone), RowOf(s.db.otps, phone);
    LaterOk(lock, row, s.clock, now, Start(Refresh("")));
    forall pid | pid in s.procs && OnPhone(s.procs[pid], phone)
      ensures PointOk(lock, row, now, s.procs[pid])
    {
      LaterOk(lock, row, s.clock, now, s.procs[pid]);
    }
  }

  lemma InitInv(phone: string)
    ensures Inv(Init(), phone)
  {
  }

  lemma {:induction false} SerialRunKeeps(s: State, acts: seq<Action>, t: State, phone: string)
    requires Inv(s, phone) && SerialRuns(s, acts, t, phone)
    ensures Inv(t, phone)
    decreases |acts|
  {
    hide Inv;
    if acts != [] {
      var a := acts[0];
      match a {
        case Tick(now) => TickKeeps(s, now, phone);
        case Begin(pid, req) => BeginKeeps(s, pid, req, phone);
        case Exec(pid, fault) => ExecKeeps(s, pid, fault, phone);
        case Resume(pid, f) => ProceedKeeps(s, pid, f, phone);
      }
      SerialRunKeeps(Apply(s, a), acts[1..], t, phone);
    }
  }

  /** Serialised OTP handling refines the reference lock: every store and every verdict is one the lock allows. */
  lemma SerialOtpRefinesLock(acts: seq<Action>, t: State, phone: string)
    requires SerialRuns(Init(), acts, t, phone)
    ensures Legal(t.log, phone)
  {
    InitInv(phone);
    SerialRunKeeps(Init(), acts, t, phone);
  }

  /**
   At rest the stored attempts count the misses, 0 to 2, unless the DELETE after a third miss has failed since the
   store; the pre-check against the maximum fires in that case and in no other.
   */
  lemma PrecheckOnlyAfterFailedCleanup(acts: seq<Action>, t: State, phone: string, pid: Pid)
    requires SerialRuns(Init(), acts, t, phone)
    ensures
      var lock := After(t.log, phone);
      && (Idle(t, phone) ==> (phone in t.db.otps <==> lock.Open?))
      && (Idle(t, phone) && phone in t.db.otps ==>
            t.db.otps[phone].attempts == (if lock.jammed then 3 else lock.misses) && lock.misses <= 2)
    ensures
      pid in t.procs && t.procs[pid].at.VerifyFind? && OnPhone(t.procs[pid], phone) && t.procs[pid].answer.Some?
      && t.procs[pid].answer.value.OtpAnswer? && t.procs[pid].answer.value.otp.Some? ==>
        var lock := After(t.log, phone);
        lock.Open? && (t.procs[pid].answer.value.otp.value.attempts >= OTP_MAX_ATTEMPTS <==> lock.jammed)
  {
    hide After, Legal;
    InitInv(phone);
    SerialRunKeeps(Init(), acts, t, phone);
    if pid in t.procs && OnPhone(t.procs[pid], phone) {
      assert PointOk(After(t.log, phone), RowOf(t.db.otps, phone), t.clock, t.procs[pid]);
    }
  }

  /**
   The budget of one stored code in a serialised run: at most two OTP_INVALID, and once it has succeeded or been
   exhausted, nothing but OTP_NOT_FOUND until the next store.
   */
  lemma SerialBudget(acts: seq<Action>, t: State, phone: string, i: nat, j: nat)
    requires SerialRuns(Init(), acts, t, phone) && i < j < |t.log| && NoStore(t.log, phone, i, j)
    ensures Misses(t.log[i..j], phone) <= 2
    ensures Ends(t.log[i], phone) && Concerns(t.log[j], phone) && t.log[j].Verified? ==> t.log[j].verdict.NotFound?
  {
    hide Legal, After;
    SerialOtpRefinesLock(acts, t, phone);
    AtMostTwoMisses(t.log, phone, i, j);
    if Ends(t.log[i], phone) && Concerns(t.log[j], phone) && t.log[j].Verified? {
      OnlyNotFoundAfterTheEnd(t.log, phone, i, j);
    }
  }

  /**
   The spacing of stored codes in a serialised run: two codes less than a minute apart have a success or an exhausted
   budget between them (an expiry cannot explain them), so without one T ms hold at most T / 60000 + 1 codes.
   */
  lemma SerialSpacing(acts: seq<Action>, t: State, phone: string, i: nat, j: nat)
    requires SerialRuns(Init(), acts, t, phone) && i < j < |t.log|
    requires forall k :: i <= k <= j ==> !Ends(t.log[k], phone)
    ensures StoreOf(t.log[i], phone) && StoreOf(t.log[j], phone) ==>
      t.log[i].createdAt + OTP_COOLDOWN_MS <= t.log[j].createdAt
    ensures
      var times := StoreTimes(t.log[i..j + 1], phone);
      times != [] ==> |times| <= (times[|times| - 1] - times[0]) / OTP_COOLDOWN_MS + 1
  {
    hide Legal, After;
    SerialOtpRefinesLock(acts, t, phone);
    if StoreOf(t.log[i], phone) && StoreOf(t.log[j], phone) {
      StoresKeepTheirDistance(t.log, phone, i, j);
    }
    StoresInWindow(t.log, phone, i, j + 1);
  }

  // ---- what holds in every interleaving ----

  /** The code was stored for the phone and had not expired at the given time. */
  ghost predicate Issued(log: seq<Event>, phone: string, code: string, at: Time) {
    exists e :: e in log && e.Stored? && e.phone == phone && e.code == code
                && at <= e.expiresAt && e.expiresAt == e.createdAt + OTP_EXPIRY_MS
  }

  ghost predicate RowStored(log: seq<Event>, phone: string, row: OtpRow) {
    && row.attempts <= OTP_MAX_ATTEMPTS
    && row.expiresAt == row.createdAt + OTP_EXPIRY_MS
    && Stored(phone, row.code, row.createdAt, row.expiresAt) in log
  }

  ghost predicate HistoryOk(log: seq<Event>, p: Proc) {
    match p.at
    case VerifyFind =>
      Verifies(p.req) && (p.answer.Some? && p.answer.value.OtpAnswer? && p.answer.value.otp.Some? ==>
        RowStored(log, p.req.phone, p.answer.value.otp.value))
    case VerifyBump(n, _) => 1 <= n <= OTP_MAX_ATTEMPTS
    case VerifyDrop(v, at) => Verifies(p.req) && (v.Success? ==> Issued(log, p.req.phone, p.req.code, at))
    case _ => true
  }

  ghost predicate History(s: State) {
    && AllShaped(s)
    && (forall phone :: phone in s.db.otps ==> RowStored(s.log, phone, s.db.otps[phone]))
    && (forall pid :: pid in s.procs ==> HistoryOk(s.log, s.procs[pid]))
    && (forall e :: e in s.log && e.Verified? && e.verdict.Success? ==> Issued(s.log, e.phone, e.code, e.checkedAt))
  }

  lemma HistoryGrows(log: seq<Event>, log': seq<Event>, p: Proc)
    requires HistoryOk(log, p) && log <= log'
    ensures HistoryOk(log', p)
  {
    assert forall e :: e in log ==> e in log';
  }

  lemma ExecRows(s: State, pid: Pid)
    requires History(s) && Enabled(s, Exec(pid, false))
    ensures
      var st := StmtOf(s.procs[pid]);
      var log' := s.log + Recorded(s.db, st);
      && (forall phone :: phone in OtpsAfter(s.db.otps, st) ==> RowStored(log', phone, OtpsAfter(s.db.otps, st)[phone]))
      && HistoryOk(log', s.procs[pid].(answer := Some(Reads(s.db, st))))
  {
    hide Answers;
    var p, st := s.procs[pid], StmtOf(s.procs[pid]);
    assert HistoryOk(s.log, p);
    assert forall e :: e in s.log ==> e in s.log + Recorded(s.db, st);
    if p.at.StoreOtp? {
      var e := Stored(p.req.phone, p.at.otp, p.at.at, p.at.at + OTP_EXPIRY_MS);
      assert Recorded(s.db, st) == [e] && e in s.log + [e];
    }
  }

  lemma HistoryExec(s: State, pid: Pid, fault: bool)
    requires History(s) && Enabled(s, Exec(pid, fault))
    ensures History(Execute(s, pid, fault))
  {
    hide Shaped, Accepts, StmtAt, Reads, RowStored, Issued, OtpsAfter, HistoryOk;
    var p, s' := s.procs[pid], Execute(s, pid, fault);
    ShapedKept(s, Exec(pid, fault));
    assert HistoryOk(s.log, p);
    if !fault && Accepts(s.db, StmtOf(p)) {
      ExecRows(s, pid);
      assert forall e :: e in Recorded(s.db, StmtOf(p)) ==> !e.Verified?;
      HistoryMoves(s, s', pid);
    } else {
      FailedHistory(s.log, p);
      HistoryMoves(s, s', pid);
    }
  }

  lemma FailedHistory(log: seq<Event>, p: Proc)
    requires HistoryOk(log, p)
    ensures HistoryOk(log, p.(answer := Some(Failed)))
  {
  }

  /** The history grows by events that are all right, and one request moves on. */
  lemma HistoryMoves(s: State, s': State, pid: Pid)
    requires History(s) && AllShaped(s') && s.log <= s'.log
    requires forall phone :: phone in s'.db.otps ==> RowStored(s'.log, phone, s'.db.otps[phone])
    requires forall q :: q in s'.procs && q != pid ==> q in s.procs && s'.procs[q] == s.procs[q]
    requires pid in s'.procs ==> HistoryOk(s'.log, s'.procs[pid])
    requires forall e :: e in s'.log[|s.log|..] && e.Verified? && e.verdict.Success? ==>
      Issued(s'.log, e.phone, e.code, e.checkedAt)
    ensures History(s')
  {
    hide Shaped, RowStored, HistoryOk;
    forall q | q in s'.procs && q != pid
      ensures HistoryOk(s'.log, s'.procs[q])
    {
      HistoryGrows(s.log, s'.log, s.procs[q]);
    }
    forall e | e in s'.log && e.Verified? && e.verdict.Success?
      ensures Issued(s'.log, e.phone, e.code, e.checkedAt)
    {
      assert s'.log == s.log + s'.log[|s.log|..];
      if e in s.log {
        var x :| x in s.log && x.Stored? && x.phone == e.phone && x.code == e.code
                 && e.checkedAt <= x.expiresAt && x.expiresAt == x.createdAt + OTP_EXPIRY_MS;
        assert x in s'.log;
      }
    }
  }

  lemma HistoryBlock(log: seq<Event>, p: Proc, now: Time, f: Fresh)
    requires Shaped(p) && p.answer.Some? && HistoryOk(log, p)
    ensures HistoryOk(log, Proc(p.req, Continue(p.req, p.at, p.answer.value, now, f), None))
    ensures forall e :: e in Concluded(p.req, p.at, p.answer.value, now) && e.Verified? && e.verdict.Success? ==>
      Issued(log, e.phone, e.code, e.checkedAt)
  {
    if p.at.VerifyFind? && p.answer.value.OtpAnswer? && p.answer.value.otp.Some? {
      var row := p.answer.value.otp.value;
      assert Stored(p.req.phone, row.code, row.createdAt, row.expiresAt) in log;
    }
  }

  lemma HistoryResume(s: State, pid: Pid, f: Fresh)
    requires History(s) && Enabled(s, Resume(pid, f))
    ensures History(Proceed(s, pid, f))
  {
    hide Continue, Concluded, Fits, StmtAt, Answers, RowStored, HistoryOk;
    var p, s' := s.procs[pid], Proceed(s, pid, f);
    ShapedKept(s, Resume(pid, f));
    assert HistoryOk(s.log, p);
    HistoryBlock(s.log, p, s.clock, f);
    HistoryGrows(s.log, s'.log, s'.procs[pid]);
    forall phone | phone in s'.db.otps
      ensures RowStored(s'.log, phone, s'.db.otps[phone])
    {
      RowStoredGrows(s.log, s'.log, phone, s.db.otps[phone]);
    }
    forall e | e in s'.log[|s.log|..] && e.Verified? && e.verdict.Success?
      ensures Issued(s'.log, e.phone, e.code, e.checkedAt)
    {
      assert e in Concluded(p.req, p.at, p.answer.value, s.clock) + Signed(s'.procs[pid].at);
      assert forall x :: x in s.log ==> x in s'.log;
    }
    HistoryMoves(s, s', pid);
  }

  lemma RowStoredGrows(log: seq<Event>, log': seq<Event>, phone: string, row: OtpRow)
    requires RowStored(log, phone, row) && log <= log'
    ensures RowStored(log', phone, row)
  {
    assert forall e :: e in log ==> e in log';
  }

  lemma HistoryStart(s: State, pid: Pid, req: Request)
    requires History(s) && Enabled(s, Begin(pid, req))
    ensures History(Apply(s, Begin(pid, req)))
  {
    hide Shaped, RowStored, Issued;
    ShapedKept(s, Begin(pid, req));
  }

  lemma {:induction false} HistoryRun(s: State, acts: seq<Action>, t: State)
    requires History(s) && Runs(s, acts, t)
    ensures History(t)
    decreases |acts|
  {
    hide History;
    if acts != [] {
      var a := acts[0];
      match a {
        case Tick(now) => HistoryTick(s, now);
        case Begin(pid, req) => HistoryStart(s, pid, req);
        case Exec(pid, fault) => HistoryExec(s, pid, fault);
        case Resume(pid, f) => HistoryResume(s, pid, f);
      }
      HistoryRun(Apply(s, a), acts[1..], t);
    }
  }

  lemma HistoryTick(s: State, now: nat)
    requires History(s) && Enabled(s, Tick(now))
    ensures History(Apply(s, Tick(now)))
  {
    hide Shaped, RowStored, Issued, HistoryOk;
  }

  /**
   In every interleaving: no stored counter exceeds three, and a verification succeeds only for a code that was
   stored for that phone and was at most five minutes old when it was checked.
   */
  lemma OnlyFreshStoredCodesSucceed(s: State, phone: string, e: Event)
    requires Reachable(s)
    ensures phone in s.db.otps ==> s.db.otps[phone].attempts <= OTP_MAX_ATTEMPTS
    ensures e in s.log && e.Verified? && e.verdict.Success? ==>
      exists x :: x in s.log && x.Stored? && x.phone == e.phone && x.code == e.code
                  && e.checkedAt <= x.createdAt + OTP_EXPIRY_MS
  {
    var acts :| Runs(Init(), acts, s);
    HistoryRun(Init(), acts, s);
    if e in s.log && e.Verified? && e.verdict.Success? {
      assert Issued(s.log, e.phone, e.code, e.checkedAt);
    }
  }
}
