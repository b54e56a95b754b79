/**
 What stands between a typed code and the tokens, in every interleaving: nobody gets past the verification without a
 success recorded for this phone and this code, and the row that was read decides which error the others get.
 */
module Verification {
  import opened Schema
  import opened Handlers
  import opened Server
  import OneTimeCodes

  ghost predicate Judged(log: seq<Event>, req: Request, verdict: Verdict)
    requires Verifies(req)
  {
    exists e :: e in log && e.Verified? && e.phone == req.phone && e.code == req.code && e.verdict == verdict
  }

  /** What a phone sign-in or signup has behind it. */
  ghost predicate Warranted(log: seq<Event>, p: Proc) {
    Verifies(p.req) ==>
      match p.at
      case VerifyFind => true
      case VerifyBump(_, _) => true
      case VerifyDrop(_, _) => true
      case Replied(Error(ExpiredOtp)) => Judged(log, p.req, Expired)
      case Replied(Error(OtpMaxAttempts)) => Judged(log, p.req, MaxAttempts)
      case Replied(Error(OtpInvalid)) => Judged(log, p.req, Invalid)
      case Replied(Error(Unauthorized)) => Judged(log, p.req, NotFound)
      case Replied(Error(Thrown)) => true
      case _ => Judged(log, p.req, Success)
  }

  ghost predicate AllWarranted(s: State) {
    AllShaped(s) && forall pid :: pid in s.procs ==> Warranted(s.log, s.procs[pid])
  }

  lemma WarrantedGrows(log: seq<Event>, log': seq<Event>, p: Proc)
    requires Warranted(log, p) && log <= log'
    ensures Warranted(log', p)
  {
    assert forall e :: e in log ==> e in log';
  }

  /** Executing a statement does not move the request. */
  lemma WarrantedExec(s: State, pid: Pid, fault: bool)
    requires AllWarranted(s) && Enabled(s, Exec(pid, fault))
    ensures AllWarranted(Execute(s, pid, fault))
  {
    hide Shaped, Accepts, StmtAt, Reads, DbAfter, Recorded, Warranted;
    var t := Execute(s, pid, fault);
    ShapedKept(s, Exec(pid, fault));
    forall q | q in t.procs
      ensures Warranted(t.log, t.procs[q])
    {
      WarrantedGrows(s.log, t.log, s.procs[q]);
      SamePoint(t.log, s.procs[q], t.procs[q]);
    }
  }

  lemma SamePoint(log: seq<Event>, p: Proc, q: Proc)
    requires Warranted(log, p) && q.req == p.req && q.at == p.at
    ensures Warranted(log, q)
  {
  }

  lemma WarrantedBlock(log: seq<Event>, p: Proc, now: Time, f: Fresh)
    requires Shaped(p) && p.answer.Some? && Warranted(log, p)
    ensures
      var next := Continue(p.req, p.at, p.answer.value, now, f);
      Warranted(log + Concluded(p.req, p.at, p.answer.value, now), Proc(p.req, next, None))
  {
    var done := Concluded(p.req, p.at, p.answer.value, now);
    assert forall e :: e in log ==> e in log + done;
    if done != [] {
      assert done[0] in log + done;
    }
  }

  lemma WarrantedResume(s: State, pid: Pid, f: Fresh)
    requires AllWarranted(s) && Enabled(s, Resume(pid, f))
    ensures AllWarranted(Proceed(s, pid, f))
  {
    hide Continue, Concluded, Warranted, Fits, StmtAt, Answers;
    var p, t := s.procs[pid], Proceed(s, pid, f);
    ShapedKept(s, Resume(pid, f));
    forall q | q in t.procs
      ensures Warranted(t.log, t.procs[q])
    {
      if q == pid {
        WarrantedBlock(s.log, p, s.clock, f);
        WarrantedGrows(s.log + Concluded(p.req, p.at, p.answer.value, s.clock), t.log, t.procs[q]);
      } else {
        WarrantedGrows(s.log, t.log, s.procs[q]);
      }
    }
  }

  lemma WarrantedStep(s: State, a: Action)
    requires AllWarranted(s) && Enabled(s, a)
    ensures AllWarranted(Apply(s, a))
  {
    hide Shaped, Execute, Proceed, Warranted;
    match a
    case Tick(_) =>
    case Begin(_, req) =>
      ShapedKept(s, a);
      assert Warranted(s.log, Start(req)) by { NewWarranted(s.log, req); }
    case Exec(pid, fault) => WarrantedExec(s, pid, fault);
    case Resume(pid, f) => WarrantedResume(s, pid, f);
  }

  lemma NewWarranted(log: seq<Event>, req: Request)
    requires WellFormed(req)
    ensures Warranted(log, Start(req))
  {
  }

  lemma {:induction false} WarrantedRun(s: State, acts: seq<Action>, t: State)
    requires AllWarranted(s) && Runs(s, acts, t)
    ensures AllWarranted(t)
    decreases |acts|
  {
    hide AllWarranted, Enabled, Apply;
    if acts != [] {
      WarrantedStep(s, acts[0]);
      WarrantedRun(Apply(s, acts[0]), acts[1..], t);
    }
  }

  lemma ReachableWarranted(s: State)
    requires Reachable(s)
    ensures AllWarranted(s)
  {
    var acts :| Runs(Init(), acts, s);
    WarrantedRun(Init(), acts, s);
  }

  /**
   In every interleaving, a phone sign-in or signup that is past its verification, and so every one that is answered
   tokens, has a success recorded for its phone and its code; and that code had been stored for that phone at most five
   minutes before it was checked.
   */
  lemma TokensNeedAFreshCode(s: State, pid: Pid)
    requires Reachable(s) && pid in s.procs && Verifies(s.procs[pid].req) && !OtpPoint(s.procs[pid].at)
    requires s.procs[pid].at.Replied? ==> s.procs[pid].at.reply.Tokens?
    ensures exists checked, x ::
      && checked in s.log && checked.Verified? && checked.phone == s.procs[pid].req.phone
      && checked.code == s.procs[pid].req.code && checked.verdict == Success
      && x in s.log && x.Stored? && x.phone == s.procs[pid].req.phone && x.code == s.procs[pid].req.code
      && checked.checkedAt <= x.createdAt + 5 * 60 * 1000
  {
    hide Reachable, Shaped;
    ReachableWarranted(s);
    var p := s.procs[pid];
    assert Warranted(s.log, p) && Judged(s.log, p.req, Success);
    var checked :| checked in s.log && checked.Verified? && checked.phone == p.req.phone && checked.code == p.req.code
                   && checked.verdict == Success;
    OneTimeCodes.OnlyFreshStoredCodesSucceed(s, p.req.phone, checked);
  }

  /** In every interleaving, the four errors of a verification are answered with their verdict recorded. */
  lemma RefusalsHaveTheirVerdict(s: State, pid: Pid)
    requires Reachable(s) && pid in s.procs && Verifies(s.procs[pid].req) && s.procs[pid].at.Replied?
    ensures
      var req, reply := s.procs[pid].req, s.procs[pid].at.reply;
      && (reply == Error(ExpiredOtp) ==> Judged(s.log, req, Expired))
      && (reply == Error(OtpMaxAttempts) ==> Judged(s.log, req, MaxAttempts))
      && (reply == Error(OtpInvalid) ==> Judged(s.log, req, Invalid))
      && (reply == Error(Unauthorized) ==> Judged(s.log, req, NotFound))
  {
    hide Reachable, Shaped, Judged;
    ReachableWarranted(s);
    assert Warranted(s.log, s.procs[pid]);
  }

  // ---- the row that was read decides the answer ----

  /** The error for a row read at a time, as the API names it; None lets the request through. */
  function ErrorFor(row: Option<OtpRow>, code: string, now: int): Option<ErrorCode> {
    if row == None then Some(Unauthorized)
    else if row.value.expiresAt < now then Some(ExpiredOtp)
    else if row.value.attempts >= 3 then Some(OtpMaxAttempts)
    else if row.value.code == code then None
    else if row.value.attempts == 2 then Some(OtpMaxAttempts)
    else Some(OtpInvalid)
  }

  predicate IsRefusal(reply: Reply) {
    reply in {Error(Unauthorized), Error(ExpiredOtp), Error(OtpMaxAttempts), Error(OtpInvalid)}
  }

  /** The request is on the way to this answer, or has got it, or a statement of it has failed. */
  ghost predicate Destined(p: Proc, error: Option<ErrorCode>) {
    match error
    case Some(e) =>
      || p.at == Replied(Error(e)) || p.at == Replied(Error(Thrown))
      || (p.at.VerifyBump? && (if p.at.attempts < 3 then e == OtpInvalid else e == OtpMaxAttempts))
      || (p.at.VerifyDrop? && ((p.at.verdict.Expired? && e == ExpiredOtp) || (p.at.verdict.MaxAttempts? && e == OtpMaxAttempts)))
    case None =>
      !p.at.VerifyFind? && !p.at.VerifyBump? && (p.at.VerifyDrop? ==> p.at.verdict.Success?)
      && (p.at.Replied? ==> !IsRefusal(p.at.reply))
  }

  lemma Judgement(p: Proc, now: Time, f: Fresh)
    requires Shaped(p) && Verifies(p.req) && p.at.VerifyFind? && p.answer.Some? && p.answer.value.OtpAnswer?
    ensures
      Destined(Proc(p.req, Continue(p.req, p.at, p.answer.value, now, f), None), ErrorFor(p.answer.value.otp, p.req.code, now))
  {
  }

  lemma DestinedBlock(p: Proc, now: Time, f: Fresh, error: Option<ErrorCode>)
    requires Shaped(p) && Verifies(p.req) && p.answer.Some? && Destined(p, error)
    ensures Destined(Proc(p.req, Continue(p.req, p.at, p.answer.value, now, f), None), error)
  {
  }

  lemma DestinedStep(s: State, a: Action, pid: Pid, error: Option<ErrorCode>)
    requires Enabled(s, a) && pid in s.procs && Verifies(s.procs[pid].req) && Destined(s.procs[pid], error)
    ensures pid in Apply(s, a).procs && Apply(s, a).procs[pid].req == s.procs[pid].req && Destined(Apply(s, a).procs[pid], error)
  {
    hide Shaped, Accepts, StmtAt, Reads, DbAfter, Recorded, Continue, Concluded, Fits, Answers;
    if a.Resume? && a.pid == pid {
      DestinedBlock(s.procs[pid], s.clock, a.f, error);
    }
  }

  lemma {:induction false} DestinedRun(s: State, acts: seq<Action>, t: State, pid: Pid, error: Option<ErrorCode>)
    requires Runs(s, acts, t) && pid in s.procs && Verifies(s.procs[pid].req) && Destined(s.procs[pid], error)
    ensures pid in t.procs && t.procs[pid].req == s.procs[pid].req && Destined(t.procs[pid], error)
    decreases |acts|
  {
    hide Destined, Enabled, Apply;
    if acts != [] {
      DestinedStep(s, acts[0], pid, error);
      DestinedRun(Apply(s, acts[0]), acts[1..], t, pid, error);
    }
  }

  /**
   Whatever interleaves afterwards, the row a verification has read and the time it looks at it decide its answer: no row
   Unauthorized, an expired one ExpiredOtp, a used-up one OtpMaxAttempts, another code OtpInvalid or OtpMaxAttempts, and
   the right code gets none of these.
   */
  lemma RowDecidesTheAnswer(s: State, pid: Pid, f: Fresh, acts: seq<Action>, t: State)
    requires Enabled(s, Resume(pid, f)) && s.procs[pid].at.VerifyFind? && s.procs[pid].answer.value.OtpAnswer?
    requires Runs(Proceed(s, pid, f), acts, t)
    ensures pid in t.procs
    ensures t.procs[pid].at.Replied? && t.procs[pid].at.reply != Error(Thrown) ==>
      var error := ErrorFor(s.procs[pid].answer.value.otp, s.procs[pid].req.code, s.clock);
      if error.Some? then t.procs[pid].at.reply == Error(error.value) else !IsRefusal(t.procs[pid].at.reply)
  {
    hide Runs, Continue, Concluded;
    var p := s.procs[pid];
    Judgement(p, s.clock, f);
    DestinedRun(Proceed(s, pid, f), acts, t, pid, ErrorFor(p.answer.value.otp, p.req.code, s.clock));
  }
}
