/**
 The handlers as the source writes them: straight-line methods that send one statement after another. Each is proved
 to be a run of its own process in the interleaving machine, so everything proved of that machine holds of the code.
 */
module Worker {
  import opened Schema
  import opened Config
  import opened Handlers
  import opened Server
  import opened Endpoints
  import opened Solo
  import Accounts

  predicate Extends(before: seq<Action>, after: seq<Action>, pid: Pid) {
    before <= after && forall i :: |before| <= i < |after| ==> By(after[i], pid)
  }

  /** Generated values still unused: distinct from each other and from all generated before. */
  ghost predicate Unused(st: State, source: seq<Fresh>) {
    && (forall i :: 0 <= i < |source| ==> source[i].id !in st.accounts && source[i].token !in st.generated)
    && (forall i, j :: 0 <= i < j < |source| ==> source[i].id != source[j].id && source[i].token != source[j].token)
  }

  /** Points whose statement carries a freshly generated value. */
  predicate Draws(at: Point) {
    at.InsertAccount? || at.SaveTokens? || at.RefreshRotate?
  }

  /** How verifyOTPCode ends: with a verdict, or by throwing. */
  datatype Checked = Judged(verdict: Verdict) | Crashed

  /** The request has come to a point, by its own steps alone. */
  ghost predicate Serves(before: seq<Action>, pid: Pid, req: Request, acts: seq<Action>, st: State, at: Point) {
    && Runs(Init(), acts, st) && Extends(before + [Begin(pid, req)], acts, pid)
    && pid in st.procs && st.procs[pid] == Proc(req, at, None)
  }

  /** No statement of the request has failed, and no generated session id was taken. */
  ghost predicate Quiet(before: seq<Action>, pid: Pid, acts: seq<Action>, d: Db) {
    |before| < |acts| && Alone(acts[|before| + 1..], pid, d)
  }

  /** If all went quietly, the answer and the database are right, given what the database held at the start. */
  ghost predicate Rightly(before: seq<Action>, d: Db, c: int, pid: Pid, req: Request, acts: seq<Action>, t: State, at: Point) {
    Quiet(before, pid, acts, d) ==>
      !at.Cleanup? && (at.Replied? ==> RightAnswer(d, c, t.db, t.clock, req, at.reply))
  }

  /** Whatever the request is answered, if all went quietly it is the right answer to what the database held before. */
  lemma AnswersAreRight(before: seq<Action>, s: State, pid: Pid, req: Request)
    requires Runs(Init(), before, s) && Enabled(s, Begin(pid, req))
    ensures forall acts, t, at :: Serves(before, pid, req, acts, t, at) ==> Rightly(before, s.db, s.clock, pid, req, acts, t, at)
  {
    hide Runs, RightAnswer, Alone;
    forall acts, t, at | Serves(before, pid, req, acts, t, at) && Quiet(before, pid, acts, s.db)
      ensures !at.Cleanup? && (at.Replied? ==> RightAnswer(s.db, s.clock, t.db, t.clock, req, at.reply))
    {
      var start, rest := before + [Begin(pid, req)], acts[|before| + 1..];
      assert acts == start + rest;
      RunsSnoc(Init(), before, s, Begin(pid, req));
      RunsSuffix(Init(), start, Apply(s, Begin(pid, req)), rest, t);
      assert Reachable(s);
      ServedAloneAnswersRightly(s, pid, req, rest, t);
    }
  }

  class AuthWorker {
    var db: Db
    var clock: nat
    /** The steps of the machine taken so far, and the state they lead to. */
    ghost var acts: seq<Action>
    ghost var st: State

    ghost predicate Valid()
      reads this
    {
      Runs(Init(), acts, st) && st.db == db && st.clock == clock
    }

    constructor ()
      ensures Valid() && acts == []
    {
      db := Db(map[], map[], map[], map[]);
      clock := 0;
      acts := [];
      st := Init();
    }

    ghost method Take(a: Action)
      requires Runs(Init(), acts, st) && Enabled(st, a)
      modifies this`acts, this`st
      ensures Runs(Init(), acts, st) && st == Apply(old(st), a) && acts == old(acts) + [a]
    {
      hide Enabled, Apply, Init;
      RunsSnoc(Init(), acts, st, a);
      acts := acts + [a];
      st := Apply(st, a);
    }

    /** One SELECT, as the database answers it. */
    method Read(stmt: Stmt) returns (a: Answer)
      requires Constraints(db)
      ensures a == Reads(db, stmt)
    {
      match stmt
      case SelectOtp(phone) => a := OtpAnswer(if phone in db.otps then Some(db.otps[phone]) else None);
      case SelectAuth(provider, identifier) =>
        if x :| x in db.auth && db.auth[x].provider == provider && db.auth[x].identifier == identifier {
          a := AuthAnswer(Some((x, db.auth[x])));
          assert SameIdentity(db.auth[x], db.auth[FindIdentity(db.auth, provider, identifier).value]);
        } else {
          a := AuthAnswer(None);
        }
      case SelectAuthById(id) => a := AuthAnswer(if id in db.auth then Some((id, db.auth[id])) else None);
      case SelectAuthByEmail(mail) =>
        if x :| x in db.auth && db.auth[x].email == Some(mail) {
          a := AuthAnswer(Some((x, db.auth[x])));
        } else {
          a := AuthAnswer(None);
        }
      case SelectUser(id) => a := UserAnswer(if id in db.users then Some(db.users[id]) else None);
      case SelectToken(token) =>
        if x :| x in db.tokens && db.tokens[x].token == token {
          a := TokenAnswer(Some((x, db.tokens[x])));
        } else {
          a := TokenAnswer(None);
        }
      case _ => a := Acknowledged;
    }

    method Wait()
      requires Valid()
      modifies this
      ensures Valid() && db == old(db) && clock >= old(clock)
      ensures st == old(st).(clock := clock) && acts == old(acts) + [Tick(clock)]
    {
      var later: int := *;
      if later > 0 {
        clock := clock + later;
      }
      Take(Tick(clock));
    }

    /** The database executes the statement, or the statement fails without effect. */
    method Attempt(ghost pid: Pid, stmt: Stmt) returns (a: Answer)
      requires Valid() && pid in st.procs && Shaped(st.procs[pid]) && InFlight(st.procs[pid])
      requires StmtOf(st.procs[pid]) == stmt
      modifies this
      ensures Valid() && clock == old(clock)
      ensures exists fault :: acts == old(acts) + [Exec(pid, fault)]
      ensures pid in st.procs && st.procs[pid] == old(st).procs[pid].(answer := Some(a))
      ensures Shaped(st.procs[pid]) && st.accounts == old(st).accounts && st.generated == old(st).generated
      ensures stmt.DeleteAuth? ==> !a.Failed?
    {
      hide Shaped, Reads, Recorded, Accepts, DbAfter, StmtAt, Runs;
      var fault: bool := *;
      if stmt.DeleteAuth? || !fault {
        var ok := Accepts(db, stmt);
        Answered(st, pid, false);
        if ok {
          Sound(acts, st);
          a := Read(stmt);
          db := DbAfter(db, stmt, clock);
        } else {
          a := Failed;
        }
        Take(Exec(pid, false));
      } else {
        CleanupDeletes(st.procs[pid]);
        Answered(st, pid, true);
        a := Failed;
        Take(Exec(pid, true));
      }
    }

    /** Send a statement and wait for the answer; time passes on the way there and back. */
    method Sql(ghost pid: Pid, stmt: Stmt) returns (a: Answer)
      requires Valid() && pid in st.procs && Shaped(st.procs[pid]) && InFlight(st.procs[pid])
      requires StmtOf(st.procs[pid]) == stmt
      modifies this
      ensures Valid() && Extends(old(acts), acts, pid)
      ensures pid in st.procs && st.procs[pid] == old(st).procs[pid].(answer := Some(a))
      ensures Shaped(st.procs[pid]) && st.accounts == old(st).accounts && st.generated == old(st).generated
      ensures stmt.DeleteAuth? ==> !a.Failed?
    {
      hide Shaped, StmtAt, Runs;
      Wait();
      a := Attempt(pid, stmt);
      Wait();
    }

    /** A request arrives. */
    ghost method Starts(pid: Pid, req: Request, source: seq<Fresh>)
      requires Valid() && Enabled(st, Begin(pid, req)) && Unused(st, source)
      modifies this`acts, this`st
      ensures Valid() && acts == old(acts) + [Begin(pid, req)] && Unused(st, source)
      ensures pid in st.procs && st.procs[pid] == Start(req)
    {
      hide Runs;
      Take(Begin(pid, req));
    }

    /** One `await`: the statement is sent, answered, and the synchronous block up to the next statement begins. */
    method Await(ghost pid: Pid, stmt: Stmt, ghost source: seq<Fresh>) returns (a: Answer)
      requires Valid() && pid in st.procs && Shaped(st.procs[pid]) && InFlight(st.procs[pid])
      requires StmtOf(st.procs[pid]) == stmt && |source| > 0 && Unused(st, source)
      modifies this
      ensures Valid() && Extends(old(acts), acts, pid) && Unused(st, source[1..])
      ensures
        var p := old(st).procs[pid];
        && Resumable(p.req, p.at, a)
        && pid in st.procs && st.procs[pid] == Proc(p.req, Continue(p.req, p.at, a, clock, source[0]), None)
        && Shaped(st.procs[pid])
        && (!Draws(st.procs[pid].at) ==> Unused(st, source))
      ensures stmt.DeleteAuth? ==> !a.Failed?
    {
      hide Runs, Continue, Concluded, StmtAt, Fits, Answers;
      a := Sql(pid, stmt);
      label answered:
      assert Enabled(st, Resume(pid, source[0]));
      ghost var p := st.procs[pid];
      Take(Resume(pid, source[0]));
      assert Fits(p.req, st.procs[pid].at);
      if !Draws(st.procs[pid].at) {
        assert st.accounts == old@answered(st).accounts && st.generated == old@answered(st).generated;
      }
      assert forall id :: id in st.accounts ==> id in old@answered(st).accounts || id == source[0].id;
      assert forall t :: t in st.generated ==> t in old@answered(st).generated || t == source[0].token;
    }

    /** The request has been answered, by its own steps alone. */
    ghost predicate Served(before: seq<Action>, pid: Pid, req: Request, reply: Reply)
      reads this
    {
      Valid() && Serves(before, pid, req, acts, st, Replied(reply))
    }

    /** The answer and the database, when all went quietly. */
    ghost predicate Right(before: seq<Action>, d: Db, c: int, pid: Pid, req: Request, reply: Reply)
      reads this
    {
      Rightly(before, d, c, pid, req, acts, st, Replied(reply))
    }

    /** The same for a signup, whose compensation may be left in flight. */
    ghost predicate ServedOrOwing(before: seq<Action>, pid: Pid, req: Request, reply: Reply, background: Option<Id>)
      reads this
    {
      && Handled(before + [Begin(pid, req)], pid, req, reply, background)
      && Serves(before, pid, req, acts, st, if background.Some? then Cleanup(background.value) else Replied(reply))
    }

    lemma ServedRightly(before: seq<Action>, s: State, pid: Pid, req: Request, reply: Reply)
      requires Runs(Init(), before, s) && Enabled(s, Begin(pid, req)) && Served(before, pid, req, reply)
      ensures Right(before, s.db, s.clock, pid, req, reply)
    {
      hide Runs, Rightly;
      AnswersAreRight(before, s, pid, req);
    }

    lemma OwingRightly(before: seq<Action>, s: State, pid: Pid, req: Request, reply: Reply, background: Option<Id>)
      requires Runs(Init(), before, s) && Enabled(s, Begin(pid, req)) && ServedOrOwing(before, pid, req, reply, background)
      ensures background.None? ==> Right(before, s.db, s.clock, pid, req, reply)
      ensures background.Some? ==> !Quiet(before, pid, acts, s.db)
    {
      hide Runs, Handled, Quiet, RightAnswer;
      AnswersAreRight(before, s, pid, req);
    }

    ghost predicate Ready(pid: Pid, req: Request, source: seq<Fresh>)
      reads this
    {
      Valid() && Enabled(st, Begin(pid, req)) && |source| >= 8 && Unused(st, source)
    }

    /** The request stands at a point, brought there by its own steps. */
    ghost predicate Stands(before: seq<Action>, pid: Pid, req: Request, at: Point)
      reads this
    {
      && Valid() && Extends(before, acts, pid)
      && pid in st.procs && st.procs[pid] == Proc(req, at, None) && Shaped(st.procs[pid])
    }

    /** Whether the phone has an account with a profile; None when a statement threw. */
    method UserExists(ghost pid: Pid, ghost req: Request, phone: string, ghost source: seq<Fresh>) returns (known: Option<bool>)
      requires Stands(acts, pid, req, PurposeAuth) && req.phone == phone
      requires |source| > 0 && Unused(st, source)
      modifies this
      ensures Unused(st, source)
      ensures known == None ==> Stands(old(acts), pid, req, Replied(Error(Thrown)))
      ensures known == Some(false) && req.purpose == Login ==> Stands(old(acts), pid, req, Replied(OtpSent(false)))
      ensures known == Some(true) && req.purpose == Signup ==> Stands(old(acts), pid, req, Replied(Error(ErrorCode.UserExists)))
      ensures known.Some? && known.value == (req.purpose == Login) ==>
        Stands(old(acts), pid, req, StoreOtp(known.value, source[0].otp, clock))
    {
      hide Runs, Unused, Rightly, ContinueAccount, ContinueSession, UsesFresh;
      var existing := Await(pid, SelectAuth(Phone, phone), source);
      if existing.Failed? {
        return None;
      }
      if existing.auth.None? {
        return Some(false);
      }
      var user := Await(pid, SelectUser(existing.auth.value.0), source);
      return if user.Failed? then None else Some(user.user.Some?);
    }

    method RequestOtp(ghost pid: Pid, phone: string, purpose: Purpose, source: seq<Fresh>) returns (reply: Reply)
      requires Ready(pid, Request.RequestOtp(phone, purpose), source)
      modifies this
      ensures Served(old(acts), pid, Request.RequestOtp(phone, purpose), reply)
      ensures Right(old(acts), old(db), old(clock), pid, Request.RequestOtp(phone, purpose), reply)
    {
      hide Runs, Unused, Rightly, ContinueAccount, ContinueSession, Enabled, UsesFresh;
      ghost var req := Request.RequestOtp(phone, purpose);
      label done: {
        Starts(pid, req, source);
        var recent := Await(pid, SelectOtp(phone), source);
        if recent.Failed? {
          reply := Error(Thrown);
          break done;
        }
        if recent.otp.Some? && recent.otp.value.createdAt > clock - OTP_COOLDOWN_MS {
          reply := Error(OtpRateLimited);
          break done;
        }
        var known := UserExists(pid, req, phone, source);
        if known.None? {
          reply := Error(Thrown);
          break done;
        }
        var userExists := known.value;
        if purpose.Login? {
          if !userExists {
            reply := OtpSent(userExists);
            break done;
          }
        } else {
          if userExists {
            reply := Error(ErrorCode.UserExists);
            break done;
          }
        }
        var otpCode := source[0].otp;
        var stored := Await(pid, UpsertOtp(phone, otpCode, clock + OTP_EXPIRY_MS, clock), source);
        if stored.Failed? {
          reply := Error(DatabaseError);
          break done;
        }
        reply := OtpSent(userExists);
      }
      ServedRightly(old(acts), old(st), pid, Request.RequestOtp(phone, purpose), reply);
    }

    /** Where a verification leaves the request: let through, or answered with the error of its verdict. */
    function After(r: Checked): Point {
      match r
      case Crashed => Replied(Error(Thrown))
      case Judged(NotFound) => Replied(Error(Unauthorized))
      case Judged(Expired) => Replied(Error(ExpiredOtp))
      case Judged(MaxAttempts) => Replied(Error(OtpMaxAttempts))
      case Judged(Invalid) => Replied(Error(OtpInvalid))
      case Judged(Success) => FindAccount
    }

    method VerifyOtpCode(ghost pid: Pid, ghost req: Request, phone: string, code: string, ghost source: seq<Fresh>)
      returns (r: Checked)
      requires Stands(acts, pid, req, VerifyFind) && req.phone == phone && req.code == code
      requires |source| > 0 && Unused(st, source)
      modifies this
      ensures Unused(st, source)
      ensures Stands(old(acts), pid, req, After(r))
    {
      hide Runs, Unused, Rightly, ContinueAccount, ContinueSession, UsesFresh;
      var found := Await(pid, SelectOtp(phone), source);
      if found.Failed? {
        return Crashed;
      }
      if found.otp.None? {
        return Judged(NotFound);
      }
      var otp := found.otp.value;
      if otp.expiresAt < clock {
        var gone := Await(pid, DeleteOtp(phone), source);
        return if gone.Failed? then Crashed else Judged(Expired);
      }
      if otp.attempts >= OTP_MAX_ATTEMPTS {
        var gone := Await(pid, DeleteOtp(phone), source);
        return if gone.Failed? then Crashed else Judged(MaxAttempts);
      }
      if otp.code != code {
        var newAttempts := otp.attempts + 1;
        var bumped := Await(pid, SetAttempts(phone, newAttempts), source);
        if bumped.Failed? {
          return Crashed;
        }
        if newAttempts >= OTP_MAX_ATTEMPTS {
          var gone := Await(pid, DeleteOtp(phone), source);
          return if gone.Failed? then Crashed else Judged(MaxAttempts);
        }
        return Judged(Invalid);
      }
      var gone := Await(pid, DeleteOtp(phone), source);
      return if gone.Failed? then Crashed else Judged(Success);
    }

    method IssueTokens(ghost pid: Pid, ghost req: Request, authId: Id, deviceInfo: Option<DeviceInfo>, f: Fresh, ghost source: seq<Fresh>)
      returns (reply: Reply)
      requires Stands(acts, pid, req, Issue(authId, clock, f)) && DeviceOf(req) == deviceInfo
      requires |source| > 0 && Unused(st, source)
      modifies this
      ensures Stands(old(acts), pid, req, Replied(reply))
    {
      hide Runs, Unused, Rightly;
      var accessToken := Mint(authId, clock);
      var stored := Await(pid, InsertToken(f.row, authId, f.token, clock + REFRESH_TOKEN_EXPIRY_MS, deviceInfo), source);
      if stored.Failed? {
        return Error(Thrown);
      }
      return Tokens(accessToken, f.token);
    }

    /** The request is answered; a compensation handed to `waitUntil` may be left in flight behind a thrown answer. */
    ghost predicate Handled(before: seq<Action>, pid: Pid, req: Request, reply: Reply, background: Option<Id>)
      reads this
    {
      && Stands(before, pid, req, if background.Some? then Cleanup(background.value) else Replied(reply))
      && (background.Some? ==> reply == Error(Thrown))
    }

    /** The tail both signups share: the two inserts, the compensation, the tokens. */
    method CreateUser(ghost pid: Pid, req: Request, id: Id, source: seq<Fresh>) returns (reply: Reply, background: Option<Id>)
      requires IsSignup(req) && Stands(acts, pid, req, InsertAccount(id))
      requires |source| > 1 && Unused(st, source)
      modifies this
      ensures Handled(old(acts), pid, req, reply, background)
    {
      hide Runs, Unused, Rightly;
      var email := if req.OAuthSignup? then Some(req.mail) else None;
      var inserted := Await(pid, InsertAuth(id, AuthRow(IdentityProvider(req), IdentityName(req), email)), source);
      if inserted.Failed? {
        return Error(Thrown), None;
      }
      reply, background := CreateProfile(pid, req, id, source);
    }

    /** A failed profile insert is answered at once; the DELETE is only handed over. */
    method CreateProfile(ghost pid: Pid, req: Request, id: Id, source: seq<Fresh>) returns (reply: Reply, background: Option<Id>)
      requires IsSignup(req) && Stands(acts, pid, req, InsertProfile(id))
      requires |source| > 1 && Unused(st, source)
      modifies this
      ensures Handled(old(acts), pid, req, reply, background)
    {
      hide Runs, Unused, Rightly;
      background := None;
      var created := Await(pid, InsertUser(id, req.profile), source);
      if created.Failed? {
        return Error(Thrown), Some(id);
      }
      reply := IssueTokens(pid, req, id, req.device, source[0], source[1..]);
    }

    /** What `waitUntil` runs, at any later time. */
    method RunBackground(ghost pid: Pid, ghost req: Request, id: Id, ghost source: seq<Fresh>)
      requires IsSignup(req) && Stands(acts, pid, req, Cleanup(id)) && |source| > 0 && Unused(st, source)
      modifies this
      ensures Stands(old(acts), pid, req, Replied(Error(Thrown)))
    {
      hide Runs, Unused, Rightly;
      var _ := Await(pid, DeleteAuth(id), source);
    }

    method PhoneSignup(ghost pid: Pid, phone: string, code: string, profile: Profile, device: Option<DeviceInfo>, source: seq<Fresh>)
      returns (reply: Reply, background: Option<Id>)
      requires Ready(pid, Request.PhoneSignup(phone, code, profile, device), source)
      modifies this
      ensures ServedOrOwing(old(acts), pid, Request.PhoneSignup(phone, code, profile, device), reply, background)
      ensures background.None? ==> Right(old(acts), old(db), old(clock), pid, Request.PhoneSignup(phone, code, profile, device), reply)
      ensures background.Some? ==> !Quiet(old(acts), pid, acts, old(db))
    {
      hide Runs, Unused, ContinueOtp, ContinueSession, Enabled, UsesFresh, Quiet, RightAnswer;
      var req := Request.PhoneSignup(phone, code, profile, device);
      label done: {
        background := None;
        Starts(pid, req, source);
        var otpResult := VerifyOtpCode(pid, req, phone, code, source);
        if After(otpResult).Replied? {
          reply := After(otpResult).reply;
          break done;
        }
        var existing := Await(pid, SelectAuth(Phone, phone), source);
        if existing.Failed? {
          reply := Error(Thrown);
          break done;
        }
        if existing.auth.Some? {
          var user := Await(pid, SelectUser(existing.auth.value.0), source);
          if user.Failed? {
            reply := Error(Thrown);
            break done;
          }
          if user.user.Some? {
            reply := Error(ErrorCode.UserExists);
            break done;
          }
          reply := Error(ProfileIncomplete);
          break done;
        }
        reply, background := CreateUser(pid, req, source[0].id, source[1..]);
      }
      OwingRightly(old(acts), old(st), pid, Request.PhoneSignup(phone, code, profile, device), reply, background);
    }

    method PhoneSignIn(ghost pid: Pid, phone: string, code: string, device: Option<DeviceInfo>, source: seq<Fresh>)
      returns (reply: Reply)
      requires Ready(pid, Request.PhoneSignIn(phone, code, device), source)
      modifies this
      ensures Served(old(acts), pid, Request.PhoneSignIn(phone, code, device), reply)
      ensures Right(old(acts), old(db), old(clock), pid, Request.PhoneSignIn(phone, code, device), reply)
    {
      hide Runs, Unused, Rightly, ContinueOtp, ContinueSession, Enabled, UsesFresh;
      ghost var req := Request.PhoneSignIn(phone, code, device);
      label done: {
        Starts(pid, req, source);
        var otpResult := VerifyOtpCode(pid, req, phone, code, source);
        if After(otpResult).Replied? {
          reply := After(otpResult).reply;
          break done;
        }
        var existing := Await(pid, SelectAuth(Phone, phone), source);
        if existing.Failed? {
          reply := Error(Thrown);
          break done;
        }
        if existing.auth.None? {
          reply := Error(UserNotFound);
          break done;
        }
        var id := existing.auth.value.0;
        var user := Await(pid, SelectUser(id), source);
        if user.Failed? {
          reply := Error(Thrown);
          break done;
        }
        if user.user.None? {
          reply := Error(ProfileIncomplete);
          break done;
        }
        reply := IssueTokens(pid, req, id, device, source[0], source[1..]);
      }
      ServedRightly(old(acts), old(st), pid, Request.PhoneSignIn(phone, code, device), reply);
    }

    /** The branch of both OAuth handlers for an account that exists. */
    method OAuthExisting(ghost pid: Pid, req: Request, id: Id, row: AuthRow, source: seq<Fresh>) returns (reply: Reply)
      requires (req.OAuthSignIn? || req.OAuthSignup?) && Stands(acts, pid, req, FindProfile(id, row.email))
      requires |source| > 1 && Unused(st, source)
      modifies this
      ensures Stands(old(acts), pid, req, Replied(reply))
    {
      hide Runs, Unused, Rightly;
      var user := Await(pid, SelectUser(id), source);
      if user.Failed? {
        return Error(Thrown);
      }
      if user.user.None? {
        return Error(ProfileIncomplete);
      }
      if NoEmail(row.email) {
        var saved := Await(pid, SetEmail(id, req.mail), source);
        if saved.Failed? {
          return Error(Thrown);
        }
      }
      reply := IssueTokens(pid, req, id, req.device, source[0], source[1..]);
    }

    method OAuthSignIn(ghost pid: Pid, req: Request, source: seq<Fresh>) returns (reply: Reply)
      requires req.OAuthSignIn? && Ready(pid, req, source)
      modifies this
      ensures Served(old(acts), pid, req, reply)
      ensures Right(old(acts), old(db), old(clock), pid, req, reply)
    {
      hide Runs, Unused, Rightly, ContinueOtp, ContinueSession, UsesFresh;
      label done: {
        Starts(pid, req, source);
        var existing := Await(pid, SelectAuth(req.provider, req.providerId), source);
        if existing.Failed? {
          reply := Error(Thrown);
          break done;
        }
        if existing.auth.Some? {
          reply := OAuthExisting(pid, req, existing.auth.value.0, existing.auth.value.1, source);
          break done;
        }
        var conflict := Await(pid, SelectAuthByEmail(req.mail), source);
        if conflict.Failed? {
          reply := Error(Thrown);
          break done;
        }
        if conflict.auth.Some? && conflict.auth.value.1.provider != req.provider {
          reply := Error(EmailConflict);
          break done;
        }
        reply := NeedsSignup;
      }
      ServedRightly(old(acts), old(st), pid, req, reply);
    }

    method OAuthSignup(ghost pid: Pid, req: Request, source: seq<Fresh>) returns (reply: Reply, background: Option<Id>)
      requires req.OAuthSignup? && Ready(pid, req, source)
      modifies this
      ensures ServedOrOwing(old(acts), pid, req, reply, background)
      ensures background.None? ==> Right(old(acts), old(db), old(clock), pid, req, reply)
      ensures background.Some? ==> !Quiet(old(acts), pid, acts, old(db))
    {
      hide Runs, Unused, Rightly, ContinueOtp, ContinueSession, Enabled, UsesFresh;
      label done: {
        background := None;
        Starts(pid, req, source);
        var existing := Await(pid, SelectAuth(req.provider, req.providerId), source);
        if existing.Failed? {
          reply := Error(Thrown);
          break done;
        }
        if existing.auth.Some? {
          reply := OAuthExisting(pid, req, existing.auth.value.0, existing.auth.value.1, source);
          break done;
        }
        var conflict := Await(pid, SelectAuthByEmail(req.mail), source);
        if conflict.Failed? {
          reply := Error(Thrown);
          break done;
        }
        if conflict.auth.Some? && conflict.auth.value.1.provider != req.provider {
          reply := Error(EmailConflict);
          break done;
        }
        reply, background := CreateUser(pid, req, source[0].id, source[1..]);
      }
      OwingRightly(old(acts), old(st), pid, req, reply, background);
    }

    /** requireAuth, once the JWT has been verified. */
    method RequireAuth(ghost pid: Pid, access: Access, source: seq<Fresh>) returns (reply: Reply)
      requires Ready(pid, Private(access), source)
      modifies this
      ensures Served(old(acts), pid, Private(access), reply) && reply != Error(ProfileRequired)
      ensures Right(old(acts), old(db), old(clock), pid, Private(access), reply)
    {
      hide Runs, Unused, Rightly;
      label done: {
        Starts(pid, Private(access), source);
        var user := Await(pid, SelectUser(access.sub), source);
        if user.Failed? {
          reply := Error(InvalidToken);
          break done;
        }
        reply := if user.user.Some? then Allowed(access.sub) else Error(ProfileRequired);
        Accounts.ProfileRequiredUnreachable(st, pid);
      }
      ServedRightly(old(acts), old(st), pid, Private(access), reply);
    }

    method RefreshTokens(ghost pid: Pid, refreshToken: string, source: seq<Fresh>) returns (reply: Reply)
      requires Ready(pid, Refresh(refreshToken), source)
      modifies this
      ensures Served(old(acts), pid, Refresh(refreshToken), reply)
      ensures Right(old(acts), old(db), old(clock), pid, Refresh(refreshToken), reply)
    {
      hide Runs, Unused, Rightly;
      label done: {
        Starts(pid, Refresh(refreshToken), source);
        var found := Await(pid, SelectToken(refreshToken), source);
        if found.Failed? {
          reply := Error(Thrown);
          break done;
        }
        if found.token.None? || found.token.value.1.revokedAt.Some? || found.token.value.1.expiresAt < clock {
          reply := Error(InvalidRefreshToken);
          break done;
        }
        var token := found.token.value.1;
        var owner := Await(pid, SelectAuthById(token.authId), source[1..]);
        if owner.Failed? {
          reply := Error(Thrown);
          break done;
        }
        if owner.auth.None? {
          reply := Error(Unauthorized);
          break done;
        }
        if RecentlyRefreshed(token.lastUsedAt, clock) {
          reply := Error(RateLimited);
          break done;
        }
        var newToken := source[1].token;
        var rotated := Await(pid, RotateToken(refreshToken, newToken, clock + REFRESH_TOKEN_EXPIRY_MS, clock), source[1..][1..]);
        reply := if rotated.Failed? then Error(Thrown) else Tokens(Mint(token.authId, clock), newToken);
      }
      ServedRightly(old(acts), old(st), pid, Refresh(refreshToken), reply);
    }

    method Logout(ghost pid: Pid, refreshToken: string, source: seq<Fresh>) returns (reply: Reply)
      requires Ready(pid, Request.Logout(refreshToken), source)
      modifies this
      ensures Served(old(acts), pid, Request.Logout(refreshToken), reply)
      ensures Right(old(acts), old(db), old(clock), pid, Request.Logout(refreshToken), reply)
    {
      hide Runs, Unused, Rightly;
      label done: {
        Starts(pid, Request.Logout(refreshToken), source);
        var found := Await(pid, SelectToken(refreshToken), source);
        if found.Failed? {
          reply := Error(Thrown);
          break done;
        }
        if found.token.Some? && found.token.value.1.revokedAt.None? {
          var revoked := Await(pid, RevokeToken(refreshToken, clock), source[1..]);
          if revoked.Failed? {
            reply := Error(Thrown);
            break done;
          }
        } else {
          reply := Error(Unauthorized);
          break done;
        }
        reply := LoggedOut;
      }
      ServedRightly(old(acts), old(st), pid, Request.Logout(refreshToken), reply);
    }
  }

  lemma CleanupDeletes(p: Proc)
    requires Shaped(p) && InFlight(p)
    ensures p.at.Cleanup? <==> StmtOf(p).DeleteAuth?
  {
  }

  lemma Sound(acts: seq<Action>, st: State)
    requires Runs(Init(), acts, st)
    ensures Constraints(st.db)
  {
    Accounts.RunKeeps(Init(), acts, st);
  }

  lemma Answered(st: State, pid: Pid, fault: bool)
    requires Enabled(st, Exec(pid, fault))
    ensures Shaped(Execute(st, pid, fault).procs[pid])
    ensures !Reads(st.db, StmtOf(st.procs[pid])).Failed?
    ensures StmtOf(st.procs[pid]).DeleteAuth? ==> Accepts(st.db, StmtOf(st.procs[pid]))
  {
    assert Answers(StmtOf(st.procs[pid]), Reads(st.db, StmtOf(st.procs[pid])));
  }
}
