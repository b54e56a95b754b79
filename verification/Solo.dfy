/**
 A request served alone, no statement of it failing: whatever point it has reached, the database is what its answers so
 far allow, and when it is done it has given the right answer.
 */
module Solo {
  import opened Schema
  import opened Handlers
  import opened Server
  import opened Endpoints
  import Accounts
  import Sessions
  import Revocation

  // ---- what holds at each point; d and c are the database and the time at the start ----

  /** The database once the code has been checked and dropped. */
  function Checked(d: Db, req: Request): Db {
    if Verifies(req) then Without(d, req.phone) else d
  }

  ghost predicate Passed(d: Db, c: int, req: Request) {
    Verifies(req) ==> RightCode(d, c, req.phone, req.code)
  }

  ghost predicate Unthrottled(d: Db, phone: string, now: int) {
    phone in d.otps ==> d.otps[phone].createdAt <= now - MINUTE
  }

  /** The database from which tokens are issued, and the account they are issued for. */
  ghost predicate Entitled(d: Db, c: int, now: int, req: Request, e: Db, id: Id)
    requires SignsIn(req)
  {
    var b, provider, name := Checked(d, req), IdentityProvider(req), IdentityName(req);
    match req
    case PhoneSignIn(_, _, _) => HasAccount(d, provider, name, id) && id in d.users && e == b
    case PhoneSignup(_, _, profile, _) =>
      NoAccount(d, provider, name) && AccountCreated(b, c, e, now, id, AuthRow(Phone, name, None), profile)
    case OAuthSignIn(_, _, mail, _) =>
      HasAccount(d, provider, name, id) && id in d.users && MailWritable(d, id, mail) && e == MailFilled(d, id, mail)
    case OAuthSignup(_, _, mail, profile, _) =>
      || (HasAccount(d, provider, name, id) && id in d.users && MailWritable(d, id, mail) && e == MailFilled(d, id, mail))
      || (NoAccount(d, provider, name) && MailFree(d, mail)
          && AccountCreated(b, c, e, now, id, AuthRow(provider, name, Some(mail)), profile))
  }

  ghost predicate MailWritable(d: Db, id: Id, mail: string) {
    id in d.auth && (NoEmail(d.auth[id].email) ==> MailFree(d, mail) || MailHeldBy(d, mail, id))
  }

  ghost predicate Unanswered(p: Proc) {
    p.answer.None?
  }

  function SignupRow(req: Request): AuthRow
    requires IsSignup(req)
  {
    AuthRow(IdentityProvider(req), IdentityName(req), if req.OAuthSignup? then Some(req.mail) else None)
  }

  ghost predicate OtpFacts(d: Db, c: int, db: Db, now: int, p: Proc)
    requires Fits(p.req, p.at) && OtpPoint(p.at)
  {
    match p.at
    case CooldownCheck => db == d && (p.answer.Some? ==> p.answer.value == Reads(d, StmtAt(p.req, p.at)))
    case PurposeAuth =>
      db == d && Unthrottled(d, p.req.phone, now) && (p.answer.Some? ==> p.answer.value == Reads(d, StmtAt(p.req, p.at)))
    case PurposeUser(id) =>
      db == d && Unthrottled(d, p.req.phone, now) && HasAccount(d, Phone, p.req.phone, id)
      && (p.answer.Some? ==> p.answer.value == Reads(d, StmtAt(p.req, p.at)))
    case StoreOtp(known, _, at) =>
      && Unthrottled(d, p.req.phone, now) && c <= at <= now && known == KnownPhone(d, p.req.phone)
      && (if p.req.purpose.Login? then known else !known)
      && (if p.answer.None? then db == d else p.answer.value.Acknowledged? && CodeStored(d, c, db, now, p.req.phone))
    case VerifyFind => db == d && (p.answer.Some? ==> p.answer.value == Reads(d, StmtAt(p.req, p.at)))
    case VerifyBump(n, at) =>
      && p.req.phone in d.otps
      && var row := d.otps[p.req.phone];
      && row.expiresAt >= c && row.attempts < 3 && row.code != p.req.code && n == row.attempts + 1
      && if p.answer.None? then db == d
         else p.answer.value.Acknowledged? && db == d.(otps := d.otps[p.req.phone := row.(attempts := n)])
    case VerifyDrop(v, at) =>
      && p.req.phone in d.otps
      && var row := d.otps[p.req.phone];
      && (v.Expired? ==> row.expiresAt < now)
      && (v.MaxAttempts? ==> row.expiresAt >= c && (row.attempts >= 3 || (row.code != p.req.code && row.attempts == 2)))
      && (v.Success? ==> RightCode(d, c, p.req.phone, p.req.code))
      && (if p.answer.None? then Without(db, p.req.phone) == Without(d, p.req.phone)
          else p.answer.value.Acknowledged? && db == Without(d, p.req.phone))
  }

  ghost predicate AccountFacts(d: Db, c: int, db: Db, now: int, p: Proc)
    requires Fits(p.req, p.at) && SignsIn(p.req) && !OtpPoint(p.at) && !p.at.Replied?
  {
    var req, b := p.req, Checked(d, p.req);
    var provider, name := IdentityProvider(req), IdentityName(req);
    && Passed(d, c, req)
    && match p.at
       case FindAccount => db == b && (p.answer.Some? ==> p.answer.value == Reads(b, StmtAt(req, p.at)))
       case FindProfile(id, email) =>
         db == b && HasAccount(d, provider, name, id) && email == d.auth[id].email
         && (p.answer.Some? ==> p.answer.value == Reads(b, StmtAt(req, p.at)))
       case FindConflict =>
         db == b && NoAccount(d, provider, name) && (p.answer.Some? ==> p.answer.value == Reads(b, StmtAt(req, p.at)))
       case SaveEmail(id) =>
         && HasAccount(d, provider, name, id) && id in d.users && NoEmail(d.auth[id].email)
         && (match p.answer
             case None => db == b
             case Some(a) =>
               if a.Failed? then db == b && !MailWritable(d, id, req.mail)
               else a.Acknowledged? && MailWritable(d, id, req.mail) && db == MailFilled(b, id, req.mail))
       case InsertAccount(id) =>
         && IsSignup(req) && NoAccount(d, provider, name) && id !in d.auth && id !in d.users
         && (req.OAuthSignup? ==> !MailConflict(d, provider, req.mail))
         && (match p.answer
             case None => db == b
             case Some(a) =>
               if a.Failed? then db == b && req.OAuthSignup? && !MailFree(d, req.mail)
               else a.Acknowledged? && (req.OAuthSignup? ==> MailFree(d, req.mail)) && db == b.(auth := b.auth[id := SignupRow(req)]))
       case InsertProfile(id) =>
         && IsSignup(req) && NoAccount(d, provider, name) && id !in d.auth && id !in d.users
         && (req.OAuthSignup? ==> MailFree(d, req.mail))
         && (match p.answer
             case None => db == b.(auth := b.auth[id := SignupRow(req)])
             case Some(a) => a.Acknowledged? && AccountCreated(b, c, db, now, id, SignupRow(req), req.profile))
       case SaveTokens(row, access, token, at) =>
         && row !in d.tokens && c <= at <= now && access == Mint(access.sub, at)
         && (forall t :: t in d.tokens ==> d.tokens[t].token != token)
         && (match p.answer
             case None => Entitled(d, c, now, req, db, access.sub)
             case Some(a) =>
               a.Acknowledged? && exists e :: Entitled(d, c, now, req, e, access.sub)
                                              && SessionOpened(e, c, db, now, access.sub, DeviceOf(req), access, token))
       case _ => false
  }

  ghost predicate Current(d: Db, r: Id, row: TokenRow, token: string) {
    r in d.tokens && d.tokens[r] == row && row.token == token
  }

  ghost predicate SessionFacts(d: Db, c: int, db: Db, now: int, p: Proc)
    requires Fits(p.req, p.at) && SessionPoint(p.at)
  {
    match p.at
    case RefreshFind => db == d && (p.answer.Some? ==> p.answer.value == Reads(d, StmtAt(p.req, p.at)))
    case RefreshOwner(r, found) =>
      && db == d && Current(d, r, found, p.req.token) && found.revokedAt.None? && found.expiresAt >= c
      && (p.answer.Some? ==> p.answer.value == Reads(d, StmtAt(p.req, p.at)))
    case RefreshRotate(r, found, token, at) =>
      && Current(d, r, found, p.req.token) && found.revokedAt.None? && found.expiresAt >= c
      && c <= at <= now && found.lastUsedAt <= at - 5 * MINUTE && token != p.req.token
      && (forall t :: t in d.tokens ==> d.tokens[t].token != token)
      && (if p.answer.None? then db == d
          else
            && p.answer.value.Acknowledged?
            && db == d.(tokens := d.tokens[r := found.(token := token, expiresAt := at + 30 * DAY, lastUsedAt := at)]))
    case LogoutFind => db == d && (p.answer.Some? ==> p.answer.value == Reads(d, StmtAt(p.req, p.at)))
    case LogoutRevoke(at) =>
      c <= at <= now && exists r ::
        && r in d.tokens && d.tokens[r].token == p.req.token && d.tokens[r].revokedAt == None
        && (if p.answer.None? then db == d
            else p.answer.value.Acknowledged? && db == d.(tokens := d.tokens[r := d.tokens[r].(revokedAt := Some(at))]))
    case CheckProfile => db == d && (p.answer.Some? ==> p.answer.value == Reads(d, StmtAt(p.req, p.at)))
  }

  ghost predicate Facts(d: Db, c: int, db: Db, now: int, p: Proc) {
    && Shaped(p)
    && if p.at.Replied? then RightAnswer(d, c, db, now, p.req, p.at.reply)
       else if OtpPoint(p.at) then OtpFacts(d, c, db, now, p)
       else if SessionPoint(p.at) then SessionFacts(d, c, db, now, p)
       else SignsIn(p.req) && AccountFacts(d, c, db, now, p)
  }

  /** What is known of the database at the start. */
  ghost predicate Sane(d: Db) {
    Constraints(d) && forall t :: t in d.tokens ==> d.tokens[t].authId in d.users
  }

  // ---- executing a statement ----

  lemma OtpExec(d: Db, c: int, db: Db, now: int, p: Proc)
    requires Shaped(p) && InFlight(p) && OtpPoint(p.at) && OtpFacts(d, c, db, now, p) && c <= now
    ensures
      var st := StmtOf(p);
      Accepts(db, st) && OtpFacts(d, c, DbAfter(db, st, now), now, p.(answer := Some(Reads(db, st))))
  {
    hide KnownPhone;
    var st, phone := StmtOf(p), p.req.phone;
    var after := DbAfter(db, st, now);
    if p.at.VerifyDrop? {
      assert after == Without(db, phone);
    } else if p.at.StoreOtp? {
      assert after == db.(otps := db.otps[phone := after.otps[phone]]);
    } else if p.at.VerifyBump? {
      assert after == db.(otps := db.otps[phone := after.otps[phone]]);
    } else {
      assert after == db;
    }
  }

  lemma SelectChangesNothing(db: Db, st: Stmt, now: Time)
    requires st.SelectOtp? || st.SelectAuth? || st.SelectAuthById? || st.SelectAuthByEmail? || st.SelectUser? || st.SelectToken?
    ensures Accepts(db, st) && DbAfter(db, st, now) == db
  {
  }

  lemma RotateExec(d: Db, c: int, db: Db, now: int, p: Proc)
    requires Sane(d) && Shaped(p) && InFlight(p) && p.at.RefreshRotate? && SessionFacts(d, c, db, now, p) && c <= now
    ensures
      var st := StmtOf(p);
      Accepts(db, st) && SessionFacts(d, c, DbAfter(db, st, now), now, p.(answer := Some(Reads(db, st))))
  {
    hide Reads;
    RotatedTable(d, p.at.row, p.req.token, StmtOf(p), now);
    assert Reads(db, StmtOf(p)) == Acknowledged by { RotateAcknowledged(db, p.req.token, p.at.newToken, p.at.at); }
  }

  lemma RotateAcknowledged(db: Db, oldToken: string, newToken: string, at: Time)
    ensures Reads(db, RotateToken(oldToken, newToken, at + 30 * DAY, at)) == Acknowledged
  {
  }

  lemma RevokeAcknowledged(db: Db, token: string, at: Time)
    ensures Reads(db, RevokeToken(token, at)) == Acknowledged
  {
  }

  lemma RevokeExec(d: Db, c: int, db: Db, now: int, p: Proc)
    requires Sane(d) && Shaped(p) && InFlight(p) && p.at.LogoutRevoke? && SessionFacts(d, c, db, now, p) && c <= now
    ensures
      var st := StmtOf(p);
      Accepts(db, st) && SessionFacts(d, c, DbAfter(db, st, now), now, p.(answer := Some(Reads(db, st))))
  {
    hide Reads;
    var r :| r in d.tokens && d.tokens[r].token == p.req.token && d.tokens[r].revokedAt == None;
    RotatedTable(d, r, p.req.token, StmtOf(p), now);
    assert Reads(db, RevokeToken(p.req.token, p.at.at)) == Acknowledged by { RevokeAcknowledged(db, p.req.token, p.at.at); }
    assert DbAfter(db, StmtOf(p), now) == d.(tokens := d.tokens[r := d.tokens[r].(revokedAt := Some(p.at.at))]);
  }

  lemma SessionExec(d: Db, c: int, db: Db, now: int, p: Proc)
    requires Sane(d) && Shaped(p) && InFlight(p) && SessionPoint(p.at) && SessionFacts(d, c, db, now, p) && c <= now
    ensures
      var st := StmtOf(p);
      Accepts(db, st) && SessionFacts(d, c, DbAfter(db, st, now), now, p.(answer := Some(Reads(db, st))))
  {
    if p.at.RefreshRotate? {
      RotateExec(d, c, db, now, p);
    } else if p.at.LogoutRevoke? {
      RevokeExec(d, c, db, now, p);
    } else {
      hide Accepts, DbAfter, Reads;
      SelectChangesNothing(db, StmtOf(p), now);
    }
  }

  /** An UPDATE by token changes the one row that holds it. */
  lemma RotatedTable(d: Db, r: Id, token: string, st: Stmt, now: Time)
    requires UniqueToken(d.tokens) && r in d.tokens && d.tokens[r].token == token
    requires (st.RotateToken? && st.oldToken == token) || (st.RevokeToken? && st.token == token)
    ensures TokensAfter(d.tokens, st, now) == d.tokens[r := RowAfter(d.tokens[r], st)]
  {
  }

  /** The answer of a statement executed alone. */
  ghost function Got(db: Db, st: Stmt): Answer {
    if Accepts(db, st) then Reads(db, st) else Failed
  }

  ghost function Left(db: Db, st: Stmt, now: Time): Db {
    if Accepts(db, st) then DbAfter(db, st, now) else db
  }

  lemma SaveEmailExec(d: Db, c: int, db: Db, now: int, p: Proc)
    requires Sane(d) && Shaped(p) && InFlight(p) && p.at.SaveEmail? && AccountFacts(d, c, db, now, p)
    ensures var st := StmtOf(p); AccountFacts(d, c, Left(db, st, now), now, p.(answer := Some(Got(db, st))))
  {
    MailAccepted(d, db, p.at.id, p.req.mail);
  }

  /** The unique e-mail lets the UPDATE through exactly if nobody else holds the address. */
  lemma MailAccepted(d: Db, db: Db, id: Id, mail: string)
    requires Constraints(d) && db.auth == d.auth && id in d.auth && NoEmail(d.auth[id].email)
    ensures Accepts(db, SetEmail(id, mail)) <==> MailWritable(d, id, mail)
  {
    if Accepts(db, SetEmail(id, mail)) {
      assert forall a :: MailHeldBy(d, mail, a) ==> a == id;
    } else {
      var a :| a in d.auth && a != id && d.auth[a].email == Some(mail);
      assert MailHeldBy(d, mail, a);
    }
  }

  lemma InsertAccountExec(d: Db, c: int, db: Db, now: int, p: Proc)
    requires Sane(d) && Shaped(p) && InFlight(p) && p.at.InsertAccount? && AccountFacts(d, c, db, now, p)
    ensures var st := StmtOf(p); AccountFacts(d, c, Left(db, st, now), now, p.(answer := Some(Got(db, st))))
  {
    var st := StmtOf(p);
    assert st == InsertAuth(p.at.id, SignupRow(p.req));
    forall a | a in db.auth
      ensures !SameIdentity(db.auth[a], SignupRow(p.req))
    {
      assert !HasAccount(d, IdentityProvider(p.req), IdentityName(p.req), a);
    }
    if p.req.OAuthSignup? {
      assert MailFree(d, p.req.mail) <==> forall a :: a in db.auth ==> db.auth[a].email != Some(p.req.mail) by {
        assert forall a :: MailHeldBy(d, p.req.mail, a) <==> a in db.auth && db.auth[a].email == Some(p.req.mail);
      }
    }
  }

  lemma InsertProfileExec(d: Db, c: int, db: Db, now: int, p: Proc)
    requires Sane(d) && Shaped(p) && InFlight(p) && p.at.InsertProfile? && AccountFacts(d, c, db, now, p) && c <= now
    ensures var st := StmtOf(p); AccountFacts(d, c, Left(db, st, now), now, p.(answer := Some(Got(db, st))))
  {
    hide NoAccount, MailFree, RightCode;
    var st, b := StmtOf(p), Checked(d, p.req);
    var after := Left(db, st, now);
    assert after == b.(auth := b.auth[p.at.id := SignupRow(p.req)], users := b.users[p.at.id := after.users[p.at.id]]);
  }

  lemma EntitledTables(d: Db, c: int, now: int, req: Request, e: Db, id: Id)
    requires Sane(d) && SignsIn(req) && Entitled(d, c, now, req, e, id)
    ensures id in e.auth && id in e.users && e.tokens == d.tokens
  {
  }

  lemma SaveTokensExec(d: Db, c: int, db: Db, now: int, p: Proc)
    requires Sane(d) && Shaped(p) && InFlight(p) && p.at.SaveTokens? && AccountFacts(d, c, db, now, p) && c <= now
    ensures var st := StmtOf(p); AccountFacts(d, c, Left(db, st, now), now, p.(answer := Some(Got(db, st))))
  {
    hide Entitled, RightCode;
    var st, at := StmtOf(p), p.at;
    EntitledTables(d, c, now, p.req, db, at.access.sub);
    OwnerIsSub(p);
    var after := Left(db, st, now);
    assert after == db.(tokens := db.tokens[at.row := after.tokens[at.row]]);
    assert SessionOpened(db, c, after, now, at.access.sub, DeviceOf(p.req), at.access, at.newToken);
  }

  lemma OwnerIsSub(p: Proc)
    requires Shaped(p) && p.at.SaveTokens?
    ensures StmtOf(p) == InsertToken(p.at.row, p.at.access.sub, p.at.newToken, p.at.at + 30 * DAY, DeviceOf(p.req))
  {
  }

  lemma AccountExec(d: Db, c: int, db: Db, now: int, p: Proc)
    requires Sane(d) && Shaped(p) && InFlight(p) && SignsIn(p.req) && !OtpPoint(p.at) && c <= now
    requires AccountFacts(d, c, db, now, p)
    ensures var st := StmtOf(p); AccountFacts(d, c, Left(db, st, now), now, p.(answer := Some(Got(db, st))))
  {
    if p.at.SaveEmail? {
      SaveEmailExec(d, c, db, now, p);
    } else if p.at.InsertAccount? {
      InsertAccountExec(d, c, db, now, p);
    } else if p.at.InsertProfile? {
      InsertProfileExec(d, c, db, now, p);
    } else if p.at.SaveTokens? {
      SaveTokensExec(d, c, db, now, p);
    } else {
      hide Accepts, DbAfter, Reads, Entitled, HasAccount, NoAccount, RightCode;
      SelectChangesNothing(db, StmtOf(p), now);
    }
  }

  // ---- running a block ----

  lemma PhoneFound(d: Db, phone: string)
    requires Constraints(d)
    ensures
      var found := FindIdentity(d.auth, Phone, phone);
      KnownPhone(d, phone) <==> found.Some? && found.value in d.users
    ensures FindIdentity(d.auth, Phone, phone).Some? ==> HasAccount(d, Phone, phone, FindIdentity(d.auth, Phone, phone).value)
  {
    Found(d, Phone, phone);
  }

  /** The lookup by identity finds the one account there is. */
  lemma Found(d: Db, provider: Provider, name: string)
    requires Constraints(d)
    ensures
      var found := FindIdentity(d.auth, provider, name);
      && (found.None? <==> NoAccount(d, provider, name))
      && forall id :: HasAccount(d, provider, name, id) ==> found == Some(id)
    ensures FindIdentity(d.auth, provider, name).Some? ==> HasAccount(d, provider, name, FindIdentity(d.auth, provider, name).value)
  {
    var found := FindIdentity(d.auth, provider, name);
    forall id | HasAccount(d, provider, name, id)
      ensures found == Some(id)
    {
      assert SameIdentity(d.auth[id], d.auth[found.value]);
    }
    if found.Some? {
      assert HasAccount(d, provider, name, found.value);
    }
  }

  /** The lookup by address finds the one holder there is. */
  lemma MailFound(d: Db, provider: Provider, mail: string)
    requires Constraints(d)
    ensures
      var found := FindEmail(d.auth, mail);
      && (found.None? <==> MailFree(d, mail))
      && (MailConflict(d, provider, mail) <==> found.Some? && d.auth[found.value].provider != provider)
  {
    var found := FindEmail(d.auth, mail);
    forall id | MailHeldBy(d, mail, id)
      ensures found == Some(id)
    {
    }
    if found.Some? {
      assert MailHeldBy(d, mail, found.value);
    }
  }

  /** A block has run well: no failure, and the facts hold at the next point. */
  ghost predicate WellDone(d: Db, c: int, db: Db, now: int, p: Proc, next: Point) {
    Facts(d, c, db, now, Proc(p.req, next, None))
  }

  lemma CooldownResume(d: Db, c: int, db: Db, now: int, p: Proc, f: Fresh)
    requires Shaped(p) && p.at.CooldownCheck? && p.answer.Some? && OtpFacts(d, c, db, now, p) && c <= now
    ensures !p.answer.value.Failed? && WellDone(d, c, db, now, p, ContinueOtp(p.req, p.at, p.answer.value, now, f))
  {
    hide KnownPhone;
  }

  lemma PurposeResume(d: Db, c: int, db: Db, now: int, p: Proc, f: Fresh)
    requires Sane(d) && Shaped(p) && (p.at.PurposeAuth? || p.at.PurposeUser?) && p.answer.Some? && OtpFacts(d, c, db, now, p) && c <= now
    ensures !p.answer.value.Failed? && WellDone(d, c, db, now, p, ContinueOtp(p.req, p.at, p.answer.value, now, f))
  {
    hide KnownPhone, HasAccount, NoAccount;
    PhoneFound(d, p.req.phone);
    Found(d, Phone, p.req.phone);
  }

  lemma StoreResume(d: Db, c: int, db: Db, now: int, p: Proc, f: Fresh)
    requires Shaped(p) && p.at.StoreOtp? && p.answer.Some? && OtpFacts(d, c, db, now, p) && c <= now
    ensures !p.answer.value.Failed? && WellDone(d, c, db, now, p, ContinueOtp(p.req, p.at, p.answer.value, now, f))
  {
    hide KnownPhone;
  }

  lemma VerifyFindResume(d: Db, c: int, db: Db, now: int, p: Proc, f: Fresh)
    requires Shaped(p) && p.at.VerifyFind? && p.answer.Some? && OtpFacts(d, c, db, now, p) && c <= now
    ensures !p.answer.value.Failed? && WellDone(d, c, db, now, p, ContinueOtp(p.req, p.at, p.answer.value, now, f))
  {
  }

  lemma VerifyBumpResume(d: Db, c: int, db: Db, now: int, p: Proc, f: Fresh)
    requires Shaped(p) && p.at.VerifyBump? && p.answer.Some? && OtpFacts(d, c, db, now, p) && c <= now
    ensures !p.answer.value.Failed? && WellDone(d, c, db, now, p, ContinueOtp(p.req, p.at, p.answer.value, now, f))
  {
    if p.at.attempts >= 3 {
      assert Without(db, p.req.phone) == Without(d, p.req.phone);
    }
  }

  lemma VerifyDropResume(d: Db, c: int, db: Db, now: int, p: Proc, f: Fresh)
    requires Shaped(p) && p.at.VerifyDrop? && p.answer.Some? && OtpFacts(d, c, db, now, p) && c <= now
    ensures !p.answer.value.Failed? && WellDone(d, c, db, now, p, ContinueOtp(p.req, p.at, p.answer.value, now, f))
  {
  }

  lemma OtpResume(d: Db, c: int, db: Db, now: int, p: Proc, f: Fresh)
    requires Sane(d) && Shaped(p) && OtpPoint(p.at) && p.answer.Some? && OtpFacts(d, c, db, now, p) && c <= now
    ensures !p.answer.value.Failed? && WellDone(d, c, db, now, p, ContinueOtp(p.req, p.at, p.answer.value, now, f))
  {
    hide WellDone, OtpFacts, ContinueOtp, Sane;
    match p.at
    case CooldownCheck => CooldownResume(d, c, db, now, p, f);
    case PurposeAuth => PurposeResume(d, c, db, now, p, f);
    case PurposeUser(_) => PurposeResume(d, c, db, now, p, f);
    case StoreOtp(_, _, _) => StoreResume(d, c, db, now, p, f);
    case VerifyFind => VerifyFindResume(d, c, db, now, p, f);
    case VerifyBump(_, _) => VerifyBumpResume(d, c, db, now, p, f);
    case VerifyDrop(_, _) => VerifyDropResume(d, c, db, now, p, f);
  }

  lemma RefreshFindResume(d: Db, c: int, db: Db, now: int, p: Proc, f: Fresh)
    requires Sane(d) && Shaped(p) && p.at.RefreshFind? && p.answer.Some? && SessionFacts(d, c, db, now, p) && c <= now
    ensures !p.answer.value.Failed? && WellDone(d, c, db, now, p, ContinueSession(p.req, p.at, p.answer.value, now, f))
  {
    var r := FindToken(d.tokens, p.req.token);
    assert forall x :: x in d.tokens && d.tokens[x].token == p.req.token ==> r == Some(x);
  }

  lemma RefreshTooSoon(d: Db, c: int, db: Db, now: int, p: Proc)
    requires Shaped(p) && p.at.RefreshOwner? && SessionFacts(d, c, db, now, p) && c <= now
    requires RecentlyRefreshed(p.at.found.lastUsedAt, now)
    ensures WellDone(d, c, db, now, p, Fail(RateLimited))
  {
    hide LogoutAnswer, PrivateAnswer, Reads;
    assert d.tokens[p.at.row].token == p.req.token;
  }

  lemma RefreshRotates(d: Db, c: int, db: Db, now: int, p: Proc, f: Fresh)
    requires Shaped(p) && p.at.RefreshOwner? && SessionFacts(d, c, db, now, p) && c <= now
    requires forall t :: t in d.tokens ==> d.tokens[t].token != f.token
    requires !RecentlyRefreshed(p.at.found.lastUsedAt, now)
    ensures WellDone(d, c, db, now, p, RefreshRotate(p.at.row, p.at.found, f.token, now))
  {
    hide RightAnswer, Reads;
  }

  lemma RefreshOwnerResume(d: Db, c: int, db: Db, now: int, p: Proc, f: Fresh)
    requires Sane(d) && Shaped(p) && p.at.RefreshOwner? && p.answer.Some? && SessionFacts(d, c, db, now, p) && c <= now
    requires forall t :: t in d.tokens ==> d.tokens[t].token != f.token
    ensures !p.answer.value.Failed? && WellDone(d, c, db, now, p, ContinueSession(p.req, p.at, p.answer.value, now, f))
  {
    hide WellDone;
    assert p.at.found.authId in d.users && p.at.found.authId in d.auth;
    if RecentlyRefreshed(p.at.found.lastUsedAt, now) {
      RefreshTooSoon(d, c, db, now, p);
    } else {
      RefreshRotates(d, c, db, now, p, f);
    }
  }

  lemma RefreshRotateResume(d: Db, c: int, db: Db, now: int, p: Proc, f: Fresh)
    requires Shaped(p) && p.at.RefreshRotate? && p.answer.Some? && SessionFacts(d, c, db, now, p) && c <= now
    ensures !p.answer.value.Failed? && WellDone(d, c, db, now, p, ContinueSession(p.req, p.at, p.answer.value, now, f))
  {
    assert p.at.row in d.tokens && p.at.row in db.tokens;
  }

  lemma LogoutFindResume(d: Db, c: int, db: Db, now: int, p: Proc, f: Fresh)
    requires Sane(d) && Shaped(p) && p.at.LogoutFind? && p.answer.Some? && SessionFacts(d, c, db, now, p) && c <= now
    ensures !p.answer.value.Failed? && WellDone(d, c, db, now, p, ContinueSession(p.req, p.at, p.answer.value, now, f))
  {
    hide RefreshAnswer, PrivateAnswer;
    var r := FindToken(d.tokens, p.req.token);
    assert forall x :: x in d.tokens && d.tokens[x].token == p.req.token ==> r == Some(x);
  }

  lemma LogoutRevokeResume(d: Db, c: int, db: Db, now: int, p: Proc, f: Fresh)
    requires Shaped(p) && p.at.LogoutRevoke? && p.answer.Some? && SessionFacts(d, c, db, now, p) && c <= now
    ensures !p.answer.value.Failed? && WellDone(d, c, db, now, p, ContinueSession(p.req, p.at, p.answer.value, now, f))
  {
    hide RefreshAnswer, PrivateAnswer;
  }

  lemma PrivateResume(d: Db, c: int, db: Db, now: int, p: Proc, f: Fresh)
    requires Shaped(p) && p.at.CheckProfile? && p.answer.Some? && SessionFacts(d, c, db, now, p)
    ensures !p.answer.value.Failed? && WellDone(d, c, db, now, p, ContinueSession(p.req, p.at, p.answer.value, now, f))
  {
  }

  lemma SessionResume(d: Db, c: int, db: Db, now: int, p: Proc, f: Fresh)
    requires Sane(d) && Shaped(p) && SessionPoint(p.at) && p.answer.Some? && SessionFacts(d, c, db, now, p) && c <= now
    requires forall t :: t in d.tokens ==> d.tokens[t].token != f.token
    ensures !p.answer.value.Failed? && WellDone(d, c, db, now, p, ContinueSession(p.req, p.at, p.answer.value, now, f))
  {
    hide WellDone, SessionFacts, ContinueSession, Sane;
    match p.at
    case RefreshFind => RefreshFindResume(d, c, db, now, p, f);
    case RefreshOwner(_, _) => RefreshOwnerResume(d, c, db, now, p, f);
    case RefreshRotate(_, _, _, _) => RefreshRotateResume(d, c, db, now, p, f);
    case CheckProfile => PrivateResume(d, c, db, now, p, f);
    case LogoutFind => LogoutFindResume(d, c, db, now, p, f);
    case LogoutRevoke(_) => LogoutRevokeResume(d, c, db, now, p, f);
  }

  lemma FindAccountResume(d: Db, c: int, db: Db, now: int, p: Proc, f: Fresh)
    requires Sane(d) && Shaped(p) && p.at.FindAccount? && p.answer.Some? && AccountFacts(d, c, db, now, p) && c <= now
    requires f.id !in d.auth && f.id !in d.users
    ensures !p.answer.value.Failed? && WellDone(d, c, db, now, p, AfterAccountRead(p.req, p.answer.value.auth, f))
  {
    hide HasAccount, NoAccount, RightCode, OAuthSignInAnswer, OAuthSignupAnswer, CodeRefused;
    Found(d, IdentityProvider(p.req), IdentityName(p.req));
  }

  lemma FindConflictResume(d: Db, c: int, db: Db, now: int, p: Proc, f: Fresh)
    requires Sane(d) && Shaped(p) && p.at.FindConflict? && p.answer.Some? && AccountFacts(d, c, db, now, p) && c <= now
    requires f.id !in d.auth && f.id !in d.users
    ensures !p.answer.value.Failed? && WellDone(d, c, db, now, p, AfterConflictRead(p.req, p.answer.value.auth, f))
  {
    hide HasAccount, NoAccount, MailConflict, MailFree, OAuthKnownAnswer, SessionOpened, AccountCreated;
    MailFound(d, p.req.provider, p.req.mail);
  }

  /** Fresh values that are new to the database. */
  ghost predicate New(d: Db, f: Fresh) {
    f.id !in d.auth && f.id !in d.users && f.row !in d.tokens && forall t :: t in d.tokens ==> d.tokens[t].token != f.token
  }

  lemma ProfileMissing(d: Db, c: int, db: Db, now: int, p: Proc)
    requires Sane(d) && Shaped(p) && p.at.FindProfile? && p.answer.Some? && AccountFacts(d, c, db, now, p) && c <= now
    requires p.answer.value.UserAnswer? && p.answer.value.user.None?
    ensures WellDone(d, c, db, now, p, Fail(ProfileIncomplete))
  {
    hide RightCode, CodeRefused, SessionOpened, AccountCreated, MailFree, MailConflict;
  }

  lemma ProfilePresent(d: Db, c: int, db: Db, now: int, p: Proc, f: Fresh)
    requires Sane(d) && Shaped(p) && p.at.FindProfile? && p.answer.Some? && AccountFacts(d, c, db, now, p) && c <= now && New(d, f)
    requires p.answer.value.UserAnswer? && p.answer.value.user.Some?
    ensures WellDone(d, c, db, now, p, AfterProfileRead(p.req, p.at.id, p.at.email, p.answer.value.user, now, f))
  {
    hide NoAccount, RightCode, CodeRefused, SessionOpened, AccountCreated, MailFree;
  }

  lemma FindProfileResume(d: Db, c: int, db: Db, now: int, p: Proc, f: Fresh)
    requires Sane(d) && Shaped(p) && p.at.FindProfile? && p.answer.Some? && AccountFacts(d, c, db, now, p) && c <= now && New(d, f)
    ensures !p.answer.value.Failed?
    ensures WellDone(d, c, db, now, p, AfterProfileRead(p.req, p.at.id, p.at.email, p.answer.value.user, now, f))
  {
    hide WellDone, New, Sane, RightCode, HasAccount;
    if p.answer.value.user.None? {
      ProfileMissing(d, c, db, now, p);
    } else {
      ProfilePresent(d, c, db, now, p, f);
    }
  }

  lemma MailRefused(d: Db, c: int, db: Db, now: int, p: Proc)
    requires Sane(d) && Shaped(p) && p.at.SaveEmail? && p.answer == Some(Failed) && AccountFacts(d, c, db, now, p) && c <= now
    ensures WellDone(d, c, db, now, p, Fail(Thrown))
  {
    hide SessionOpened, AccountCreated, MailFree, MailHeldBy, MailConflict;
    assert !NoAccount(d, IdentityProvider(p.req), IdentityName(p.req));
    assert OAuthKnownAnswer(d, c, db, now, p.at.id, p.req.mail, DeviceOf(p.req), Error(Thrown));
  }

  lemma MailSaved(d: Db, c: int, db: Db, now: int, p: Proc, f: Fresh)
    requires Shaped(p) && p.at.SaveEmail? && p.answer.Some? && !p.answer.value.Failed? && AccountFacts(d, c, db, now, p) && c <= now
    requires New(d, f)
    ensures WellDone(d, c, db, now, p, Issue(p.at.id, now, f))
  {
    hide NoAccount, SessionOpened, AccountCreated, MailFree, MailHeldBy, RightAnswer;
  }

  lemma SaveEmailResume(d: Db, c: int, db: Db, now: int, p: Proc, f: Fresh)
    requires Sane(d) && Shaped(p) && p.at.SaveEmail? && p.answer.Some? && AccountFacts(d, c, db, now, p) && c <= now && New(d, f)
    ensures WellDone(d, c, db, now, p, if p.answer.value.Failed? then Fail(Thrown) else Issue(p.at.id, now, f))
  {
    hide WellDone, New, Sane, AccountFacts;
    if p.answer.value.Failed? {
      MailRefused(d, c, db, now, p);
    } else {
      MailSaved(d, c, db, now, p, f);
    }
  }

  lemma InsertAccountResume(d: Db, c: int, db: Db, now: int, p: Proc, f: Fresh)
    requires Shaped(p) && p.at.InsertAccount? && p.answer.Some? && AccountFacts(d, c, db, now, p) && c <= now
    ensures WellDone(d, c, db, now, p, if p.answer.value.Failed? then Fail(Thrown) else InsertProfile(p.at.id))
  {
    hide NoAccount, SessionOpened, AccountCreated, MailFree, MailConflict, OAuthKnownAnswer;
  }

  lemma InsertProfileResume(d: Db, c: int, db: Db, now: int, p: Proc, f: Fresh)
    requires Shaped(p) && p.at.InsertProfile? && p.answer.Some? && AccountFacts(d, c, db, now, p) && c <= now && New(d, f)
    ensures !p.answer.value.Failed? && WellDone(d, c, db, now, p, Issue(p.at.id, now, f))
  {
    hide NoAccount, SessionOpened, AccountCreated, MailFree;
  }

  /** Tokens for an entitled account are the right answer. */
  lemma PhoneEntitled(d: Db, c: int, db: Db, now: int, req: Request, e: Db, access: Access, token: string)
    requires Sane(d) && Verifies(req) && Passed(d, c, req) && Entitled(d, c, now, req, e, access.sub)
    requires SessionOpened(e, c, db, now, access.sub, DeviceOf(req), access, token)
    ensures RightAnswer(d, c, db, now, req, Tokens(access, token))
  {
    hide SessionOpened, AccountCreated, RightCode, HasAccount, NoAccount;
  }

  lemma OAuthEntitled(d: Db, c: int, db: Db, now: int, req: Request, e: Db, access: Access, token: string)
    requires Sane(d) && (req.OAuthSignIn? || req.OAuthSignup?) && Entitled(d, c, now, req, e, access.sub)
    requires HasAccount(d, req.provider, req.providerId, access.sub)
    requires SessionOpened(e, c, db, now, access.sub, DeviceOf(req), access, token)
    ensures RightAnswer(d, c, db, now, req, Tokens(access, token))
  {
    hide SessionOpened, AccountCreated, MailFree, MailHeldBy;
    assert !NoAccount(d, req.provider, req.providerId);
    assert OAuthKnownAnswer(d, c, db, now, access.sub, req.mail, DeviceOf(req), Tokens(access, token));
  }

  lemma OAuthMade(d: Db, c: int, db: Db, now: int, req: Request, e: Db, access: Access, token: string)
    requires Sane(d) && req.OAuthSignup? && Entitled(d, c, now, req, e, access.sub)
    requires !HasAccount(d, req.provider, req.providerId, access.sub)
    requires SessionOpened(e, c, db, now, access.sub, DeviceOf(req), access, token)
    ensures RightAnswer(d, c, db, now, req, Tokens(access, token))
  {
    hide SessionOpened, AccountCreated, HasAccount, NoAccount, OAuthKnownAnswer;
    assert !MailConflict(d, req.provider, req.mail);
  }

  lemma SaveTokensResume(d: Db, c: int, db: Db, now: int, p: Proc)
    requires Sane(d) && Shaped(p) && p.at.SaveTokens? && p.answer.Some? && AccountFacts(d, c, db, now, p) && c <= now
    ensures !p.answer.value.Failed? && WellDone(d, c, db, now, p, Replied(Tokens(p.at.access, p.at.newToken)))
  {
    hide SessionOpened, Entitled, RightAnswer, RightCode, HasAccount;
    var access, token := p.at.access, p.at.newToken;
    var e :| Entitled(d, c, now, p.req, e, access.sub) && SessionOpened(e, c, db, now, access.sub, DeviceOf(p.req), access, token);
    if Verifies(p.req) {
      PhoneEntitled(d, c, db, now, p.req, e, access, token);
    } else if HasAccount(d, p.req.provider, p.req.providerId, access.sub) {
      OAuthEntitled(d, c, db, now, p.req, e, access, token);
    } else {
      assert p.req.OAuthSignup? by { EntitledSignIn(d, c, now, p.req, e, access.sub); }
      OAuthMade(d, c, db, now, p.req, e, access, token);
    }
  }

  lemma EntitledSignIn(d: Db, c: int, now: int, req: Request, e: Db, id: Id)
    requires SignsIn(req) && Entitled(d, c, now, req, e, id)
    ensures req.OAuthSignIn? ==> HasAccount(d, req.provider, req.providerId, id)
  {
  }

  lemma AccountResume(d: Db, c: int, db: Db, now: int, p: Proc, f: Fresh)
    requires Sane(d) && Shaped(p) && SignsIn(p.req) && !OtpPoint(p.at) && p.answer.Some? && AccountFacts(d, c, db, now, p)
    requires c <= now && New(d, f) && !p.at.Replied?
    ensures WellDone(d, c, db, now, p, Continue(p.req, p.at, p.answer.value, now, f))
  {
    hide WellDone, New, Sane;
    match p.at
    case FindAccount => FindAccountNew(d, c, db, now, p, f);
    case FindProfile(_, _) => FindProfileResume(d, c, db, now, p, f);
    case FindConflict => FindConflictNew(d, c, db, now, p, f);
    case SaveEmail(_) => SaveEmailResume(d, c, db, now, p, f);
    case InsertAccount(_) => InsertAccountResume(d, c, db, now, p, f);
    case InsertProfile(_) => InsertProfileResume(d, c, db, now, p, f);
    case SaveTokens(_, _, _, _) => SaveTokensResume(d, c, db, now, p);
    case _ =>
  }

  lemma FindAccountNew(d: Db, c: int, db: Db, now: int, p: Proc, f: Fresh)
    requires Sane(d) && Shaped(p) && p.at.FindAccount? && p.answer.Some? && AccountFacts(d, c, db, now, p) && c <= now && New(d, f)
    ensures !p.answer.value.Failed? && WellDone(d, c, db, now, p, AfterAccountRead(p.req, p.answer.value.auth, f))
  {
    hide AccountFacts, WellDone;
    FindAccountResume(d, c, db, now, p, f);
  }

  lemma FindConflictNew(d: Db, c: int, db: Db, now: int, p: Proc, f: Fresh)
    requires Sane(d) && Shaped(p) && p.at.FindConflict? && p.answer.Some? && AccountFacts(d, c, db, now, p) && c <= now && New(d, f)
    ensures !p.answer.value.Failed? && WellDone(d, c, db, now, p, AfterConflictRead(p.req, p.answer.value.auth, f))
  {
    hide AccountFacts, WellDone;
    FindConflictResume(d, c, db, now, p, f);
  }

  // ---- runs ----

  /** Steps of one request, and time passing. */
  predicate By(a: Action, pid: Pid) {
    a.Tick? || ((a.Exec? || a.Resume?) && a.pid == pid)
  }

  /** Nothing but this request's steps, no statement of it failing, and no generated session id already taken. */
  ghost predicate Alone(acts: seq<Action>, pid: Pid, d: Db) {
    forall i :: 0 <= i < |acts| ==>
      By(acts[i], pid) && (acts[i].Exec? ==> !acts[i].fault) && (acts[i].Resume? ==> acts[i].f.row !in d.tokens)
  }

  /** Everything the database held at the start has been generated. */
  ghost predicate Known(d: Db, s: State) {
    (forall id :: id in d.auth ==> id in s.accounts) && (forall t :: t in d.tokens ==> d.tokens[t].token in s.generated)
  }

  ghost predicate OnCourse(d: Db, c: int, s: State, pid: Pid, req: Request) {
    && Sane(d) && Known(d, s) && c <= s.clock && pid in s.procs && s.procs[pid].req == req
    && Facts(d, c, s.db, s.clock, s.procs[pid])
  }

  lemma OtpLater(d: Db, c: int, db: Db, now: int, later: int, p: Proc)
    requires Fits(p.req, p.at) && OtpPoint(p.at) && OtpFacts(d, c, db, now, p) && now <= later
    ensures OtpFacts(d, c, db, later, p)
  {
  }

  lemma EntitledLater(d: Db, c: int, now: int, later: int, req: Request, e: Db, id: Id)
    requires SignsIn(req) && Entitled(d, c, now, req, e, id) && now <= later
    ensures Entitled(d, c, later, req, e, id)
  {
  }

  lemma OpenedLater(db: Db, c: int, db': Db, now: int, later: int, id: Id, device: Option<DeviceInfo>, access: Access, refresh: string)
    requires SessionOpened(db, c, db', now, id, device, access, refresh) && now <= later
    ensures SessionOpened(db, c, db', later, id, device, access, refresh)
  {
    var row :| row !in db.tokens && row in db'.tokens && db' == db.(tokens := db.tokens[row := db'.tokens[row]])
      && db'.tokens[row].authId == id && db'.tokens[row].token == refresh && db'.tokens[row].deviceInfo == device
      && db'.tokens[row].revokedAt == None && c <= db'.tokens[row].createdAt == db'.tokens[row].lastUsedAt <= now
      && c + 30 * DAY <= db'.tokens[row].expiresAt <= now + 30 * DAY;
  }

  lemma AccountLater(d: Db, c: int, db: Db, now: int, later: int, p: Proc)
    requires Fits(p.req, p.at) && SignsIn(p.req) && !OtpPoint(p.at) && !p.at.Replied?
    requires AccountFacts(d, c, db, now, p) && now <= later
    ensures AccountFacts(d, c, db, later, p)
  {
    hide SessionOpened, Entitled, RightCode, HasAccount, NoAccount, MailFree, MailConflict, Reads;
    if p.at.SaveTokens? {
      if p.answer.None? {
        EntitledLater(d, c, now, later, p.req, db, p.at.access.sub);
      } else {
        var e :| Entitled(d, c, now, p.req, e, p.at.access.sub)
          && SessionOpened(e, c, db, now, p.at.access.sub, DeviceOf(p.req), p.at.access, p.at.newToken);
        EntitledLater(d, c, now, later, p.req, e, p.at.access.sub);
        OpenedLater(e, c, db, now, later, p.at.access.sub, DeviceOf(p.req), p.at.access, p.at.newToken);
      }
    }
  }

  lemma SessionLater(d: Db, c: int, db: Db, now: int, later: int, p: Proc)
    requires Fits(p.req, p.at) && SessionPoint(p.at) && SessionFacts(d, c, db, now, p) && now <= later
    ensures SessionFacts(d, c, db, later, p)
  {
    hide Reads;
  }

  lemma OtherAnswersLater(d: Db, c: int, db: Db, now: int, later: int, req: Request, reply: Reply)
    requires RightAnswer(d, c, db, now, req, reply) && now <= later && !SignsIn(req)
    ensures RightAnswer(d, c, db, later, req, reply)
  {
    hide HasAccount;
    if req.RequestOtp? {
      assert CodeStored(d, c, db, now, req.phone) ==> CodeStored(d, c, db, later, req.phone);
    }
  }

  lemma PhoneAnswersLater(d: Db, c: int, db: Db, now: int, later: int, req: Request, reply: Reply)
    requires RightAnswer(d, c, db, now, req, reply) && now <= later && Verifies(req)
    ensures RightAnswer(d, c, db, later, req, reply)
  {
    hide SessionOpened, HasAccount, NoAccount, RightCode;
    OpenedLaterAll(c, now, later);
  }

  lemma OpenedLaterAll(c: int, now: int, later: int)
    requires now <= later
    ensures forall db: Db, db': Db, id: Id, device: Option<DeviceInfo>, access: Access, refresh: string ::
      SessionOpened(db, c, db', now, id, device, access, refresh) ==> SessionOpened(db, c, db', later, id, device, access, refresh)
  {
    forall db: Db, db': Db, id: Id, device: Option<DeviceInfo>, access: Access, refresh: string |
        SessionOpened(db, c, db', now, id, device, access, refresh)
      ensures SessionOpened(db, c, db', later, id, device, access, refresh)
    {
      OpenedLater(db, c, db', now, later, id, device, access, refresh);
    }
  }

  lemma KnownLater(d: Db, c: int, db: Db, now: int, later: int, id: Id, mail: string, device: Option<DeviceInfo>, reply: Reply)
    requires id in d.auth && OAuthKnownAnswer(d, c, db, now, id, mail, device, reply) && now <= later
    ensures OAuthKnownAnswer(d, c, db, later, id, mail, device, reply)
  {
    hide SessionOpened, MailFree;
    OpenedLaterAll(c, now, later);
  }

  lemma OAuthAnswersLater(d: Db, c: int, db: Db, now: int, later: int, req: Request, reply: Reply)
    requires RightAnswer(d, c, db, now, req, reply) && now <= later && (req.OAuthSignIn? || req.OAuthSignup?)
    ensures RightAnswer(d, c, db, later, req, reply)
  {
    hide SessionOpened, NoAccount, MailConflict, MailFree, OAuthKnownAnswer;
    OpenedLaterAll(c, now, later);
    if id :| HasAccount(d, req.provider, req.providerId, id) && OAuthKnownAnswer(d, c, db, now, id, req.mail, DeviceOf(req), reply) {
      KnownLater(d, c, db, now, later, id, req.mail, DeviceOf(req), reply);
    }
  }

  lemma FactsLater(d: Db, c: int, db: Db, now: int, later: int, p: Proc)
    requires Facts(d, c, db, now, p) && now <= later
    ensures Facts(d, c, db, later, p)
  {
    hide RightAnswer, OtpFacts, AccountFacts, SessionFacts;
    if p.at.Replied? {
      if Verifies(p.req) {
        PhoneAnswersLater(d, c, db, now, later, p.req, p.at.reply);
      } else if SignsIn(p.req) {
        OAuthAnswersLater(d, c, db, now, later, p.req, p.at.reply);
      } else {
        OtherAnswersLater(d, c, db, now, later, p.req, p.at.reply);
      }
    } else if OtpPoint(p.at) {
      OtpLater(d, c, db, now, later, p);
    } else if SessionPoint(p.at) {
      SessionLater(d, c, db, now, later, p);
    } else {
      AccountLater(d, c, db, now, later, p);
    }
  }

  lemma FactsExec(d: Db, c: int, db: Db, now: int, p: Proc)
    requires Sane(d) && c <= now && Facts(d, c, db, now, p) && InFlight(p)
    ensures var st := StmtOf(p); Facts(d, c, Left(db, st, now), now, p.(answer := Some(Got(db, st))))
  {
    hide OtpFacts, AccountFacts, SessionFacts, Sane, DbAfter, Accepts, Reads;
    StillShaped(db, p);
    if OtpPoint(p.at) {
      OtpExec(d, c, db, now, p);
    } else if SessionPoint(p.at) {
      SessionExec(d, c, db, now, p);
    } else {
      AccountExec(d, c, db, now, p);
    }
  }

  lemma StillShaped(db: Db, p: Proc)
    requires Shaped(p) && InFlight(p)
    ensures Shaped(p.(answer := Some(Got(db, StmtOf(p)))))
  {
    hide Accepts;
  }

  lemma FactsResume(d: Db, c: int, db: Db, now: int, p: Proc, f: Fresh)
    requires Sane(d) && c <= now && Facts(d, c, db, now, p) && p.answer.Some? && New(d, f)
    ensures Facts(d, c, db, now, Proc(p.req, Continue(p.req, p.at, p.answer.value, now, f), None))
  {
    hide OtpFacts, AccountFacts, SessionFacts, Sane, ContinueOtp, ContinueSession, ContinueAccount, RightAnswer;
    if OtpPoint(p.at) {
      OtpResume(d, c, db, now, p, f);
    } else if SessionPoint(p.at) {
      SessionResume(d, c, db, now, p, f);
    } else {
      AccountResume(d, c, db, now, p, f);
    }
  }

  lemma OnCourseStep(d: Db, c: int, s: State, a: Action, pid: Pid, req: Request)
    requires OnCourse(d, c, s, pid, req) && Enabled(s, a) && Alone([a], pid, d)
    ensures OnCourse(d, c, Apply(s, a), pid, req)
  {
    hide Facts, Sane, DbAfter, Accepts, Reads, Recorded, Continue, Concluded, Shaped;
    assert By([a][0], pid);
    match a
    case Tick(now) => FactsLater(d, c, s.db, s.clock, now, s.procs[pid]);
    case Exec(_, fault) => FactsExec(d, c, s.db, s.clock, s.procs[pid]);
    case Resume(_, f) =>
      SaneUsers(d);
      FactsResume(d, c, s.db, s.clock, s.procs[pid], f);
    case Begin(_, _) =>
  }

  lemma SaneUsers(d: Db)
    requires Sane(d)
    ensures d.users.Keys <= d.auth.Keys
  {
  }

  lemma {:induction false} OnCourseRun(d: Db, c: int, s: State, acts: seq<Action>, t: State, pid: Pid, req: Request)
    requires OnCourse(d, c, s, pid, req) && Runs(s, acts, t) && Alone(acts, pid, d)
    ensures OnCourse(d, c, t, pid, req)
    decreases |acts|
  {
    hide OnCourse, Enabled, Apply;
    if acts != [] {
      assert Alone([acts[0]], pid, d) && Alone(acts[1..], pid, d);
      OnCourseStep(d, c, s, acts[0], pid, req);
      OnCourseRun(d, c, Apply(s, acts[0]), acts[1..], t, pid, req);
    }
  }

  lemma StartOnCourse(s: State, pid: Pid, req: Request)
    requires Revocation.Good(s) && Enabled(s, Begin(pid, req))
    ensures OnCourse(s.db, s.clock, Apply(s, Begin(pid, req)), pid, req)
  {
    hide Accounts.ProcsOk, Accounts.OrphansOwed, Sessions.ReadersOk, Sessions.SwapsGone, Sessions.SwapsOnce, Sessions.RateKept, Constraints;
    assert forall t :: t in s.db.tokens ==> Sessions.Landed(s, s.db.tokens[t].token);
  }

  /**
   From any reachable state: a request served alone to its end, no statement of it failing, gets the right answer, and
   the database is left as that answer says.
   */
  lemma ServedAloneAnswersRightly(s: State, pid: Pid, req: Request, acts: seq<Action>, t: State)
    requires Reachable(s) && Enabled(s, Begin(pid, req)) && Runs(Apply(s, Begin(pid, req)), acts, t) && Alone(acts, pid, s.db)
    ensures pid in t.procs && t.procs[pid].req == req && !t.procs[pid].at.Cleanup?
    ensures t.procs[pid].at.Replied? ==> RightAnswer(s.db, s.clock, t.db, t.clock, req, t.procs[pid].at.reply)
  {
    hide Reachable, Runs, OnCourse, Revocation.Good;
    Sessions.ReachableInv(s);
    assert Revocation.Good(s) by { GoodMeans(s); }
    StartOnCourse(s, pid, req);
    OnCourseRun(s.db, s.clock, Apply(s, Begin(pid, req)), acts, t, pid, req);
    CourseEnds(s.db, s.clock, t, pid, req);
  }

  lemma GoodMeans(s: State)
    requires Accounts.Inv(s) && Sessions.Inv(s)
    ensures Revocation.Good(s)
  {
  }

  lemma CourseEnds(d: Db, c: int, t: State, pid: Pid, req: Request)
    requires OnCourse(d, c, t, pid, req)
    ensures pid in t.procs && t.procs[pid].req == req && !t.procs[pid].at.Cleanup?
    ensures t.procs[pid].at.Replied? ==> RightAnswer(d, c, t.db, t.clock, req, t.procs[pid].at.reply)
  {
    hide RightAnswer, Sane;
  }

  // ---- statements that fail ----

  /**
   What a failed statement leads to: a code that could not be stored is a database error, a profile that could not be
   inserted has its account deleted before the throw, a profile that could not be looked up for a private request is an
   invalid token, and everything else is thrown.
   */
  lemma FailedStatementAnswers(s: State, pid: Pid, f: Fresh)
    requires Enabled(s, Resume(pid, f)) && s.procs[pid].answer == Some(Failed)
    ensures
      var p, next := s.procs[pid], Proceed(s, pid, f).procs[pid];
      match StmtOf(p)
      case UpsertOtp(_, _, _, _) => next.at == Replied(Error(DatabaseError))
      case InsertUser(id, _) => InFlight(next) && Shaped(next) && StmtOf(next) == DeleteAuth(id)
      case SelectUser(_) => next.at == Replied(Error(if p.req.Private? then InvalidToken else Thrown))
      case _ => next.at == Replied(Error(Thrown))
  {
    hide ContinueOtp, ContinueSession, ContinueAccount, Concluded;
  }
}
