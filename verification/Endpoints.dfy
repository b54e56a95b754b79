/**
 What each endpoint answers and what it leaves in the database, when it is served alone and no statement fails: stated
 over the tables it found, in the words of the API and with literal durations, without reference to the handlers.
 `c` is the time the request arrived, `c'` the time it was answered.
 */
module Endpoints {
  import opened Schema
  import opened Handlers

  const MINUTE := 60 * 1000
  const DAY := 24 * 60 * MINUTE

  ghost predicate HasAccount(db: Db, provider: Provider, identifier: string, id: Id) {
    id in db.auth && db.auth[id].provider == provider && db.auth[id].identifier == identifier
  }

  ghost predicate NoAccount(db: Db, provider: Provider, identifier: string) {
    forall id :: !HasAccount(db, provider, identifier, id)
  }

  /** Some account with a profile belongs to the phone. */
  ghost predicate KnownPhone(db: Db, phone: string) {
    exists id :: HasAccount(db, Phone, phone, id) && id in db.users
  }

  ghost predicate MailHeldBy(db: Db, mail: string, id: Id) {
    id in db.auth && db.auth[id].email == Some(mail)
  }

  /** The address belongs to an account of another provider. */
  ghost predicate MailConflict(db: Db, provider: Provider, mail: string) {
    exists id :: MailHeldBy(db, mail, id) && db.auth[id].provider != provider
  }

  ghost predicate MailFree(db: Db, mail: string) {
    forall id :: !MailHeldBy(db, mail, id)
  }

  function Without(db: Db, phone: string): Db {
    db.(otps := db.otps - {phone})
  }

  // ---- one-time codes ----

  /** A code was stored for the phone at some time on the way, to live five minutes with no attempt counted. */
  ghost predicate CodeStored(db: Db, c: int, db': Db, c': int, phone: string) {
    && phone in db'.otps
    && db' == db.(otps := db.otps[phone := db'.otps[phone]])
    && db'.otps[phone].attempts == 0
    && c <= db'.otps[phone].createdAt <= c'
    && db'.otps[phone].expiresAt == db'.otps[phone].createdAt + 5 * MINUTE
  }

  ghost predicate RequestOtpAnswer(db: Db, c: int, db': Db, c': int, phone: string, purpose: Purpose, reply: Reply) {
    if reply == Error(OtpRateLimited) then
      db' == db && phone in db.otps && db.otps[phone].createdAt > c - 1 * MINUTE
    else
      && (phone in db.otps ==> db.otps[phone].createdAt <= c' - 1 * MINUTE)
      && if purpose == Login && !KnownPhone(db, phone) then reply == OtpSent(false) && db' == db
         else if purpose == Signup && KnownPhone(db, phone) then reply == Error(UserExists) && db' == db
         else reply == OtpSent(KnownPhone(db, phone)) && CodeStored(db, c, db', c', phone)
  }

  /** The code typed is the stored one, which has not expired and has attempts left. */
  ghost predicate RightCode(db: Db, c: int, phone: string, code: string) {
    phone in db.otps && db.otps[phone].expiresAt >= c && db.otps[phone].attempts < 3 && db.otps[phone].code == code
  }

  ghost predicate CodeRefused(db: Db, c: int, db': Db, c': int, phone: string, code: string, error: ErrorCode) {
    if error == Unauthorized then phone !in db.otps && db' == db
    else
      && phone in db.otps
      && var row := db.otps[phone];
      if error == ExpiredOtp then row.expiresAt < c' && db' == Without(db, phone)
      else if error == OtpMaxAttempts then
        row.expiresAt >= c && (row.attempts >= 3 || (row.code != code && row.attempts == 2)) && db' == Without(db, phone)
      else
        && error == OtpInvalid && row.expiresAt >= c && row.code != code && row.attempts < 2
        && db' == db.(otps := db.otps[phone := row.(attempts := row.attempts + 1)])
  }

  // ---- sessions ----

  /** A session was inserted for the account, and its two tokens are the ones answered. */
  ghost predicate SessionOpened(db: Db, c: int, db': Db, c': int, id: Id, device: Option<DeviceInfo>, access: Access, refresh: string) {
    && access.sub == id && access.exp == access.iat + 30 * 60 && c / 1000 <= access.iat <= c' / 1000
    && (forall t :: t in db.tokens ==> db.tokens[t].token != refresh)
    && exists row ::
      && row !in db.tokens && row in db'.tokens && db' == db.(tokens := db.tokens[row := db'.tokens[row]])
      && var session := db'.tokens[row];
      && session.authId == id && session.token == refresh && session.deviceInfo == device && session.revokedAt == None
      && c <= session.createdAt == session.lastUsedAt <= c'
      && c + 30 * DAY <= session.expiresAt <= c' + 30 * DAY
  }

  /** An account and its profile were created. */
  ghost predicate AccountCreated(db: Db, c: int, db': Db, c': int, id: Id, row: AuthRow, profile: Profile) {
    && id !in db.auth && id !in db.users && id in db'.users
    && db' == db.(auth := db.auth[id := row], users := db.users[id := db'.users[id]])
    && db'.users[id].profile == profile && c <= db'.users[id].createdAt == db'.users[id].updatedAt <= c'
  }

  /** The account as the sign-in leaves it: an OAuth account without e-mail takes the one of the claims. */
  ghost function MailFilled(db: Db, id: Id, mail: string): Db {
    if id in db.auth && (db.auth[id].email == None || db.auth[id].email == Some("")) then
      db.(auth := db.auth[id := db.auth[id].(email := Some(mail))])
    else db
  }

  // ---- sign-in and signup ----

  ghost predicate PhoneSignInAnswer(db: Db, c: int, db': Db, c': int, phone: string, code: string, device: Option<DeviceInfo>, reply: Reply) {
    match reply
    case Error(error) =>
      || CodeRefused(db, c, db', c', phone, code, error)
      || (RightCode(db, c, phone, code) && db' == Without(db, phone) &&
            ((error == UserNotFound && NoAccount(db, Phone, phone))
             || (error == ProfileIncomplete && exists id :: HasAccount(db, Phone, phone, id) && id !in db.users)))
    case Tokens(access, refresh) =>
      RightCode(db, c, phone, code) && HasAccount(db, Phone, phone, access.sub) && access.sub in db.users
      && SessionOpened(Without(db, phone), c, db', c', access.sub, device, access, refresh)
    case _ => false
  }

  ghost predicate PhoneSignupAnswer(
    db: Db, c: int, db': Db, c': int, phone: string, code: string, profile: Profile, device: Option<DeviceInfo>, reply: Reply)
  {
    match reply
    case Error(error) =>
      || CodeRefused(db, c, db', c', phone, code, error)
      || (RightCode(db, c, phone, code) && db' == Without(db, phone) && exists id ::
            HasAccount(db, Phone, phone, id) && error == if id in db.users then UserExists else ProfileIncomplete)
    case Tokens(access, refresh) =>
      && RightCode(db, c, phone, code) && NoAccount(db, Phone, phone)
      && exists made ::
        AccountCreated(Without(db, phone), c, made, c', access.sub, AuthRow(Phone, phone, None), profile)
        && SessionOpened(made, c, db', c', access.sub, device, access, refresh)
    case _ => false
  }

  /** Both OAuth endpoints, for an identity that has an account. */
  ghost predicate OAuthKnownAnswer(db: Db, c: int, db': Db, c': int, id: Id, mail: string, device: Option<DeviceInfo>, reply: Reply)
    requires id in db.auth
  {
    var lacking := db.auth[id].email == None || db.auth[id].email == Some("");
    if id !in db.users then reply == Error(ProfileIncomplete) && db' == db
    else if lacking && !MailFree(db, mail) && !MailHeldBy(db, mail, id) then reply == Error(Thrown) && db' == db
    else reply.Tokens? && SessionOpened(MailFilled(db, id, mail), c, db', c', id, device, reply.access, reply.refresh)
  }

  ghost predicate OAuthSignInAnswer(
    db: Db, c: int, db': Db, c': int, provider: Provider, sub: string, mail: string, device: Option<DeviceInfo>, reply: Reply)
  {
    if NoAccount(db, provider, sub) then
      db' == db && reply == if MailConflict(db, provider, mail) then Error(EmailConflict) else NeedsSignup
    else exists id :: HasAccount(db, provider, sub, id) && OAuthKnownAnswer(db, c, db', c', id, mail, device, reply)
  }

  ghost predicate OAuthSignupAnswer(
    db: Db, c: int, db': Db, c': int, provider: Provider, sub: string, mail: string, profile: Profile, device: Option<DeviceInfo>,
    reply: Reply)
  {
    if NoAccount(db, provider, sub) then
      if MailConflict(db, provider, mail) then reply == Error(EmailConflict) && db' == db
      else if !MailFree(db, mail) then reply == Error(Thrown) && db' == db
      else
        reply.Tokens? && exists made ::
          AccountCreated(db, c, made, c', reply.access.sub, AuthRow(provider, sub, Some(mail)), profile)
          && SessionOpened(made, c, db', c', reply.access.sub, device, reply.access, reply.refresh)
    else exists id :: HasAccount(db, provider, sub, id) && OAuthKnownAnswer(db, c, db', c', id, mail, device, reply)
  }

  // ---- refresh, logout, private requests ----

  ghost predicate RefreshAnswer(db: Db, c: int, db': Db, c': int, token: string, reply: Reply) {
    match reply
    case Error(error) =>
      && db' == db
      && if error == InvalidRefreshToken then
           forall r :: r in db.tokens && db.tokens[r].token == token ==>
             db.tokens[r].revokedAt.Some? || db.tokens[r].expiresAt < c'
         else
           && error == RateLimited
           && exists r :: r in db.tokens && db.tokens[r].token == token && db.tokens[r].revokedAt == None
                          && db.tokens[r].expiresAt >= c && db.tokens[r].lastUsedAt > c - 5 * MINUTE
    case Tokens(access, refresh) =>
      exists r :: r in db.tokens && r in db'.tokens &&
        var before, after := db.tokens[r], db'.tokens[r];
        && before.token == token && before.revokedAt == None && before.expiresAt >= c && before.lastUsedAt <= c' - 5 * MINUTE
        && db' == db.(tokens := db.tokens[r := after])
        && after == before.(token := refresh, lastUsedAt := after.lastUsedAt, expiresAt := after.lastUsedAt + 30 * DAY)
        && c <= after.lastUsedAt <= c' && refresh != token
        && access.sub == before.authId && access.exp == access.iat + 30 * 60 && c / 1000 <= access.iat <= c' / 1000
    case _ => false
  }

  ghost predicate LogoutAnswer(db: Db, c: int, db': Db, c': int, token: string, reply: Reply) {
    if exists r :: r in db.tokens && db.tokens[r].token == token && db.tokens[r].revokedAt == None then
      && reply == LoggedOut
      && exists r, at :: r in db.tokens && db.tokens[r].token == token && db.tokens[r].revokedAt == None && c <= at <= c'
                         && db' == db.(tokens := db.tokens[r := db.tokens[r].(revokedAt := Some(at))])
    else reply == Error(Unauthorized) && db' == db
  }

  ghost predicate PrivateAnswer(db: Db, db': Db, access: Access, reply: Reply) {
    db' == db && reply == if access.sub in db.users then Allowed(access.sub) else Error(ProfileRequired)
  }

  /** The endpoint's answer, request by request. */
  ghost predicate RightAnswer(db: Db, c: int, db': Db, c': int, req: Request, reply: Reply) {
    match req
    case RequestOtp(phone, purpose) => RequestOtpAnswer(db, c, db', c', phone, purpose, reply)
    case PhoneSignup(phone, code, profile, device) => PhoneSignupAnswer(db, c, db', c', phone, code, profile, device, reply)
    case PhoneSignIn(phone, code, device) => PhoneSignInAnswer(db, c, db', c', phone, code, device, reply)
    case OAuthSignIn(provider, sub, mail, device) => OAuthSignInAnswer(db, c, db', c', provider, sub, mail, device, reply)
    case OAuthSignup(provider, sub, mail, profile, device) =>
      OAuthSignupAnswer(db, c, db', c', provider, sub, mail, profile, device, reply)
    case Refresh(token) => RefreshAnswer(db, c, db', c', token, reply)
    case Logout(token) => LogoutAnswer(db, c, db', c', token, reply)
    case Private(access) => PrivateAnswer(db, db', access, reply)
  }
}
