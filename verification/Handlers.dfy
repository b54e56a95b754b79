/**
 The handlers of apps/api/src/modules/auth/handlers.ts and the requireAuth middleware, each as a small program
 that sends one SQL statement at a time. A `Proc` is one request being served: the point it has reached, the
 locals it still needs, and the answer of the statement it waits for, once there is one. Between two statements
 the worker runs one synchronous block, which reads the clock once: on a Worker the clock stands still between I/O.
 */
module Handlers {
  import opened Schema
  import opened Config

  datatype Purpose = Login | Signup

  datatype Access = Access(sub: Id, iat: int, exp: int)

  datatype Request =
    | RequestOtp(phone: string, purpose: Purpose)
    | PhoneSignup(phone: string, code: string, profile: Profile, device: Option<DeviceInfo>)
    | PhoneSignIn(phone: string, code: string, device: Option<DeviceInfo>)
    | OAuthSignIn(provider: Provider, providerId: string, mail: string, device: Option<DeviceInfo>)
    | OAuthSignup(provider: Provider, providerId: string, mail: string, profile: Profile, device: Option<DeviceInfo>)
    | Refresh(token: string)
    | Logout(token: string)
    | Private(access: Access)

  predicate WellFormed(req: Request) {
    (req.OAuthSignIn? || req.OAuthSignup?) ==> !req.provider.Phone?
  }

  datatype Verdict = NotFound | Expired | MaxAttempts | Invalid | Success

  datatype ErrorCode =
    | OtpRateLimited | UserExists | DatabaseError
    | Unauthorized | ExpiredOtp | OtpMaxAttempts | OtpInvalid
    | ProfileIncomplete | UserNotFound | EmailConflict
    | InvalidRefreshToken | RateLimited
    | ProfileRequired | InvalidToken | ExpiredToken
    | Thrown

  datatype Reply =
    | OtpSent(userExists: bool)
    | Tokens(access: Access, refresh: string)
    | NeedsSignup
    | LoggedOut
    | Allowed(user: Id)
    | Error(code: ErrorCode)

  /** Where a handler stands: the statement it has sent last, with the locals that outlive it. */
  datatype Point =
    // requestOTP
    | CooldownCheck
    | PurposeAuth
    | PurposeUser(id: Id)
    | StoreOtp(known: bool, otp: string, at: Time)
    // verifyOTPCode
    | VerifyFind
    | VerifyBump(attempts: nat, at: Time)
    | VerifyDrop(verdict: Verdict, at: Time)
    // sign-in and signup
    | FindAccount
    | FindProfile(id: Id, email: Option<string>)
    | FindConflict
    | SaveEmail(id: Id)
    | InsertAccount(id: Id)
    | InsertProfile(id: Id)
    | SaveTokens(row: Id, access: Access, newToken: string, at: Time)
    // refreshTokens
    | RefreshFind
    | RefreshOwner(row: Id, found: TokenRow)
    | RefreshRotate(row: Id, found: TokenRow, newToken: string, at: Time)
    // logout
    | LogoutFind
    | LogoutRevoke(at: Time)
    // requireAuth
    | CheckProfile
    // the DELETE handed to waitUntil after a failed profile insert; the answer, Thrown, may be on its way already
    | Cleanup(id: Id)
    | Replied(reply: Reply)

  datatype Proc = Proc(req: Request, at: Point, answer: Option<Answer>)

  predicate HasPhone(req: Request) {
    req.RequestOtp? || req.PhoneSignup? || req.PhoneSignIn?
  }

  predicate Verifies(req: Request) {
    req.PhoneSignup? || req.PhoneSignIn?
  }

  predicate IsSignup(req: Request) {
    req.PhoneSignup? || req.OAuthSignup?
  }

  predicate SignsIn(req: Request) {
    req.PhoneSignup? || req.PhoneSignIn? || req.OAuthSignIn? || req.OAuthSignup?
  }

  function IdentityProvider(req: Request): Provider
    requires SignsIn(req)
  {
    if req.OAuthSignIn? || req.OAuthSignup? then req.provider else Phone
  }

  function IdentityName(req: Request): string
    requires SignsIn(req)
  {
    if req.OAuthSignIn? || req.OAuthSignup? then req.providerId else req.phone
  }

  /** The points each kind of request can stand at. */
  predicate Fits(req: Request, at: Point) {
    match at
    case CooldownCheck => req.RequestOtp?
    case PurposeAuth => req.RequestOtp?
    case PurposeUser(_) => req.RequestOtp?
    case StoreOtp(_, _, _) => req.RequestOtp?
    case VerifyFind => Verifies(req)
    case VerifyBump(_, _) => Verifies(req)
    case VerifyDrop(v, _) => Verifies(req) && (v.Expired? || v.MaxAttempts? || v.Success?)
    case FindAccount => SignsIn(req)
    case FindProfile(_, _) => SignsIn(req)
    case FindConflict => req.OAuthSignIn? || req.OAuthSignup?
    case SaveEmail(_) => req.OAuthSignIn? || req.OAuthSignup?
    case InsertAccount(_) => IsSignup(req)
    case InsertProfile(_) => IsSignup(req)
    case SaveTokens(_, _, _, _) => SignsIn(req)
    case RefreshFind => req.Refresh?
    case RefreshOwner(_, _) => req.Refresh?
    case RefreshRotate(_, _, _, _) => req.Refresh?
    case LogoutFind => req.Logout?
    case LogoutRevoke(_) => req.Logout?
    case CheckProfile => req.Private?
    case Cleanup(_) => IsSignup(req)
    case Replied(_) => true
  }

  function DeviceOf(req: Request): Option<DeviceInfo>
    requires SignsIn(req)
  {
    req.device
  }

  /** The statement a handler has sent at a point. */
  function StmtAt(req: Request, at: Point): Stmt
    requires Fits(req, at) && !at.Replied?
  {
    match at
    case CooldownCheck => SelectOtp(req.phone)
    case PurposeAuth => SelectAuth(Phone, req.phone)
    case PurposeUser(id) => SelectUser(id)
    case StoreOtp(_, otp, t) => UpsertOtp(req.phone, otp, t + OTP_EXPIRY_MS, t)
    case VerifyFind => SelectOtp(req.phone)
    case VerifyBump(n, _) => SetAttempts(req.phone, n)
    case VerifyDrop(_, _) => DeleteOtp(req.phone)
    case FindAccount => SelectAuth(IdentityProvider(req), IdentityName(req))
    case FindProfile(id, _) => SelectUser(id)
    case FindConflict => SelectAuthByEmail(req.mail)
    case SaveEmail(id) => SetEmail(id, req.mail)
    case InsertAccount(id) =>
      InsertAuth(id, AuthRow(IdentityProvider(req), IdentityName(req),
                             if req.OAuthSignup? then Some(req.mail) else None))
    case InsertProfile(id) => InsertUser(id, req.profile)
    case SaveTokens(row, access, newToken, t) =>
      InsertToken(row, access.sub, newToken, t + REFRESH_TOKEN_EXPIRY_MS, DeviceOf(req))
    case RefreshFind => SelectToken(req.token)
    case RefreshOwner(_, found) => SelectAuthById(found.authId)
    case RefreshRotate(_, _, newToken, t) => RotateToken(req.token, newToken, t + REFRESH_TOKEN_EXPIRY_MS, t)
    case LogoutFind => SelectToken(req.token)
    case LogoutRevoke(t) => RevokeToken(req.token, t)
    case CheckProfile => SelectUser(req.access.sub)
    case Cleanup(id) => DeleteAuth(id)
  }

  /** The shape of the answer each statement may get. */
  predicate Answers(st: Stmt, a: Answer) {
    || a.Failed?
    || match st
       case SelectOtp(_) => a.OtpAnswer?
       case SelectAuth(_, _) => a.AuthAnswer?
       case SelectAuthById(_) => a.AuthAnswer?
       case SelectAuthByEmail(_) => a.AuthAnswer?
       case SelectUser(_) => a.UserAnswer?
       case SelectToken(_) => a.TokenAnswer?
       case _ => a.Acknowledged?
  }

  predicate Shaped(p: Proc) {
    && WellFormed(p.req)
    && Fits(p.req, p.at)
    && (p.answer.Some? ==> !p.at.Replied? && Answers(StmtAt(p.req, p.at), p.answer.value))
  }

  function Start(req: Request): (p: Proc)
    requires WellFormed(req)
    ensures Shaped(p) && !p.at.Replied? && p.req == req
  {
    var at := match req
      case RequestOtp(_, _) => CooldownCheck
      case PhoneSignup(_, _, _, _) => VerifyFind
      case PhoneSignIn(_, _, _) => VerifyFind
      case OAuthSignIn(_, _, _, _) => FindAccount
      case OAuthSignup(_, _, _, _, _) => FindAccount
      case Refresh(_) => RefreshFind
      case Logout(_) => LogoutFind
      case Private(_) => CheckProfile;
    Proc(req, at, None)
  }

  /** Generated values a synchronous block may use: a cuid for `auth`, one for `tokens`, a refresh token, a code. */
  datatype Fresh = Fresh(id: Id, row: Id, token: string, otp: string)

  function Mint(sub: Id, now: Time): Access {
    Access(sub, now / 1000, now / 1000 + ACCESS_TOKEN_EXPIRY_S)
  }

  function Fail(code: ErrorCode): Point { Replied(Error(code)) }

  function Decide(req: Request, known: bool, now: Time, f: Fresh): Point
    requires req.RequestOtp?
  {
    if req.purpose.Login? && !known then Replied(OtpSent(false))
    else if req.purpose.Signup? && known then Fail(UserExists)
    else StoreOtp(known, f.otp, now)
  }

  function Issue(id: Id, now: Time, f: Fresh): Point {
    SaveTokens(f.row, Mint(id, now), f.token, now)
  }

  function AfterOtpRead(req: Request, o: Option<OtpRow>, now: Time): Point
    requires Verifies(req)
  {
    if o.None? then Fail(Unauthorized)
    else if o.value.expiresAt < now then VerifyDrop(Expired, now)
    else if o.value.attempts >= OTP_MAX_ATTEMPTS then VerifyDrop(MaxAttempts, now)
    else if o.value.code != req.code then VerifyBump(o.value.attempts + 1, now)
    else VerifyDrop(Success, now)
  }

  function AfterAccountRead(req: Request, a: Option<(Id, AuthRow)>, f: Fresh): Point
    requires SignsIn(req)
  {
    match a
    case Some((id, row)) => FindProfile(id, row.email)
    case None =>
      if req.PhoneSignup? then InsertAccount(f.id)
      else if req.PhoneSignIn? then Fail(UserNotFound)
      else FindConflict
  }

  /** `!existingAuth.email` holds of a missing and of an empty address. */
  predicate NoEmail(email: Option<string>) {
    email == None || email == Some("")
  }

  function AfterProfileRead(req: Request, id: Id, email: Option<string>, u: Option<UserRow>, now: Time, f: Fresh): Point
    requires SignsIn(req)
  {
    if u.None? then Fail(ProfileIncomplete)
    else if req.PhoneSignup? then Fail(UserExists)
    else if !req.PhoneSignIn? && NoEmail(email) then SaveEmail(id)
    else Issue(id, now, f)
  }

  function AfterConflictRead(req: Request, a: Option<(Id, AuthRow)>, f: Fresh): Point
    requires req.OAuthSignIn? || req.OAuthSignup?
  {
    if a.Some? && a.value.1.provider != req.provider then Fail(EmailConflict)
    else if req.OAuthSignup? then InsertAccount(f.id)
    else Replied(NeedsSignup)
  }

  function AfterTokenRead(t: Option<(Id, TokenRow)>, now: Time): Point {
    if t.None? || t.value.1.revokedAt.Some? || t.value.1.expiresAt < now then Fail(InvalidRefreshToken)
    else RefreshOwner(t.value.0, t.value.1)
  }

  predicate RecentlyRefreshed(lastUsedAt: Time, now: Time) {
    now - lastUsedAt < REFRESH_COOLDOWN_MS
  }

  function AfterOwnerRead(row: Id, found: TokenRow, a: Option<(Id, AuthRow)>, now: Time, f: Fresh): Point {
    if a.None? then Fail(Unauthorized)
    else if RecentlyRefreshed(found.lastUsedAt, now) then Fail(RateLimited)
    else RefreshRotate(row, found, f.token, now)
  }

  /** What a handler does when the statement it waits for has failed: throw, except in the four guarded places. */
  function OnFailure(at: Point): Point {
    match at
    case StoreOtp(_, _, _) => Fail(DatabaseError)
    case InsertProfile(id) => Cleanup(id)
    case CheckProfile => Fail(InvalidToken)
    case _ => Fail(Thrown)
  }

  function VerdictReply(v: Verdict): Point
    requires !v.Success?
  {
    match v
    case NotFound => Fail(Unauthorized)
    case Expired => Fail(ExpiredOtp)
    case MaxAttempts => Fail(OtpMaxAttempts)
    case Invalid => Fail(OtpInvalid)
  }

  predicate OtpPoint(at: Point) {
    at.CooldownCheck? || at.PurposeAuth? || at.PurposeUser? || at.StoreOtp? || at.VerifyFind? || at.VerifyBump? || at.VerifyDrop?
  }

  predicate SessionPoint(at: Point) {
    at.RefreshFind? || at.RefreshOwner? || at.RefreshRotate? || at.LogoutFind? || at.LogoutRevoke? || at.CheckProfile?
  }

  predicate Resumable(req: Request, at: Point, a: Answer) {
    Fits(req, at) && !at.Replied? && Answers(StmtAt(req, at), a)
  }

  /** Ids and refresh tokens enter a handler only as freshly generated values. */
  predicate UsesFresh(next: Point, f: Fresh) {
    && (next.InsertAccount? ==> next.id == f.id)
    && (next.SaveTokens? ==> next.row == f.row && next.newToken == f.token)
    && (next.RefreshRotate? ==> next.newToken == f.token)
  }

  function ContinueOtp(req: Request, at: Point, a: Answer, now: Time, f: Fresh): (next: Point)
    requires OtpPoint(at) && Resumable(req, at, a) && !a.Failed?
    ensures Fits(req, next) && UsesFresh(next, f)
  {
    match at
    case CooldownCheck =>
      if a.otp.Some? && a.otp.value.createdAt > now - OTP_COOLDOWN_MS then Fail(OtpRateLimited) else PurposeAuth
    case PurposeAuth => if a.auth.Some? then PurposeUser(a.auth.value.0) else Decide(req, false, now, f)
    case PurposeUser(_) => Decide(req, a.user.Some?, now, f)
    case StoreOtp(known, _, _) => Replied(OtpSent(known))
    case VerifyFind => AfterOtpRead(req, a.otp, now)
    case VerifyBump(n, t) => if n >= OTP_MAX_ATTEMPTS then VerifyDrop(MaxAttempts, t) else VerdictReply(Invalid)
    case VerifyDrop(v, _) => if v.Success? then FindAccount else VerdictReply(v)
  }

  function ContinueSession(req: Request, at: Point, a: Answer, now: Time, f: Fresh): (next: Point)
    requires SessionPoint(at) && Resumable(req, at, a) && !a.Failed?
    ensures Fits(req, next) && UsesFresh(next, f)
  {
    match at
    case RefreshFind => AfterTokenRead(a.token, now)
    case RefreshOwner(row, found) => AfterOwnerRead(row, found, a.auth, now, f)
    case RefreshRotate(_, found, newToken, _) => Replied(Tokens(Mint(found.authId, now), newToken))
    case LogoutFind =>
      if a.token.Some? && a.token.value.1.revokedAt.None? then LogoutRevoke(now) else Fail(Unauthorized)
    case LogoutRevoke(_) => Replied(LoggedOut)
    case CheckProfile => if a.user.Some? then Replied(Allowed(req.access.sub)) else Fail(ProfileRequired)
  }

  function ContinueAccount(req: Request, at: Point, a: Answer, now: Time, f: Fresh): (next: Point)
    requires !OtpPoint(at) && !SessionPoint(at) && Resumable(req, at, a) && !a.Failed?
    ensures Fits(req, next) && UsesFresh(next, f)
  {
    match at
    case FindAccount => AfterAccountRead(req, a.auth, f)
    case FindProfile(id, email) => AfterProfileRead(req, id, email, a.user, now, f)
    case FindConflict => AfterConflictRead(req, a.auth, f)
    case SaveEmail(id) => Issue(id, now, f)
    case InsertAccount(id) => InsertProfile(id)
    case InsertProfile(id) => Issue(id, now, f)
    case SaveTokens(_, access, newToken, _) => Replied(Tokens(access, newToken))
    case Cleanup(_) => Fail(Thrown)
  }

  /** The synchronous block that runs when an answer arrives: the next statement, or the reply. */
  function Continue(req: Request, at: Point, a: Answer, now: Time, f: Fresh): (next: Point)
    requires Resumable(req, at, a)
    ensures Fits(req, next) && UsesFresh(next, f)
  {
    if a.Failed? then OnFailure(at)
    else if OtpPoint(at) then ContinueOtp(req, at, a, now, f)
    else if SessionPoint(at) then ContinueSession(req, at, a, now, f)
    else ContinueAccount(req, at, a, now, f)
  }
}
