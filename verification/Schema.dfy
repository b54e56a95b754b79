/** The four tables, their constraints, and the SQL statements the handlers send. */
module Schema {
  datatype Option<+T> = None | Some(value: T)

  type Id = string
  type Time = int

  datatype Provider = Phone | Google | Apple
  datatype Gender = Male | Female
  datatype DeviceInfo = DeviceInfo(
    os: string, osVersion: string, model: string, brand: string, deviceYearClass: Option<int>,
    appVersion: string, buildNumber: string)
  datatype Profile = Profile(name: string, gender: Gender, birthYear: int)

  datatype AuthRow = AuthRow(provider: Provider, identifier: string, email: Option<string>)
  datatype UserRow = UserRow(profile: Profile, createdAt: Time, updatedAt: Time)
  datatype OtpRow = OtpRow(code: string, attempts: nat, expiresAt: Time, createdAt: Time)
  datatype TokenRow = TokenRow(
    authId: Id, token: string, deviceInfo: Option<DeviceInfo>,
    expiresAt: Time, revokedAt: Option<Time>, lastUsedAt: Time, createdAt: Time)

  datatype Db = Db(
    auth: map<Id, AuthRow>, users: map<Id, UserRow>,
    otps: map<string, OtpRow>, tokens: map<Id, TokenRow>)

  predicate SameIdentity(a: AuthRow, b: AuthRow) {
    a.provider == b.provider && a.identifier == b.identifier
  }

  ghost predicate UniqueIdentity(auth: map<Id, AuthRow>) {
    forall a, b :: a in auth && b in auth && SameIdentity(auth[a], auth[b]) ==> a == b
  }

  ghost predicate UniqueEmail(auth: map<Id, AuthRow>) {
    forall a, b :: a in auth && b in auth && auth[a].email.Some? && auth[a].email == auth[b].email ==> a == b
  }

  ghost predicate UniqueToken(tokens: map<Id, TokenRow>) {
    forall a, b :: a in tokens && b in tokens && tokens[a].token == tokens[b].token ==> a == b
  }

  ghost predicate Constraints(db: Db) {
    && UniqueIdentity(db.auth)
    && UniqueEmail(db.auth)
    && UniqueToken(db.tokens)
    && db.users.Keys <= db.auth.Keys
    && forall t :: t in db.tokens ==> db.tokens[t].authId in db.auth
  }

  /** Every statement the handlers send, with the values computed by the worker before sending. */
  datatype Stmt =
    | SelectOtp(phone: string)
    | UpsertOtp(phone: string, code: string, expiresAt: Time, createdAt: Time)
    | SetAttempts(phone: string, attempts: nat)
    | DeleteOtp(phone: string)
    | SelectAuth(provider: Provider, identifier: string)
    | SelectAuthById(id: Id)
    | SelectAuthByEmail(mail: string)
    | InsertAuth(id: Id, row: AuthRow)
    | SetEmail(id: Id, mail: string)
    | DeleteAuth(id: Id)
    | SelectUser(id: Id)
    | InsertUser(id: Id, profile: Profile)
    | SelectToken(token: string)
    | InsertToken(id: Id, authId: Id, token: string, expiresAt: Time, deviceInfo: Option<DeviceInfo>)
    | RotateToken(oldToken: string, newToken: string, expiresAt: Time, lastUsedAt: Time)
    | RevokeToken(token: string, revokedAt: Time)

  /** What a statement answers: a failure, an acknowledgement, or at most one row (LIMIT 1). */
  datatype Answer =
    | Failed
    | Acknowledged
    | OtpAnswer(otp: Option<OtpRow>)
    | AuthAnswer(auth: Option<(Id, AuthRow)>)
    | UserAnswer(user: Option<UserRow>)
    | TokenAnswer(token: Option<(Id, TokenRow)>)

  ghost function FindIdentity(auth: map<Id, AuthRow>, provider: Provider, identifier: string): (r: Option<Id>)
    ensures r.Some? ==> r.value in auth && auth[r.value].provider == provider && auth[r.value].identifier == identifier
    ensures r.None? ==> forall a :: a in auth ==> auth[a].provider != provider || auth[a].identifier != identifier
  {
    if a :| a in auth && auth[a].provider == provider && auth[a].identifier == identifier then Some(a) else None
  }

  ghost function FindEmail(auth: map<Id, AuthRow>, mail: string): (r: Option<Id>)
    ensures r.Some? ==> r.value in auth && auth[r.value].email == Some(mail)
    ensures r.None? ==> forall a :: a in auth ==> auth[a].email != Some(mail)
  {
    if a :| a in auth && auth[a].email == Some(mail) then Some(a) else None
  }

  ghost function FindToken(tokens: map<Id, TokenRow>, token: string): (r: Option<Id>)
    ensures r.Some? ==> r.value in tokens && tokens[r.value].token == token
    ensures r.None? ==> forall t :: t in tokens ==> tokens[t].token != token
  {
    if t :| t in tokens && tokens[t].token == token then Some(t) else None
  }

  /** Whether the table constraints let a statement through. SELECT, DELETE and upsert always pass. */
  predicate Accepts(db: Db, st: Stmt) {
    match st
    case InsertAuth(id, row) =>
      && id !in db.auth
      && (forall a :: a in db.auth ==> !SameIdentity(db.auth[a], row))
      && (row.email.Some? ==> forall a :: a in db.auth ==> db.auth[a].email != row.email)
    case SetEmail(id, mail) =>
      id in db.auth ==> forall a :: a in db.auth && a != id ==> db.auth[a].email != Some(mail)
    case InsertUser(id, _) => id in db.auth && id !in db.users
    case InsertToken(id, authId, token, _, _) =>
      && id !in db.tokens
      && authId in db.auth
      && forall t :: t in db.tokens ==> db.tokens[t].token != token
    case RotateToken(oldToken, newToken, _, _) =>
      (exists t :: t in db.tokens && db.tokens[t].token == oldToken) ==>
        forall t :: t in db.tokens && db.tokens[t].token != oldToken ==> db.tokens[t].token != newToken
    case _ => true
  }

  /** The effect of an accepted statement, table by table. */
  function AuthAfter(auth: map<Id, AuthRow>, st: Stmt): map<Id, AuthRow> {
    match st
    case InsertAuth(id, row) => auth[id := row]
    case SetEmail(id, mail) => if id in auth then auth[id := auth[id].(email := Some(mail))] else auth
    case DeleteAuth(id) => auth - {id}
    case _ => auth
  }

  function UsersAfter(users: map<Id, UserRow>, st: Stmt, now: Time): map<Id, UserRow> {
    match st
    case InsertUser(id, profile) => users[id := UserRow(profile, now, now)]
    case DeleteAuth(id) => users - {id}
    case _ => users
  }

  function OtpsAfter(otps: map<string, OtpRow>, st: Stmt): map<string, OtpRow> {
    match st
    case UpsertOtp(phone, code, expiresAt, createdAt) => otps[phone := OtpRow(code, 0, expiresAt, createdAt)]
    case SetAttempts(phone, attempts) =>
      if phone in otps then otps[phone := otps[phone].(attempts := attempts)] else otps
    case DeleteOtp(phone) => otps - {phone}
    case _ => otps
  }

  /** What UPDATE tokens ... WHERE token = ... makes of one row. */
  function RowAfter(row: TokenRow, st: Stmt): TokenRow {
    match st
    case RotateToken(oldToken, newToken, expiresAt, lastUsedAt) =>
      if row.token == oldToken then row.(token := newToken, expiresAt := expiresAt, lastUsedAt := lastUsedAt) else row
    case RevokeToken(token, at) =>
      if row.token == token then row.(revokedAt := Some(at)) else row
    case _ => row
  }

  function TokensAfter(tokens: map<Id, TokenRow>, st: Stmt, now: Time): map<Id, TokenRow> {
    match st
    case InsertToken(id, authId, token, expiresAt, deviceInfo) =>
      tokens[id := TokenRow(authId, token, deviceInfo, expiresAt, None, now, now)]
    case RotateToken(_, _, _, _) => map t | t in tokens :: RowAfter(tokens[t], st)
    case RevokeToken(_, _) => map t | t in tokens :: RowAfter(tokens[t], st)
    case DeleteAuth(id) => map t | t in tokens && tokens[t].authId != id :: tokens[t]
    case _ => tokens
  }

  function DbAfter(db: Db, st: Stmt, now: Time): Db {
    Db(AuthAfter(db.auth, st), UsersAfter(db.users, st, now), OtpsAfter(db.otps, st), TokensAfter(db.tokens, st, now))
  }

  /** The answer of an accepted statement. */
  ghost function Reads(db: Db, st: Stmt): Answer {
    match st
    case SelectOtp(phone) => OtpAnswer(if phone in db.otps then Some(db.otps[phone]) else None)
    case SelectAuth(provider, identifier) => AuthAnswer(WithRow(db.auth, FindIdentity(db.auth, provider, identifier)))
    case SelectAuthById(id) => AuthAnswer(if id in db.auth then Some((id, db.auth[id])) else None)
    case SelectAuthByEmail(mail) => AuthAnswer(WithRow(db.auth, FindEmail(db.auth, mail)))
    case SelectUser(id) => UserAnswer(if id in db.users then Some(db.users[id]) else None)
    case SelectToken(token) => TokenAnswer(WithRow(db.tokens, FindToken(db.tokens, token)))
    case _ => Acknowledged
  }

  function WithRow<V>(m: map<Id, V>, id: Option<Id>): Option<(Id, V)>
    requires id.Some? ==> id.value in m
  {
    if id.Some? then Some((id.value, m[id.value])) else None
  }

  lemma TokensStayUnique(db: Db, st: Stmt, now: Time)
    requires UniqueToken(db.tokens) && Accepts(db, st)
    ensures UniqueToken(TokensAfter(db.tokens, st, now))
  {
  }

  lemma IdentitiesStayUnique(db: Db, st: Stmt)
    requires UniqueIdentity(db.auth) && UniqueEmail(db.auth) && Accepts(db, st)
    ensures UniqueIdentity(AuthAfter(db.auth, st)) && UniqueEmail(AuthAfter(db.auth, st))
  {
  }

  lemma ReferencesKept(db: Db, st: Stmt, now: Time)
    requires db.users.Keys <= db.auth.Keys && Accepts(db, st)
    requires forall t :: t in db.tokens ==> db.tokens[t].authId in db.auth
    ensures var db' := DbAfter(db, st, now);
      && db'.users.Keys <= db'.auth.Keys
      && forall t :: t in db'.tokens ==> db'.tokens[t].authId in db'.auth
  {
  }

  /** No accepted statement breaks a unique or foreign-key constraint; the cascade keeps the references whole. */
  lemma ConstraintsKept(db: Db, st: Stmt, now: Time)
    requires Constraints(db) && Accepts(db, st)
    ensures Constraints(DbAfter(db, st, now))
  {
    TokensStayUnique(db, st, now);
    IdentitiesStayUnique(db, st);
    ReferencesKept(db, st, now);
  }
}
