/** The tables behind identity and tenancy, and what one statement or one transaction does to
    them (internal/db/migrations/sqlite, internal/auth, internal/devices/pairing.go).

    An insert is refused by its primary key, its unique columns and its foreign keys. A
    transaction is a chain of statements: if one is refused the whole leaves nothing. The
    server opens one connection, so transactions and single statements take turns. */
module Tables {
  import opened Wrappers
  import TimeText

  type Id = string

  /** Nanoseconds; what is stored is text, so cut to the second. */
  type Time = int

  datatype Purpose = EmailVerify | PasswordReset

  /** An account made by a signup has a password; one made by OAuth has the empty hash. */
  datatype User = User(email: string, passwordHash: string, verified: bool)
  datatype Account = Account(slug: string)
  datatype Membership = Membership(account: Id, user: Id, since: Time)
  datatype Session = Session(user: Id, account: Id, expires: Time, revoked: bool)
  datatype VToken = VToken(
    purpose: Purpose, user: Id, email: string, hash: string, expires: Time, consumed: Option<Time>)
  datatype Identity = Identity(user: Id, provider: string, subject: string, email: string)
  datatype ApiToken = ApiToken(
    account: Id, user: Id, device: Option<Id>, hash: string, expires: Option<Time>, revoked: bool)
  datatype Device = Device(account: Id, user: Id, deleted: bool)
  datatype PairCode = PairCode(account: Id, user: Id, expires: Time, consumed: Option<Consumption>)
  datatype Consumption = Consumption(device: Id, at: Time)
  datatype AgentSession = AgentSession(account: Id, device: Id, running: bool)

  datatype Db = Db(
    users: map<Id, User>,
    accounts: map<Id, Account>,
    memberships: map<Id, Membership>,
    sessions: map<Id, Session>,
    vtokens: map<Id, VToken>,
    identities: map<Id, Identity>,
    tokens: map<Id, ApiToken>,
    devices: map<Id, Device>,
    codes: map<string, PairCode>,
    agents: map<Id, AgentSession>)

  const EMPTY := Db(map[], map[], map[], map[], map[], map[], map[], map[], map[], map[])

  datatype Error =
    | Constraint
    | BadInput
    | NotFound
    | Expired
    | Revoked
    | InvalidCredentials
    | EmailNotVerified
    | NoAccount
    | CodeInvalid

  function Stored(t: Time): Time { TimeText.Trunc(t) }

  // ---------------------------------------------------------------- lookups

  predicate EmailTaken(users: map<Id, User>, email: string) {
    exists u :: u in users && users[u].email == email
  }

  ghost function FindUser(users: map<Id, User>, email: string): Option<Id> {
    if EmailTaken(users, email) then
      var u :| u in users && users[u].email == email;
      Some(u)
    else None
  }

  predicate IsIdentity(identity: Identity, provider: string, subject: string) {
    identity.provider == provider && identity.subject == subject
  }

  predicate Known(identities: map<Id, Identity>, provider: string, subject: string) {
    exists i :: i in identities && IsIdentity(identities[i], provider, subject)
  }

  ghost function FindIdentity(identities: map<Id, Identity>, provider: string, subject: string): Option<Id> {
    if Known(identities, provider, subject) then
      var i :| i in identities && IsIdentity(identities[i], provider, subject);
      Some(i)
    else None
  }

  predicate Oldest(memberships: map<Id, Membership>, user: Id, m: Id) {
    && m in memberships && memberships[m].user == user
    && forall n :: n in memberships && memberships[n].user == user ==> memberships[m].since <= memberships[n].since
  }

  /** The account of the user's oldest membership. */
  ghost function AccountOf(memberships: map<Id, Membership>, user: Id): Option<Id> {
    if exists m :: Oldest(memberships, user, m) then
      var m :| Oldest(memberships, user, m);
      Some(memberships[m].account)
    else None
  }

  predicate VTokenHash(vtokens: map<Id, VToken>, hash: string) {
    exists t :: t in vtokens && vtokens[t].hash == hash
  }

  ghost function FindVToken(vtokens: map<Id, VToken>, hash: string, purpose: Purpose): Option<Id> {
    if exists t :: t in vtokens && vtokens[t].hash == hash && vtokens[t].purpose == purpose then
      var t :| t in vtokens && vtokens[t].hash == hash && vtokens[t].purpose == purpose;
      Some(t)
    else None
  }

  predicate TokenHash(tokens: map<Id, ApiToken>, hash: string) {
    exists t :: t in tokens && tokens[t].hash == hash
  }

  ghost function FindToken(tokens: map<Id, ApiToken>, hash: string): Option<Id> {
    if TokenHash(tokens, hash) then
      var t :| t in tokens && tokens[t].hash == hash;
      Some(t)
    else None
  }

  // ---------------------------------------------------------------- single inserts

  function InsertUser(db: Db, u: Id, row: User): Option<Db> {
    if u in db.users || EmailTaken(db.users, row.email) then None
    else Some(db.(users := db.users[u := row]))
  }

  predicate SlugTaken(accounts: map<Id, Account>, slug: string) {
    exists a :: a in accounts && accounts[a].slug == slug
  }

  function InsertAccount(db: Db, a: Id, row: Account): Option<Db> {
    if a in db.accounts || SlugTaken(db.accounts, row.slug) then None
    else Some(db.(accounts := db.accounts[a := row]))
  }

  /** `user` has a membership in `account`. */
  predicate Member(memberships: map<Id, Membership>, account: Id, user: Id) {
    exists m :: m in memberships && memberships[m].account == account && memberships[m].user == user
  }

  function InsertMembership(db: Db, m: Id, row: Membership): Option<Db> {
    if m in db.memberships || Member(db.memberships, row.account, row.user) then None
    else if row.account !in db.accounts || row.user !in db.users then None
    else Some(db.(memberships := db.memberships[m := row]))
  }

  function InsertIdentity(db: Db, i: Id, row: Identity): Option<Db> {
    if i in db.identities || Known(db.identities, row.provider, row.subject) || row.user !in db.users then None
    else Some(db.(identities := db.identities[i := row]))
  }

  function InsertSession(db: Db, s: Id, row: Session): Option<Db> {
    if s in db.sessions || row.user !in db.users || row.account !in db.accounts then None
    else Some(db.(sessions := db.sessions[s := row]))
  }

  function InsertVToken(db: Db, t: Id, row: VToken): Option<Db> {
    if t in db.vtokens || VTokenHash(db.vtokens, row.hash) || row.user !in db.users then None
    else Some(db.(vtokens := db.vtokens[t := row]))
  }

  function InsertToken(db: Db, t: Id, row: ApiToken): Option<Db> {
    if t in db.tokens || TokenHash(db.tokens, row.hash) then None
    else if row.user !in db.users || row.account !in db.accounts then None
    else Some(db.(tokens := db.tokens[t := row]))
  }

  function InsertCode(db: Db, code: string, row: PairCode): Option<Db> {
    if code in db.codes || row.user !in db.users || row.account !in db.accounts then None
    else Some(db.(codes := db.codes[code := row]))
  }

  function InsertDevice(db: Db, d: Id, row: Device): Option<Db> {
    if d in db.devices || row.user !in db.users || row.account !in db.accounts then None
    else Some(db.(devices := db.devices[d := row]))
  }

  function InsertAgent(db: Db, g: Id, row: AgentSession): Option<Db> {
    if g in db.agents || row.account !in db.accounts || row.device !in db.devices then None
    else Some(db.(agents := db.agents[g := row]))
  }

  // ---------------------------------------------------------------- single updates

  function MarkVerified(db: Db, u: Id): Db {
    if u in db.users then db.(users := db.users[u := db.users[u].(verified := true)]) else db
  }

  function SetPassword(db: Db, u: Id, hash: string): Db {
    if u in db.users then db.(users := db.users[u := db.users[u].(passwordHash := hash)]) else db
  }

  function RevokeSession(db: Db, s: Id): Db {
    if s in db.sessions then db.(sessions := db.sessions[s := db.sessions[s].(revoked := true)]) else db
  }

  function RevokeToken(db: Db, t: Id): Db {
    if t in db.tokens then db.(tokens := db.tokens[t := db.tokens[t].(revoked := true)]) else db
  }

  function DeleteDevice(db: Db, d: Id): Db {
    if d in db.devices then db.(devices := db.devices[d := db.devices[d].(deleted := true)]) else db
  }

  function EndAgent(db: Db, g: Id): Db {
    if g in db.agents then db.(agents := db.agents[g := db.agents[g].(running := false)]) else db
  }

  // ---------------------------------------------------------------- transactions

  /** The user, the account and the membership of a signup or a first OAuth login. */
  function CreateTenant(db: Db, u: Id, user: User, a: Id, slug: string, m: Id, since: Time): Option<Db> {
    var r0 := InsertUser(db, u, user);
    if r0.None? then None else
    var r1 := InsertAccount(r0.value, a, Account(slug));
    if r1.None? then None else
    InsertMembership(r1.value, m, Membership(a, u, since))
  }

  function CreateByOAuth(db: Db, u: Id, a: Id, slug: string, m: Id, since: Time, i: Id, provider: string,
                         subject: string, email: string): Option<Db> {
    var r := CreateTenant(db, u, User(email, "", true), a, slug, m, since);
    if r.None? then None else InsertIdentity(r.value, i, Identity(u, provider, subject, email))
  }

  /** ConsumeVerificationToken: the token is found by hash and purpose together; one already
      consumed reads as not found, one past its expiry is left as it is. */
  ghost function ConsumeVToken(db: Db, hash: string, purpose: Purpose, now: Time): Result<(Db, Id), Error> {
    var t := FindVToken(db.vtokens, hash, purpose);
    if t.None? || db.vtokens[t.value].consumed.Some? then Err(NotFound)
    else if now > db.vtokens[t.value].expires then Err(Expired)
    else Ok((db.(vtokens := db.vtokens[t.value := db.vtokens[t.value].(consumed := Some(now))]), t.value))
  }

  /** The unconsumed row of a code that is not past its expiry. */
  function SelectLive(codes: map<string, PairCode>, code: string, now: Time): Option<PairCode> {
    if code !in codes || codes[code].consumed.Some? || now > codes[code].expires then None else Some(codes[code])
  }

  /** UPDATE ... WHERE consumed_at IS NULL; how many rows it touched is not looked at. */
  function MarkConsumed(db: Db, code: string, d: Id, now: Time): Db {
    if code in db.codes && db.codes[code].consumed.None? then
      db.(codes := db.codes[code := db.codes[code].(consumed := Some(Consumption(d, now)))])
    else db
  }

  /** The rest of ClaimDevice's transaction once it has read the code's row: consume the
      code, insert the device and a token bound to it, all under the row's account and user. */
  function FinishClaim(db: Db, code: string, row: PairCode, now: Time, d: Id, t: Id, hash: string): Result<Db, Error> {
    var r1 := InsertDevice(MarkConsumed(db, code, d, now), d, Device(row.account, row.user, false));
    if r1.None? then Err(Constraint)
    else
      var r2 := InsertToken(r1.value, t, ApiToken(row.account, row.user, Some(d), hash, None, false));
      if r2.None? then Err(Constraint) else Ok(r2.value)
  }

  function ClaimDevice(db: Db, code: string, now: Time, d: Id, t: Id, hash: string): Result<Db, Error> {
    var row := SelectLive(db.codes, code, now);
    if row.None? then Err(CodeInvalid) else FinishClaim(db, code, row.value, now, d, t, hash)
  }

  // ---------------------------------------------------------------- checks

  function CheckSessionActive(db: Db, s: Id, now: Time): Result<(), Error> {
    if s !in db.sessions || db.sessions[s].revoked then Err(Revoked)
    else if now > db.sessions[s].expires then Err(Expired)
    else Ok(())
  }

  ghost function LookupToken(db: Db, hash: string, now: Time): Result<Id, Error> {
    var t := FindToken(db.tokens, hash);
    if t.None? || db.tokens[t.value].revoked then Err(NotFound)
    else if db.tokens[t.value].expires.Some? && now > db.tokens[t.value].expires.value then Err(Expired)
    else Ok(t.value)
  }
}
