/** What the operations of internal/auth do, as functions over the tables, and what that
    comes to in the columns' own terms: when a token may be consumed, who may log in, when
    a tenant, an identity or a claim goes through, whom a header stands for, and how long
    what is stored lives. The service object of module AuthService is proved against it. */
module AuthSpec {
  import opened Wrappers
  import opened Tables
  import opened Tenancy
  import opened AuthSteps
  import opened AuthInvariants
  import P = PasswordText

  /** What the middleware puts into a request's context. */
  datatype Context = Context(user: Id, account: Id, sessionId: string, device: Option<Id>)

  datatype Tenant = Tenant(user: Id, account: Id)

  datatype LoggedIn = LoggedIn(token: string, session: Id, user: Id, account: Id)

  /** Only sessions of the tables were signed for, under their own user and account. */
  ghost predicate SignedOk(sessions: map<Id, Session>, signed: map<string, Claims>) {
    forall text :: text in signed ==>
      && signed[text].session in sessions && sessions[signed[text].session].user == signed[text].user
      && sessions[signed[text].session].account == signed[text].account
  }

  ghost predicate Safe(db: Db, signed: map<string, Claims>) { Closed(db) && SignedOk(db.sessions, signed) }

  lemma Commit(db: Db, db': Db, signed: map<string, Claims>)
    requires Safe(db, signed) && Closed(db') && Grows(db, db')
    ensures Safe(db', signed)
  {
    hide Closed;
  }

  lemma SafeIff(db: Db, db': Db, signed: map<string, Claims>)
    requires Safe(db, signed) && Grows(db, db')
    ensures Safe(db', signed) <==> Closed(db')
  {
    hide Closed, UsersGrow, VTokensGrow, TokensGrow, DevicesGrow, CodesGrow, AgentsGrow, Kept;
  }

  // ---------------------------------------------------------------- queries find one row

  lemma OneUser(db: Db, u: Id)
    requires Closed(db) && u in db.users
    ensures FindUser(db.users, db.users[u].email) == Some(u)
  {
    hide OneHome, SessionsHome, TokensHome, CodesHome, DevicesHome, AgentsHome, IdentitiesOk, VTokensOk;
    hide CodesMatchDevices, TokensMatchDevices;
  }

  lemma OneIdentityRow(db: Db, i: Id, provider: string, subject: string)
    requires Closed(db) && i in db.identities && IsIdentity(db.identities[i], provider, subject)
    ensures FindIdentity(db.identities, provider, subject) == Some(i) && db.identities[i].user in db.users
  {
    hide EmailsUnique, OneHome, SessionsHome, TokensHome, CodesHome, DevicesHome, AgentsHome, VTokensOk;
    hide CodesMatchDevices, TokensMatchDevices;
  }

  lemma OneVToken(db: Db, t: Id, purpose: Purpose)
    requires Closed(db) && t in db.vtokens && db.vtokens[t].purpose == purpose
    ensures FindVToken(db.vtokens, db.vtokens[t].hash, purpose) == Some(t)
  {
    hide EmailsUnique, OneHome, SessionsHome, TokensHome, CodesHome, DevicesHome, AgentsHome, IdentitiesOk;
    hide CodesMatchDevices, TokensMatchDevices;
  }

  lemma VTokenUser(db: Db, t: Id)
    requires Closed(db) && t in db.vtokens
    ensures db.vtokens[t].user in db.users
  {
    hide EmailsUnique, OneHome, SessionsHome, TokensHome, CodesHome, DevicesHome, AgentsHome, IdentitiesOk;
    hide CodesMatchDevices, TokensMatchDevices;
  }

  lemma OneToken(db: Db, t: Id)
    requires Closed(db) && t in db.tokens
    ensures FindToken(db.tokens, db.tokens[t].hash) == Some(t)
    ensures Member(db.memberships, db.tokens[t].account, db.tokens[t].user)
  {
    hide EmailsUnique, OneHome, SessionsHome, CodesHome, DevicesHome, AgentsHome, IdentitiesOk, VTokensOk;
    hide CodesMatchDevices, TokensMatchDevices, Member;
  }

  lemma OneMembership(db: Db, m: Id)
    requires Closed(db) && m in db.memberships
    ensures AccountOf(db.memberships, db.memberships[m].user) == Some(db.memberships[m].account)
    ensures Member(db.memberships, db.memberships[m].account, db.memberships[m].user)
    ensures db.memberships[m].user in db.users && db.memberships[m].account in db.accounts
  {
    var row := db.memberships[m];
    hide Closed, AccountOf;
    assert Member(db.memberships, row.account, row.user);
    OneAccount(db, row.user, row.account, row.account);
    AccountOfMember(db, row.user);
  }

  lemma FoundUser(db: Db, email: string)
    requires FindUser(db.users, email).Some?
    ensures FindUser(db.users, email).value in db.users
  {}

  lemma Signs(db: Db, signed: map<string, Claims>, text: string, c: Claims)
    requires Safe(db, signed) && c.session in db.sessions
    requires db.sessions[c.session].user == c.user && db.sessions[c.session].account == c.account
    ensures Safe(db, signed[text := c])
  {
    hide Closed;
  }

  lemma SessionsStay(db: Db, db': Db, session: Id)
    requires Grows(db, db') && session !in db'.sessions
    ensures session !in db.sessions
  {
    hide UsersGrow, VTokensGrow, TokensGrow, DevicesGrow, CodesGrow, AgentsGrow, Kept;
  }

  lemma FoundToken(db: Db, hash: string, now: Time)
    requires LookupToken(db, hash, now).Ok?
    ensures LookupToken(db, hash, now).value in db.tokens
  {}

  lemma DeviceMember(db: Db, d: Id)
    requires Closed(db) && d in db.devices
    ensures Member(db.memberships, db.devices[d].account, db.devices[d].user)
  {
    hide EmailsUnique, OneHome, SessionsHome, TokensHome, CodesHome, AgentsHome, IdentitiesOk, VTokensOk;
    hide CodesMatchDevices, TokensMatchDevices, Member;
  }

  lemma AgentAccount(db: Db, g: Id)
    requires Closed(db) && g in db.agents
    ensures db.agents[g].device in db.devices && db.agents[g].account == db.devices[db.agents[g].device].account
  {
    hide EmailsUnique, OneHome, SessionsHome, TokensHome, CodesHome, DevicesHome, IdentitiesOk, VTokensOk;
    hide CodesMatchDevices, TokensMatchDevices, Member;
  }

  // ---------------------------------------------------------------- requests

  /** A request runs as a member of its account, and on a device of that member and account
      if it comes from a device. */
  ghost predicate AtHome(db: Db, ctx: Context) {
    && Member(db.memberships, ctx.account, ctx.user)
    && (ctx.device.Some? ==>
          && ctx.device.value in db.devices
          && db.devices[ctx.device.value].account == ctx.account && db.devices[ctx.device.value].user == ctx.user)
  }

  lemma SignedAtHome(db: Db, signed: map<string, Claims>, text: string)
    requires Safe(db, signed) && text in signed
    ensures AtHome(db, Context(signed[text].user, signed[text].account, signed[text].session, None))
  {
    hide EmailsUnique, OneHome, TokensHome, CodesHome, DevicesHome, AgentsHome, IdentitiesOk, VTokensOk;
    hide CodesMatchDevices, TokensMatchDevices, Member;
  }

  lemma TokenAtHome(db: Db, t: Id, device: Option<Id>)
    requires Closed(db) && t in db.tokens && (device == None || device == db.tokens[t].device)
    ensures AtHome(db, Context(db.tokens[t].user, db.tokens[t].account, API_TOKEN_PREFIX + t, device))
  {
    hide EmailsUnique, OneHome, SessionsHome, CodesHome, DevicesHome, AgentsHome, IdentitiesOk, VTokensOk;
    hide CodesMatchDevices, Member, HasToken;
  }

  predicate IsSpace(c: char) { c == ' ' || '\t' <= c <= '\r' || c as int == 0x85 || c as int == 0xa0 }

  function TrimStart(s: string): string { if s != "" && IsSpace(s[0]) then TrimStart(s[1..]) else s }

  function TrimEnd(s: string): string { if s != "" && IsSpace(s[|s| - 1]) then TrimEnd(s[..|s| - 1]) else s }

  function TrimSpace(s: string): string { TrimEnd(TrimStart(s)) }

  /** The credential of an Authorization header with this scheme, if it has this scheme. */
  function Credential(header: string, scheme: string): Option<string> {
    if scheme <= header then Some(TrimSpace(header[|scheme|..])) else None
  }

  /** The context a header stands for: a signed text whose session is active, or an API
      token that is. `unexpired` is whether the signed text has not expired by itself. */
  ghost function ContextOf(db: Db, signed: map<string, Claims>, sha: string -> string, header: string,
                           unexpired: bool, now: Time): Option<Context>
  {
    var bearer, token := Credential(header, "Bearer "), Credential(header, "Token ");
    if bearer.Some? then
      if bearer.value in signed && unexpired && CheckSessionActive(db, signed[bearer.value].session, now).Ok? then
        var c := signed[bearer.value];
        Some(Context(c.user, c.account, c.session, None))
      else None
    else if token.Some? && "ahs_" <= token.value && LookupToken(db, sha(token.value), now).Ok? then
      var t := LookupToken(db, sha(token.value), now).value;
      var row := db.tokens[t];
      Some(Context(row.user, row.account, API_TOKEN_PREFIX + t, if row.device == Some("") then None else row.device))
    else None
  }

  /** What an answer of the provider does: the tables after it, the user it is for, and
      whether the user is new. A known identity stands for its user; an unknown one is linked
      to the user of its email, or else made together with a new tenant. */
  ghost function Upserted(db: Db, provider: string, subject: string, email: string, slug: string,
                          u: Id, a: Id, m: Id, i: Id, since: Time): Result<(Db, Id, bool), Error>
  {
    var known := FindIdentity(db.identities, provider, subject);
    if known.Some? then Ok((db, db.identities[known.value].user, false))
    else
      var match' := FindUser(db.users, email);
      if match'.Some? then
        var linked := InsertIdentity(db, i, Identity(match'.value, provider, subject, email));
        if linked.None? then Err(Constraint) else Ok((linked.value, match'.value, false))
      else
        var created := CreateByOAuth(db, u, a, slug, m, since, i, provider, subject, email);
        if created.None? then Err(Constraint) else Ok((created.value, u, true))
  }

  /** What opening a session leaves: the tables, the signed texts and the answer, if any. A
      session that can be stored but not signed for leaves its row. */
  ghost function SessionOpened(db: Db, signed: map<string, Claims>, user: Id, account: Id, session: Id, text: string,
                               ttl: int, now: Time): (Db, map<string, Claims>, Option<LoggedIn>)
  {
    if ttl <= 0 || session in db.sessions then (db, signed, None)
    else
      var db' := db.(sessions := db.sessions[session := Session(user, account, ExpiresAfter(now, ttl), false)]);
      if session == "" || user == "" || account == "" then (db', signed, None)
      else (db', signed[text := Claims(session, user, account)], Some(LoggedIn(text, session, user, account)))
  }

  /** How FinishLogin ends after an upsert that went through. */
  ghost predicate LoginEnds(upserted: (Db, Id, bool), signed: map<string, Claims>, session: Id, text: string, ttl: int,
                            now: Time, db': Db, signed': map<string, Claims>, r: Result<(LoggedIn, bool), Error>)
  {
    var account := AccountOf(upserted.0.memberships, upserted.1);
    && account.Some?
    && var spec := SessionOpened(upserted.0, signed, upserted.1, account.value, session, text, ttl, now);
       && db' == spec.0 && signed' == spec.1
       && (if spec.2.Some? then r == Ok((spec.2.value, upserted.2)) else r.Err?)
  }

  ghost predicate Answers(upserted: Result<(Db, Id, bool), Error>, user: Id, created: bool) {
    upserted.Ok? && upserted.value.1 == user && upserted.value.2 == created
  }

  // ---------------------------------------------------------------- how long things live

  /** What a lifetime counted from `from` may be stored as: text keeps whole seconds, so up
      to two of them are lost, and nothing ever lives longer than it was given. */
  ghost predicate Lasts(expires: Time, from: Time, ttl: int) {
    from + ttl - 2_000_000_000 < expires <= from + ttl
  }

  lemma ExpiryLasts(now: Time, ttl: int)
    ensures Lasts(ExpiresAfter(now, ttl), now, ttl)
  {}

  /** A stored instant is its whole seconds. */
  lemma StoredIs(t: Time)
    ensures Stored(t) <= t < Stored(t) + 1_000_000_000 && Stored(t) % 1_000_000_000 == 0
  {}

  // ---------------------------------------------------------------- verification tokens

  ghost predicate MayConsume(db: Db, t: Id, hash: string, purpose: Purpose, now: Time) {
    && t in db.vtokens && db.vtokens[t].hash == hash && db.vtokens[t].purpose == purpose
    && db.vtokens[t].consumed == None && now <= db.vtokens[t].expires
  }

  ghost predicate TooLate(db: Db, t: Id, hash: string, purpose: Purpose, now: Time) {
    && t in db.vtokens && db.vtokens[t].hash == hash && db.vtokens[t].purpose == purpose
    && db.vtokens[t].consumed == None && now > db.vtokens[t].expires
  }

  /** Only this token is used up. */
  ghost predicate UsesUp(db: Db, t: Id, now: Time, db': Db)
    requires t in db.vtokens
  {
    db' == db.(vtokens := db.vtokens[t := db.vtokens[t].(consumed := Some(now))])
  }

  lemma ConsumeExactly(db: Db, hash: string, purpose: Purpose, now: Time)
    requires Closed(db)
    ensures var r := ConsumeVToken(db, hash, purpose, now);
            && (r.Ok? ==> MayConsume(db, r.value.1, hash, purpose, now) && UsesUp(db, r.value.1, now, r.value.0))
            && (forall t :: MayConsume(db, t, hash, purpose, now) ==> r.Ok? && r.value.1 == t)
            && (r == Err(Expired) <==> exists t :: TooLate(db, t, hash, purpose, now))
            && (r.Err? ==> r.error in {NotFound, Expired})
  {
    hide EmailsUnique, OneHome, SessionsHome, TokensHome, CodesHome, DevicesHome, AgentsHome, IdentitiesOk;
    hide CodesMatchDevices, TokensMatchDevices;
    if exists t :: t in db.vtokens && db.vtokens[t].hash == hash && db.vtokens[t].purpose == purpose {
      var t :| t in db.vtokens && db.vtokens[t].hash == hash && db.vtokens[t].purpose == purpose;
      assert FindVToken(db.vtokens, hash, purpose) == Some(t);
      assert db.vtokens[t].consumed == None && now > db.vtokens[t].expires ==> TooLate(db, t, hash, purpose, now);
    }
  }

  // ---------------------------------------------------------------- passwords

  /** The user has this email, is verified and has a hash the password verifies against. */
  ghost predicate MayLogIn(db: Db, argon: P.Argon, email: string, password: seq<P.byte>, u: Id) {
    && u in db.users && db.users[u].email == email && db.users[u].verified
    && P.VerifyPassword(argon, password, db.users[u].passwordHash) == P.ACCEPTED
  }

  ghost predicate NotYetVerified(db: Db, argon: P.Argon, email: string, password: seq<P.byte>, u: Id) {
    && u in db.users && db.users[u].email == email && !db.users[u].verified
    && P.VerifyPassword(argon, password, db.users[u].passwordHash) == P.ACCEPTED
  }

  lemma EmptyHashRefuses(argon: P.Argon, password: seq<P.byte>)
    ensures P.VerifyPassword(argon, password, "") != P.ACCEPTED
  {
    assert P.Split("", '$') == [""];
    assert P.Scan("").Err?;
    hide P.Scan;
  }

  /** Whom a password login is for. */
  ghost function Authenticated(db: Db, argon: P.Argon, email: string, password: seq<P.byte>): Result<Id, Error> {
    var u := FindUser(db.users, email);
    if u.None? || db.users[u.value].passwordHash == "" then Err(InvalidCredentials)
    else if P.VerifyPassword(argon, password, db.users[u.value].passwordHash) != P.ACCEPTED then
      Err(InvalidCredentials)
    else if !db.users[u.value].verified then Err(EmailNotVerified)
    else Ok(u.value)
  }

  lemma AuthenticatedExactly(db: Db, argon: P.Argon, email: string, password: seq<P.byte>)
    requires Closed(db)
    ensures var r := Authenticated(db, argon, email, password);
            && (forall u :: MayLogIn(db, argon, email, password, u) ==> r == Ok(u))
            && (r.Ok? ==> MayLogIn(db, argon, email, password, r.value))
            && (r == Err(EmailNotVerified) <==> exists u :: NotYetVerified(db, argon, email, password, u))
            && (r.Err? ==> r.error in {InvalidCredentials, EmailNotVerified})
  {
    hide Closed, P.VerifyPassword, FindUser;
    EmptyHashRefuses(argon, password);
    FoundEmail(db, email);
    assert forall u :: MayLogIn(db, argon, email, password, u) ==> HasEmail(db, u, email);
    assert forall u :: NotYetVerified(db, argon, email, password, u) ==> HasEmail(db, u, email);
    var found := FindUser(db.users, email);
    assert found.Some? && Authenticated(db, argon, email, password) == Err(EmailNotVerified) ==>
        NotYetVerified(db, argon, email, password, found.value);
  }

  /** A user who holds the hash of `password` may log in with `tried` exactly if the user is
      verified and argon2 maps both passwords to one key under the hash's salt. */
  lemma StoredPasswordLogsIn(db: Db, argon: P.Argon, email: string, u: Id, password: seq<P.byte>,
                             salt: seq<P.byte>, tried: seq<P.byte>)
    requires password != []
    requires |argon(password, salt, P.ITERATIONS, P.MEMORY, P.PARALLELISM, P.KEY_LEN)| == P.KEY_LEN
    requires u in db.users && db.users[u].email == email
    requires db.users[u].passwordHash == P.HashPassword(argon, password, salt).value
    ensures MayLogIn(db, argon, email, tried, u)
        <==> db.users[u].verified
             && argon(tried, salt, P.ITERATIONS, P.MEMORY, P.PARALLELISM, P.KEY_LEN)
                == argon(password, salt, P.ITERATIONS, P.MEMORY, P.PARALLELISM, P.KEY_LEN)
  {
    hide P.VerifyPassword, P.HashPassword;
    P.VerifyAcceptsExactly(argon, password, salt, tried);
  }

  // ---------------------------------------------------------------- tenants and identities

  ghost predicate MayCreate(db: Db, u: Id, email: string, a: Id, slug: string, m: Id) {
    && u !in db.users && a !in db.accounts && m !in db.memberships
    && (forall v :: v in db.users ==> db.users[v].email != email)
    && (forall b :: b in db.accounts ==> db.accounts[b].slug != slug)
  }

  /** A tenant is created exactly if its ids, its email and its slug are free: the foreign
      keys are its own, and no membership can stand in the way. */
  lemma TenantExactly(db: Db, u: Id, user: User, a: Id, slug: string, m: Id, since: Time)
    requires Closed(db)
    ensures CreateTenant(db, u, user, a, slug, m, since).Some? <==> MayCreate(db, u, user.email, a, slug, m)
  {
    hide Closed, Member, CreateTenant, MayCreate;
    if a !in db.accounts && Member(db.memberships, a, u) { Homely(db, a, u); }
    TenantIff(db, u, user, a, slug, m, since);
  }

  lemma TenantIff(db: Db, u: Id, user: User, a: Id, slug: string, m: Id, since: Time)
    requires a !in db.accounts ==> !Member(db.memberships, a, u)
    ensures CreateTenant(db, u, user, a, slug, m, since).Some? <==> MayCreate(db, u, user.email, a, slug, m)
  {
    hide Member, EmailTaken, SlugTaken, MayCreate;
    FreeIsNotTaken(db, u, user.email, a, slug, m);
    var r0 := InsertUser(db, u, user);
    if r0.Some? {
      assert r0.value.accounts == db.accounts && r0.value.memberships == db.memberships && u in r0.value.users;
      var r1 := InsertAccount(r0.value, a, Account(slug));
      if r1.Some? {
        assert r1.value.memberships == db.memberships && u in r1.value.users && a in r1.value.accounts;
      }
    }
  }

  lemma FreeIsNotTaken(db: Db, u: Id, email: string, a: Id, slug: string, m: Id)
    ensures MayCreate(db, u, email, a, slug, m)
        <==> u !in db.users && a !in db.accounts && m !in db.memberships
             && !EmailTaken(db.users, email) && !SlugTaken(db.accounts, slug)
  {}

  lemma Homely(db: Db, a: Id, u: Id)
    requires Closed(db) && Member(db.memberships, a, u)
    ensures a in db.accounts && u in db.users
  {
    hide EmailsUnique, SessionsHome, TokensHome, CodesHome, DevicesHome, AgentsHome, IdentitiesOk, VTokensOk;
    hide CodesMatchDevices, TokensMatchDevices;
  }

  /** Some user has the provider's identity. */
  ghost predicate Stands(db: Db, provider: string, subject: string, v: Id) {
    exists i :: i in db.identities && db.identities[i].user == v
                && db.identities[i].provider == provider && db.identities[i].subject == subject
  }

  ghost predicate HasEmail(db: Db, v: Id, email: string) { v in db.users && db.users[v].email == email }

  lemma FoundIdentity(db: Db, provider: string, subject: string)
    requires Closed(db)
    ensures var found := FindIdentity(db.identities, provider, subject);
            && (forall v :: Stands(db, provider, subject, v) ==>
                  found.Some? && found.value in db.identities && db.identities[found.value].user == v)
            && (found.Some? ==> found.value in db.identities
                                && Stands(db, provider, subject, db.identities[found.value].user))
  {
    hide EmailsUnique, OneHome, SessionsHome, TokensHome, CodesHome, DevicesHome, AgentsHome, VTokensOk;
    hide CodesMatchDevices, TokensMatchDevices;
    forall v | Stands(db, provider, subject, v)
      ensures var found := FindIdentity(db.identities, provider, subject);
              found.Some? && found.value in db.identities && db.identities[found.value].user == v
    {
      var i :| i in db.identities && db.identities[i].user == v
               && db.identities[i].provider == provider && db.identities[i].subject == subject;
      assert IsIdentity(db.identities[i], provider, subject);
    }
  }

  lemma FoundEmail(db: Db, email: string)
    requires Closed(db)
    ensures var found := FindUser(db.users, email);
            && (forall v :: HasEmail(db, v, email) ==> found == Some(v))
            && (found.Some? ==> HasEmail(db, found.value, email))
  {
    hide OneHome, SessionsHome, TokensHome, CodesHome, DevicesHome, AgentsHome, IdentitiesOk, VTokensOk;
    hide CodesMatchDevices, TokensMatchDevices;
  }

  lemma UpsertKnown(db: Db, provider: string, subject: string, email: string, slug: string,
                    u: Id, a: Id, m: Id, i: Id, since: Time, v: Id)
    requires Closed(db) && Stands(db, provider, subject, v)
    ensures Upserted(db, provider, subject, email, slug, u, a, m, i, since) == Ok((db, v, false))
  {
    hide Closed, Stands, FindUser, FindIdentity, CreateByOAuth, InsertIdentity;
    FoundIdentity(db, provider, subject);
  }

  lemma UpsertLinked(db: Db, provider: string, subject: string, email: string, slug: string,
                     u: Id, a: Id, m: Id, i: Id, since: Time, v: Id)
    requires Closed(db) && (forall w :: !Stands(db, provider, subject, w)) && HasEmail(db, v, email)
    ensures Upserted(db, provider, subject, email, slug, u, a, m, i, since)
         == if i in db.identities then Err(Constraint)
            else Ok((db.(identities := db.identities[i := Identity(v, provider, subject, email)]), v, false))
  {
    hide Closed, Stands, FindUser, FindIdentity, CreateByOAuth, InsertIdentity, HasEmail;
    FoundIdentity(db, provider, subject);
    FoundEmail(db, email);
    LinkExactly(db, i, v, provider, subject, email);
  }

  lemma UpsertCreated(db: Db, provider: string, subject: string, email: string, slug: string,
                      u: Id, a: Id, m: Id, i: Id, since: Time)
    requires Closed(db) && (forall w :: !Stands(db, provider, subject, w)) && (forall w :: !HasEmail(db, w, email))
    ensures Upserted(db, provider, subject, email, slug, u, a, m, i, since)
         == var created := CreateByOAuth(db, u, a, slug, m, since, i, provider, subject, email);
            if created.None? then Err(Constraint) else Ok((created.value, u, true))
  {
    hide Closed, Stands, FindUser, FindIdentity, CreateByOAuth, InsertIdentity, HasEmail;
    FoundIdentity(db, provider, subject);
    FoundEmail(db, email);
  }

  /** The three ways an answer of a provider can go: a known identity stands for its user
      and nothing is written; one unknown whose email a user has gets one row, for that
      user; and any other gets a tenant of its own with a verified user, if all it needs is
      free. */
  lemma UpsertExactly(db: Db, provider: string, subject: string, email: string, slug: string,
                      u: Id, a: Id, m: Id, i: Id, since: Time)
    requires Closed(db)
    ensures var r := Upserted(db, provider, subject, email, slug, u, a, m, i, since);
            && (forall v :: Stands(db, provider, subject, v) ==> r == Ok((db, v, false)))
            && ((forall v :: !Stands(db, provider, subject, v)) ==>
                  && (forall v :: HasEmail(db, v, email) ==>
                        if i in db.identities then r == Err(Constraint)
                        else r == Ok((db.(identities := db.identities[i := Identity(v, provider, subject, email)]),
                                      v, false)))
                  && ((forall v :: !HasEmail(db, v, email)) ==>
                        if !MayCreate(db, u, email, a, slug, m) || i in db.identities then r == Err(Constraint)
                        else r == Ok((db.(users := db.users[u := User(email, "", true)],
                                          accounts := db.accounts[a := Account(slug)],
                                          memberships := db.memberships[m := Membership(a, u, since)],
                                          identities := db.identities[i := Identity(u, provider, subject, email)]),
                                      u, true))))
  {
    hide Closed, Upserted, Stands, MayCreate, CreateByOAuth, HasEmail;
    if v :| Stands(db, provider, subject, v) {
      forall w | Stands(db, provider, subject, w)
        ensures Upserted(db, provider, subject, email, slug, u, a, m, i, since) == Ok((db, w, false))
      {
        UpsertKnown(db, provider, subject, email, slug, u, a, m, i, since, w);
      }
    } else if v :| HasEmail(db, v, email) {
      forall w | HasEmail(db, w, email)
        ensures Upserted(db, provider, subject, email, slug, u, a, m, i, since)
             == if i in db.identities then Err(Constraint)
                else Ok((db.(identities := db.identities[i := Identity(w, provider, subject, email)]), w, false))
      {
        UpsertLinked(db, provider, subject, email, slug, u, a, m, i, since, w);
      }
    } else {
      UpsertCreated(db, provider, subject, email, slug, u, a, m, i, since);
      OAuthExactly(db, u, a, slug, m, since, i, provider, subject, email);
    }
  }

  lemma NotKnown(db: Db, provider: string, subject: string)
    requires forall w :: !Stands(db, provider, subject, w)
    ensures !Known(db.identities, provider, subject)
  {
    if i :| i in db.identities && IsIdentity(db.identities[i], provider, subject) {
      assert Stands(db, provider, subject, db.identities[i].user);
    }
  }

  lemma LinkExactly(db: Db, i: Id, v: Id, provider: string, subject: string, email: string)
    requires HasEmail(db, v, email) && forall w :: !Stands(db, provider, subject, w)
    ensures InsertIdentity(db, i, Identity(v, provider, subject, email))
         == if i in db.identities then None
            else Some(db.(identities := db.identities[i := Identity(v, provider, subject, email)]))
  {
    hide Stands, Known;
    NotKnown(db, provider, subject);
  }

  lemma OAuthExactly(db: Db, u: Id, a: Id, slug: string, m: Id, since: Time, i: Id,
                     provider: string, subject: string, email: string)
    requires Closed(db) && forall w :: !Stands(db, provider, subject, w)
    ensures CreateByOAuth(db, u, a, slug, m, since, i, provider, subject, email)
         == if !MayCreate(db, u, email, a, slug, m) || i in db.identities then None
            else Some(db.(users := db.users[u := User(email, "", true)], accounts := db.accounts[a := Account(slug)],
                          memberships := db.memberships[m := Membership(a, u, since)],
                          identities := db.identities[i := Identity(u, provider, subject, email)]))
  {
    hide Closed, Stands, Known, MayCreate, CreateTenant, IsIdentity;
    NotKnown(db, provider, subject);
    TenantExactly(db, u, User(email, "", true), a, slug, m, since);
    if CreateTenant(db, u, User(email, "", true), a, slug, m, since).Some? {
      TenantRows(db, u, User(email, "", true), a, slug, m, since);
    }
  }

  // ---------------------------------------------------------------- sessions

  /** One new session row, and nothing else. */
  ghost predicate Opens(db: Db, session: Id, user: Id, account: Id, ttl: int, now: Time, db': Db) {
    && session !in db.sessions && session in db'.sessions
    && db' == db.(sessions := db.sessions[session := db'.sessions[session]])
    && db'.sessions[session].user == user && db'.sessions[session].account == account
    && !db'.sessions[session].revoked && Lasts(db'.sessions[session].expires, now, ttl)
  }

  lemma SessionOpenedExactly(db: Db, signed: map<string, Claims>, user: Id, account: Id, session: Id, text: string,
                             ttl: int, now: Time)
    ensures var (db', signed', answer) := SessionOpened(db, signed, user, account, session, text, ttl, now);
            && (if ttl > 0 && session !in db.sessions then Opens(db, session, user, account, ttl, now, db')
                else db' == db)
            && (answer.Some? <==>
                  ttl > 0 && session !in db.sessions && session != "" && user != "" && account != "")
            && signed' == (if answer.Some? then signed[text := Claims(session, user, account)] else signed)
            && (answer.Some? ==> answer.value == LoggedIn(text, session, user, account))
  {
    ExpiryLasts(now, ttl);
    hide ExpiresAfter;
  }

  /** A session opened at `now` is active up to two seconds before its lifetime is over, and
      never after it. */
  lemma SessionLives(db: Db, session: Id, user: Id, account: Id, ttl: int, now: Time, db': Db, at: Time)
    requires Opens(db, session, user, account, ttl, now, db')
    ensures at <= now + ttl - 2_000_000_000 ==> CheckSessionActive(db', session, at).Ok?
    ensures now + ttl < at ==> CheckSessionActive(db', session, at) == Err(Expired)
  {}

  /** Whoever may log in is whom the login is for, under the one account. */
  lemma LoginExactly(db: Db, argon: P.Argon, email: string, password: seq<P.byte>, u: Id, account: Id)
    requires Closed(db) && Authenticated(db, argon, email, password) == Ok(u) && Member(db.memberships, account, u)
    ensures forall v, a :: MayLogIn(db, argon, email, password, v) && Member(db.memberships, a, v) ==>
              v == u && a == account
  {
    hide Closed, Member, MayLogIn, Authenticated;
    AuthenticatedExactly(db, argon, email, password);
    forall v, a | MayLogIn(db, argon, email, password, v) && Member(db.memberships, a, v)
      ensures v == u && a == account
    {
      OneAccount(db, u, a, account);
    }
  }

  /** A provider's answer comes down to user v under account b. */
  ghost predicate Lands(db: Db, provider: string, subject: string, email: string, slug: string,
                        u: Id, a: Id, m: Id, i: Id, v: Id, b: Id)
  {
    if exists w :: Stands(db, provider, subject, w) then
      Stands(db, provider, subject, v) && Member(db.memberships, b, v)
    else if exists w :: HasEmail(db, w, email) then
      HasEmail(db, v, email) && i !in db.identities && Member(db.memberships, b, v)
    else MayCreate(db, u, email, a, slug, m) && i !in db.identities && v == u && b == a
  }

  lemma HomeOf(db: Db, v: Id) returns (b: Id)
    requires Closed(db) && v in db.users
    ensures Member(db.memberships, b, v) && AccountOf(db.memberships, v) == Some(b)
  {
    hide Closed, AccountOf;
    b := UserMember(db, v);
    OneAccount(db, v, b, b);
    AccountOfMember(db, v);
    OneAccount(db, v, b, AccountOf(db.memberships, v).value);
  }

  lemma UserMember(db: Db, v: Id) returns (b: Id)
    requires Closed(db) && v in db.users
    ensures Member(db.memberships, b, v)
  {
    hide EmailsUnique, SessionsHome, TokensHome, CodesHome, DevicesHome, AgentsHome, IdentitiesOk, VTokensOk;
    hide CodesMatchDevices, TokensMatchDevices;
    assert HasHome(db.memberships, v);
    var m :| m in db.memberships && db.memberships[m].user == v;
    b := db.memberships[m].account;
  }

  lemma StandsForUser(db: Db, provider: string, subject: string, v: Id)
    requires Closed(db) && Stands(db, provider, subject, v)
    ensures v in db.users
  {
    hide EmailsUnique, OneHome, SessionsHome, TokensHome, CodesHome, DevicesHome, AgentsHome, VTokensOk;
    hide CodesMatchDevices, TokensMatchDevices;
  }

  /** One user has the identity, under one account. */
  lemma OneStands(db: Db, provider: string, subject: string, v: Id) returns (b: Id)
    requires Closed(db) && Stands(db, provider, subject, v)
    ensures Member(db.memberships, b, v) && AccountOf(db.memberships, v) == Some(b)
    ensures forall w, c :: Stands(db, provider, subject, w) && Member(db.memberships, c, w) ==> w == v && c == b
  {
    hide Closed, AccountOf, Stands, Member;
    StandsForUser(db, provider, subject, v);
    b := HomeOf(db, v);
    forall w, c | Stands(db, provider, subject, w) && Member(db.memberships, c, w) ensures w == v && c == b {
      FoundIdentity(db, provider, subject);
      OneAccount(db, v, b, c);
    }
  }

  /** One user has the email, under one account. */
  lemma OneEmail(db: Db, v: Id, email: string) returns (b: Id)
    requires Closed(db) && HasEmail(db, v, email)
    ensures Member(db.memberships, b, v) && AccountOf(db.memberships, v) == Some(b)
    ensures forall w, c :: HasEmail(db, w, email) && Member(db.memberships, c, w) ==> w == v && c == b
  {
    hide Closed, AccountOf, Member;
    b := HomeOf(db, v);
    forall w, c | HasEmail(db, w, email) && Member(db.memberships, c, w) ensures w == v && c == b {
      FoundEmail(db, email);
      OneAccount(db, v, b, c);
    }
  }

  /** This outcome of an upsert is at the one place where the answer lands, if any. */
  ghost predicate LandsRightly(db: Db, provider: string, subject: string, email: string, slug: string,
                               u: Id, a: Id, m: Id, i: Id, r: Result<(Db, Id, bool), Error>)
  {
    && (r.Ok? <==> exists v, b :: Lands(db, provider, subject, email, slug, u, a, m, i, v, b))
    && (r.Ok? ==>
          && r.value.0.sessions == db.sessions
          && (forall v, b :: Lands(db, provider, subject, email, slug, u, a, m, i, v, b) ==>
                v == r.value.1 && AccountOf(r.value.0.memberships, v) == Some(b)))
  }

  lemma LandsKnown(db: Db, provider: string, subject: string, email: string, slug: string,
                   u: Id, a: Id, m: Id, i: Id, v: Id)
    requires Closed(db) && Stands(db, provider, subject, v)
    ensures LandsRightly(db, provider, subject, email, slug, u, a, m, i, Ok((db, v, false)))
  {
    hide Closed, Stands, HasEmail, MayCreate, AccountOf, Member;
    var b := OneStands(db, provider, subject, v);
    assert Lands(db, provider, subject, email, slug, u, a, m, i, v, b);
  }

  lemma LandsLinked(db: Db, provider: string, subject: string, email: string, slug: string,
                    u: Id, a: Id, m: Id, i: Id, v: Id, r: Result<(Db, Id, bool), Error>)
    requires Closed(db) && (forall w :: !Stands(db, provider, subject, w)) && HasEmail(db, v, email)
    requires if i in db.identities then r.Err?
             else r.Ok? && r.value.1 == v && r.value.0.sessions == db.sessions
                  && r.value.0.memberships == db.memberships
    ensures LandsRightly(db, provider, subject, email, slug, u, a, m, i, r)
  {
    hide Closed, Stands, HasEmail, MayCreate, AccountOf, Member;
    var b := OneEmail(db, v, email);
    assert i !in db.identities ==> Lands(db, provider, subject, email, slug, u, a, m, i, v, b);
  }

  lemma LandsCreated(db: Db, provider: string, subject: string, email: string, slug: string,
                     u: Id, a: Id, m: Id, i: Id, since: Time)
    requires Closed(db) && (forall w :: !Stands(db, provider, subject, w)) && (forall w :: !HasEmail(db, w, email))
    ensures var created := CreateByOAuth(db, u, a, slug, m, since, i, provider, subject, email);
            LandsRightly(db, provider, subject, email, slug, u, a, m, i,
                         if created.None? then Err(Constraint) else Ok((created.value, u, true)))
  {
    hide Closed, Stands, HasEmail, MayCreate, AccountOf, Member, CreateByOAuth;
    OAuthExactly(db, u, a, slug, m, since, i, provider, subject, email);
    if MayCreate(db, u, email, a, slug, m) && i !in db.identities {
      assert Lands(db, provider, subject, email, slug, u, a, m, i, u, a);
      CreatedHome(db, u, a, slug, m, since, i, provider, subject, email);
    }
  }

  /** A provider's answer goes through exactly if it lands somewhere, and then it lands at
      one user and one account, those of the tables it leaves. */
  lemma UpsertLands(db: Db, provider: string, subject: string, email: string, slug: string,
                    u: Id, a: Id, m: Id, i: Id, since: Time)
    requires Closed(db)
    ensures LandsRightly(db, provider, subject, email, slug, u, a, m, i,
                         Upserted(db, provider, subject, email, slug, u, a, m, i, since))
  {
    hide Closed, Upserted, Stands, HasEmail, CreateByOAuth, LandsRightly;
    if v :| Stands(db, provider, subject, v) {
      UpsertKnown(db, provider, subject, email, slug, u, a, m, i, since, v);
      LandsKnown(db, provider, subject, email, slug, u, a, m, i, v);
    } else if v :| HasEmail(db, v, email) {
      UpsertLinked(db, provider, subject, email, slug, u, a, m, i, since, v);
      LandsLinked(db, provider, subject, email, slug, u, a, m, i, v,
                  Upserted(db, provider, subject, email, slug, u, a, m, i, since));
    } else {
      UpsertCreated(db, provider, subject, email, slug, u, a, m, i, since);
      LandsCreated(db, provider, subject, email, slug, u, a, m, i, since);
    }
  }

  lemma CreatedHome(db: Db, u: Id, a: Id, slug: string, m: Id, since: Time, i: Id,
                    provider: string, subject: string, email: string)
    requires Closed(db) && CreateByOAuth(db, u, a, slug, m, since, i, provider, subject, email).Some?
    ensures var db' := CreateByOAuth(db, u, a, slug, m, since, i, provider, subject, email).value;
            AccountOf(db'.memberships, u) == Some(a)
  {
    hide Closed, AccountOf, Member, CreateByOAuth;
    OAuthTenantClosed(db, u, a, slug, m, since, i, provider, subject, email);
    var db' := CreateByOAuth(db, u, a, slug, m, since, i, provider, subject, email).value;
    OneAccount(db', u, a, a);
    AccountOfMember(db', u);
    OneAccount(db', u, a, AccountOf(db'.memberships, u).value);
  }

  // ---------------------------------------------------------------- credentials

  ghost predicate LiveSession(db: Db, x: Id, now: Time) {
    x in db.sessions && !db.sessions[x].revoked && now <= db.sessions[x].expires
  }

  ghost predicate LiveApiToken(db: Db, t: Id, hash: string, now: Time) {
    && t in db.tokens && db.tokens[t].hash == hash && !db.tokens[t].revoked
    && (db.tokens[t].expires == None || now <= db.tokens[t].expires.value)
  }

  lemma LookupExactly(db: Db, hash: string, now: Time)
    requires Closed(db)
    ensures forall t :: LiveApiToken(db, t, hash, now) ==> LookupToken(db, hash, now) == Ok(t)
    ensures LookupToken(db, hash, now).Ok? ==> LiveApiToken(db, LookupToken(db, hash, now).value, hash, now)
  {
    hide EmailsUnique, OneHome, SessionsHome, CodesHome, DevicesHome, AgentsHome, IdentitiesOk, VTokensOk;
    hide CodesMatchDevices, TokensMatchDevices, Member;
  }

  /** A request gets through exactly on a live credential, and runs as exactly what that
      credential's row says: the session's user and account, or the API token's user,
      account and device. */
  lemma ContextExactly(db: Db, signed: map<string, Claims>, sha: string -> string, header: string,
                       unexpired: bool, now: Time)
    requires Safe(db, signed)
    ensures var ctx := ContextOf(db, signed, sha, header, unexpired, now);
            if "Bearer " <= header then
              var text := TrimSpace(header[7..]);
              && (ctx.Some? <==> text in signed && unexpired && LiveSession(db, signed[text].session, now))
              && (ctx.Some? ==>
                    var x := signed[text].session;
                    ctx.value == Context(db.sessions[x].user, db.sessions[x].account, x, None))
            else if "Token " <= header then
              var raw := TrimSpace(header[6..]);
              && (ctx.Some? <==> "ahs_" <= raw && exists t :: LiveApiToken(db, t, sha(raw), now))
              && (forall t :: "ahs_" <= raw && LiveApiToken(db, t, sha(raw), now) ==>
                    var row := db.tokens[t];
                    ctx == Some(Context(row.user, row.account, "api-token:" + t,
                                        if row.device == Some("") then None else row.device)))
            else ctx == None
  {
    hide Closed, TrimSpace, LookupToken;
    if "Bearer " <= header {
    } else if "Token " <= header {
      LookupExactly(db, sha(TrimSpace(header[6..])), now);
    }
  }

  lemma {:induction false} TrimStartIs(a: string, s: string)
    requires (forall c :: c in a ==> IsSpace(c)) && (s == "" || !IsSpace(s[0]))
    ensures TrimStart(a + s) == s
  {
    if a == "" {
      assert a + s == s;
    } else {
      assert (a + s)[1..] == a[1..] + s;
      TrimStartIs(a[1..], s);
    }
  }

  lemma {:induction false} TrimEndIs(s: string, b: string)
    requires (forall c :: c in b ==> IsSpace(c)) && (s == "" || !IsSpace(s[|s| - 1]))
    ensures TrimEnd(s + b) == s
  {
    if b == "" {
      assert s + b == s;
    } else {
      assert (s + b)[..|s + b| - 1] == s + b[..|b| - 1];
      TrimEndIs(s, b[..|b| - 1]);
    }
  }

  lemma {:induction false} TrimStartAll(a: string)
    requires forall c :: c in a ==> IsSpace(c)
    ensures TrimStart(a) == ""
  {
    assert a + "" == a;
    TrimStartIs(a, "");
  }

  const SPACES: set<char> := {' ', '\t', '\n', '\r', 11 as char, 12 as char, 133 as char, 160 as char}

  /** Trimming takes the spaces around a text and nothing else. */
  lemma TrimSpaceIs(a: string, s: string, b: string)
    requires forall c :: c in a + b ==> c in SPACES
    requires s == "" || (s[0] !in SPACES && s[|s| - 1] !in SPACES)
    ensures TrimSpace(a + s + b) == s
  {
    assert forall c :: c in a || c in b ==> c in a + b;
    if s == "" {
      assert a + s + b == a + b;
      TrimStartAll(a + b);
    } else {
      assert a + s + b == a + (s + b);
      TrimStartIs(a, s + b);
      TrimEndIs(s, b);
    }
  }

  // ---------------------------------------------------------------- claims

  ghost predicate LiveCode(db: Db, code: string, now: Time) {
    code in db.codes && db.codes[code].consumed == None && now <= db.codes[code].expires
  }

  /** A claim goes through exactly if its code is live and the device id, the token id and
      the token's hash are new; it uses up the code and adds the device and its token, all
      under the code's account and user, and changes nothing else. */
  lemma ClaimExactly(db: Db, code: string, now: Time, d: Id, t: Id, hash: string)
    requires Closed(db)
    ensures ClaimDevice(db, code, now, d, t, hash)
         == if !LiveCode(db, code, now) then Err(CodeInvalid)
            else if d in db.devices || t in db.tokens || exists x :: x in db.tokens && db.tokens[x].hash == hash then
              Err(Constraint)
            else
              var row := db.codes[code];
              Ok(db.(codes := db.codes[code := row.(consumed := Some(Consumption(d, now)))],
                     devices := db.devices[d := Device(row.account, row.user, false)],
                     tokens := db.tokens[t := ApiToken(row.account, row.user, Some(d), hash, None, false)]))
  {
    hide Closed, Member;
    if code in db.codes { CodeHomely(db, code); }
  }

  lemma CodeHomely(db: Db, code: string)
    requires Closed(db) && code in db.codes
    ensures db.codes[code].account in db.accounts && db.codes[code].user in db.users
  {
    hide Closed, Member;
    CodeMember(db, code);
    Homely(db, db.codes[code].account, db.codes[code].user);
  }

  lemma CodeMember(db: Db, code: string)
    requires Closed(db) && code in db.codes
    ensures Member(db.memberships, db.codes[code].account, db.codes[code].user)
  {
    hide EmailsUnique, OneHome, SessionsHome, TokensHome, DevicesHome, AgentsHome, IdentitiesOk, VTokensOk;
    hide CodesMatchDevices, TokensMatchDevices, Member;
  }
}
