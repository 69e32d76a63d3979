/** The services of internal/auth, the pairing of internal/devices/pairing.go and the
    agent-session handlers of internal/api/sessions.go as methods of one object over the
    tables. A transaction works on a copy of the tables, `tx`, and commits by storing it
    back; returning before that is the rollback. Ids, random texts and clock readings are
    parameters. */
module AuthService {
  import opened Wrappers
  import opened Tables
  import opened Tenancy
  import opened AuthSteps
  import opened AuthInvariants
  import opened AuthSpec
  import P = PasswordText
  import S = Slug
  import Pair = PairCode

  class Service {
    const argon: P.Argon
    const sha256Hex: string -> string
    const sessionTTL: int
    const verifyTTL: int
    const resetTTL: int
    var db: Db
    var signed: map<string, Claims>  // the texts this service has signed

    ghost predicate Valid()
      reads this
    {
      Safe(db, signed)
    }

    constructor (argon: P.Argon, sha256Hex: string -> string, sessionTTL: int, verifyTTL: int, resetTTL: int)
      ensures Valid() && db == EMPTY && signed == map[]
    {
      this.argon, this.sha256Hex := argon, sha256Hex;
      this.sessionTTL, this.verifyTTL, this.resetTTL := sessionTTL, verifyTTL, resetTTL;
      db, signed := EMPTY, map[];
    }

    // -------------------------------------------------------------- verification tokens

    method CreateVerificationToken(id: Id, purpose: Purpose, user: Id, email: string, raw: string, ttl: int, now: Time)
      returns (ok: bool)
      requires Valid()
      modifies this`db
      ensures Valid() && Grows(old(db), db)
      ensures ok <==> id != "" && email != "" && ttl >= 0 && id !in old(db).vtokens
                      && !VTokenHash(old(db).vtokens, sha256Hex(raw)) && user in old(db).users
      ensures db == if !ok then old(db) else
                old(db).(vtokens := old(db).vtokens[id :=
                  VToken(purpose, user, email, sha256Hex(raw), ExpiresAfter(now, ttl), None)])
      ensures ok ==> Lasts(db.vtokens[id].expires, now, ttl)
    {
      hide Closed, SignedOk, Grows, VTokenHash;
      ExpiryLasts(now, ttl);
      GrowsRefl(db);
      if id == "" || email == "" || ttl < 0 {
        return false;
      }
      var row := VToken(purpose, user, email, sha256Hex(raw), ExpiresAfter(now, ttl), None);
      var r := InsertVToken(db, id, row);
      if r.None? {
        return false;
      }
      VTokenClosed(db, id, row);
      Commit(db, r.value, signed);
      db := r.value;
      ok := true;
    }

    /** One transaction: a token that is not there for this purpose, or used, or past its
        expiry leaves the tables alone. */
    method ConsumeVerificationToken(raw: string, purpose: Purpose, now: Time) returns (r: Result<Id, Error>)
      requires Valid()
      modifies this`db
      ensures Valid() && Grows(old(db), db)
      ensures var spec := ConsumeVToken(old(db), sha256Hex(raw), purpose, now);
              if spec.Ok? then (db, r) == (spec.value.0, Ok(spec.value.1)) else (db, r) == (old(db), Err(spec.error))
      ensures forall t :: MayConsume(old(db), t, sha256Hex(raw), purpose, now) ==> r == Ok(t)
      ensures r.Ok? ==> MayConsume(old(db), r.value, sha256Hex(raw), purpose, now) && UsesUp(old(db), r.value, now, db)
      ensures r == Err(Expired) <==> exists t :: TooLate(old(db), t, sha256Hex(raw), purpose, now)
    {
      hide Closed, SignedOk, Grows;
      ConsumeExactly(db, sha256Hex(raw), purpose, now);
      GrowsRefl(db);
      var hash := sha256Hex(raw);
      var tx := db;
      if !exists t :: t in tx.vtokens && tx.vtokens[t].hash == hash && tx.vtokens[t].purpose == purpose {
        return Err(NotFound);
      }
      var t :| t in tx.vtokens && tx.vtokens[t].hash == hash && tx.vtokens[t].purpose == purpose;
      OneVToken(db, t, purpose);
      hide FindVToken;
      if tx.vtokens[t].consumed.Some? {
        return Err(NotFound);
      }
      if now > tx.vtokens[t].expires {
        return Err(Expired);
      }
      tx := tx.(vtokens := tx.vtokens[t := tx.vtokens[t].(consumed := Some(now))]);
      ConsumeVTokenClosed(db, hash, purpose, now);
      Commit(db, tx, signed);
      db := tx;
      r := Ok(t);
    }

    method GetUserByEmail(email: string) returns (u: Option<Id>)
      requires Valid()
      ensures u == FindUser(db.users, email)
    {
      hide Closed, SignedOk;
      if !exists v :: v in db.users && db.users[v].email == email {
        return None;
      }
      var v :| v in db.users && db.users[v].email == email;
      OneUser(db, v);
      u := Some(v);
    }

    /** The account of the oldest membership. */
    method ResolveAccount(user: Id) returns (account: Option<Id>)
      requires Valid() && user in db.users
      ensures account.Some? && account == AccountOf(db.memberships, user)
      ensures Member(db.memberships, account.value, user) && account.value in db.accounts
    {
      hide Closed, SignedOk;
      AccountOfMember(db, user);
      if !exists m :: m in db.memberships && Oldest(db.memberships, user, m) {
        return None;
      }
      var m :| m in db.memberships && Oldest(db.memberships, user, m);
      OneMembership(db, m);
      account := Some(db.memberships[m].account);
    }

    // -------------------------------------------------------------- signup, verification, reset

    /** User, account and membership come together or not at all. A verification token that
        cannot be stored fails the call but leaves the tenant. */
    method Signup(email: string, password: seq<P.byte>, salt: seq<P.byte>, accountName: string,
                  u: Id, a: Id, m: Id, tokenId: Id, raw: string, now: Time)
      returns (r: Result<Tenant, Error>)
      requires Valid()
      modifies this`db
      ensures Valid() && Grows(old(db), db)
      ensures email == "" || password == [] ==> r == Err(BadInput) && db == old(db)
      ensures email != "" && password != [] ==>
                var user := User(email, P.HashPassword(argon, password, salt).value, false);
                var created := CreateTenant(old(db), u, user, a, S.SlugOf(accountName, a), m, Stored(now));
                if created.None? then r == Err(Constraint) && db == old(db)
                else
                  var row := VToken(EmailVerify, u, email, sha256Hex(raw), ExpiresAfter(now, verifyTTL), None);
                  var mailed := InsertVToken(created.value, tokenId, row);
                  if tokenId != "" && verifyTTL >= 0 && mailed.Some? then r == Ok(Tenant(u, a)) && db == mailed.value
                  else r == Err(Constraint) && db == created.value
      ensures r.Ok? ==> Member(db.memberships, a, u) && u in db.users && !db.users[u].verified
    {
      hide Closed, SignedOk, Grows, EmailTaken, SlugTaken, Member, VTokenHash, Stored, P.Print;
      GrowsRefl(db);
      if email == "" || password == [] {
        return Err(BadInput);
      }
      var hash := P.HashPassword(argon, password, salt);
      var slug := S.Slugify(accountName, a);
      var user := User(email, hash.value, false);
      ghost var before, created := db, CreateTenant(db, u, user, a, slug, m, Stored(now));

      var tx := InsertUser(db, u, user);
      if tx.None? {
        return Err(Constraint);
      }
      tx := InsertAccount(tx.value, a, Account(slug));
      if tx.None? {
        return Err(Constraint);
      }
      tx := InsertMembership(tx.value, m, Membership(a, u, Stored(now)));
      if tx.None? {
        return Err(Constraint);
      }
      TenantClosed(db, u, user, a, slug, m, Stored(now));
      Commit(db, tx.value, signed);
      db := tx.value;

      var ok := CreateVerificationToken(tokenId, EmailVerify, u, email, raw, verifyTTL, now);
      GrowsTrans(before, tx.value, db);
      r := if ok then Ok(Tenant(u, a)) else Err(Constraint);
    }

    /** Two statements: the token is consumed first, then its user is marked. */
    method VerifyEmail(raw: string, now: Time) returns (r: Result<Id, Error>)
      requires Valid()
      modifies this`db
      ensures Valid() && Grows(old(db), db)
      ensures var spec := ConsumeVToken(old(db), sha256Hex(raw), EmailVerify, now);
              if spec.Err? then r == Err(spec.error) && db == old(db)
              else r == Ok(spec.value.1) && spec.value.1 in old(db).vtokens
                   && db == MarkVerified(spec.value.0, old(db).vtokens[spec.value.1].user)
      ensures forall t :: MayConsume(old(db), t, sha256Hex(raw), EmailVerify, now) ==> r == Ok(t)
      ensures r.Ok? ==>
                && MayConsume(old(db), r.value, sha256Hex(raw), EmailVerify, now)
                && UsesUp(old(db), r.value, now, db.(users := old(db).users))
                && var u := old(db).vtokens[r.value].user;
                   u in old(db).users && db.users == old(db).users[u := old(db).users[u].(verified := true)]
    {
      hide Closed, SignedOk, Grows;
      ghost var before := db;
      r := ConsumeVerificationToken(raw, EmailVerify, now);
      if r.Err? {
        return;
      }
      ConsumeRows(before, sha256Hex(raw), EmailVerify, now);
      hide ConsumeVToken;
      var user := db.vtokens[r.value].user;
      VTokenUser(db, r.value);
      UserRowClosed(db, user, db.users[user].(verified := true));
      ghost var mid := db;
      var tx := MarkVerified(db, user);
      Commit(db, tx, signed);
      db := tx;
      GrowsTrans(before, mid, db);
    }

    method ResetPassword(raw: string, password: seq<P.byte>, salt: seq<P.byte>, now: Time)
      returns (r: Result<Id, Error>)
      requires Valid()
      modifies this`db
      ensures Valid() && Grows(old(db), db)
      ensures password == [] ==> r == Err(BadInput) && db == old(db)
      ensures var spec := ConsumeVToken(old(db), sha256Hex(raw), PasswordReset, now);
              password != [] ==>
                if spec.Err? then r == Err(spec.error) && db == old(db)
                else r == Ok(spec.value.1) && spec.value.1 in old(db).vtokens
                     && db == SetPassword(spec.value.0, old(db).vtokens[spec.value.1].user,
                                          P.HashPassword(argon, password, salt).value)
      ensures forall t :: password != [] && MayConsume(old(db), t, sha256Hex(raw), PasswordReset, now) ==> r == Ok(t)
      ensures r.Ok? ==>
                && password != [] && MayConsume(old(db), r.value, sha256Hex(raw), PasswordReset, now)
                && UsesUp(old(db), r.value, now, db.(users := old(db).users))
                && var u := old(db).vtokens[r.value].user;
                   u in old(db).users && db.users == old(db).users[
                     u := old(db).users[u].(passwordHash := P.HashPassword(argon, password, salt).value)]
    {
      hide Closed, SignedOk, Grows, P.Print;
      GrowsRefl(db);
      if password == [] {
        return Err(BadInput);
      }
      ghost var before := db;
      r := ConsumeVerificationToken(raw, PasswordReset, now);
      if r.Err? {
        return;
      }
      ConsumeRows(before, sha256Hex(raw), PasswordReset, now);
      hide ConsumeVToken;
      var hash := P.HashPassword(argon, password, salt);
      var user := db.vtokens[r.value].user;
      VTokenUser(db, r.value);
      UserRowClosed(db, user, db.users[user].(passwordHash := hash.value));
      ghost var mid := db;
      var tx := SetPassword(db, user, hash.value);
      Commit(db, tx, signed);
      db := tx;
      GrowsTrans(before, mid, db);
    }

    // -------------------------------------------------------------- logins

    /** The session row and the text signed for it. A signature that fails leaves the row. */
    method OpenSession(user: Id, account: Id, session: Id, text: string, now: Time) returns (r: Result<LoggedIn, Error>)
      requires Valid() && Member(db.memberships, account, user) && user in db.users && account in db.accounts
      modifies this`db, this`signed
      ensures Valid() && Grows(old(db), db)
      ensures var (db', signed', answer) :=
                SessionOpened(old(db), old(signed), user, account, session, text, sessionTTL, now);
              db == db' && signed == signed'
              && (if answer.Some? then r == Ok(answer.value) else r.Err? && r.error in {BadInput, Constraint})
      ensures r.Ok? ==> session !in old(db).sessions && session in db.sessions && text in signed
                        && signed[text] == Claims(session, db.sessions[session].user, db.sessions[session].account)
    {
      hide Closed, SignedOk, Grows, Member;
      GrowsRefl(db);
      if sessionTTL <= 0 {
        return Err(BadInput);
      }
      var row := Session(user, account, ExpiresAfter(now, sessionTTL), false);
      var tx := InsertSession(db, session, row);
      if tx.None? {
        return Err(Constraint);
      }
      SessionClosed(db, session, row);
      Commit(db, tx.value, signed);
      db := tx.value;
      if session == "" || user == "" || account == "" {
        return Err(BadInput);
      }
      Signs(db, signed, text, Claims(session, user, account));
      signed := signed[text := Claims(session, user, account)];
      r := Ok(LoggedIn(text, session, user, account));
    }

    /** A session is opened exactly for a verified user whose password verifies, under the
        user's account. */
    method Login(email: string, password: seq<P.byte>, session: Id, text: string, now: Time)
      returns (r: Result<LoggedIn, Error>)
      requires Valid()
      modifies this`db, this`signed
      ensures Valid() && Grows(old(db), db)
      ensures Authenticated(old(db), argon, email, password).Err? ==>
                r == Err(Authenticated(old(db), argon, email, password).error) && db == old(db) && signed == old(signed)
      ensures var auth := Authenticated(old(db), argon, email, password);
              auth.Ok? ==>
                var account := AccountOf(old(db).memberships, auth.value);
                && account.Some?
                && var (db', signed', answer) :=
                     SessionOpened(old(db), old(signed), auth.value, account.value, session, text, sessionTTL, now);
                   db == db' && signed == signed' && (if answer.Some? then r == Ok(answer.value) else r.Err?)
      ensures r.Ok? <==> sessionTTL > 0 && session != "" && session !in old(db).sessions
                         && exists v, a :: MayLogIn(old(db), argon, email, password, v) && v != "" && a != ""
                                           && Member(old(db).memberships, a, v)
      ensures r.Ok? ==> MayLogIn(old(db), argon, email, password, r.value.user)
                        && Opens(old(db), session, r.value.user, r.value.account, sessionTTL, now, db)
      ensures r == Err(EmailNotVerified) <==> exists v :: NotYetVerified(old(db), argon, email, password, v)
      ensures r == Err(InvalidCredentials)
              <==> forall v :: !MayLogIn(old(db), argon, email, password, v)
                               && !NotYetVerified(old(db), argon, email, password, v)
      ensures r.Ok? ==>
                && Authenticated(old(db), argon, email, password) == Ok(r.value.user)
                && r.value.user in db.users && db.users[r.value.user].verified
                && AccountOf(db.memberships, r.value.user) == Some(r.value.account)
                && r.value.session == session && session !in old(db).sessions && r.value.token == text
                && db == old(db).(sessions := old(db).sessions[session :=
                                    Session(r.value.user, r.value.account, ExpiresAfter(now, sessionTTL), false)])
                && signed == old(signed)[text := Claims(session, r.value.user, r.value.account)]
    {
      hide Closed, SignedOk, Grows, Member, AccountOf, P.VerifyPassword;
      GrowsRefl(db);
      AuthenticatedExactly(db, argon, email, password);
      var u := GetUserByEmail(email);
      if u.None? || db.users[u.value].passwordHash == "" {
        return Err(InvalidCredentials);
      }
      var ok := P.VerifyPassword(argon, password, db.users[u.value].passwordHash);
      if ok != P.ACCEPTED {
        return Err(InvalidCredentials);
      }
      if !db.users[u.value].verified {
        return Err(EmailNotVerified);
      }
      var account := ResolveAccount(u.value);
      LoginExactly(db, argon, email, password, u.value, account.value);
      SessionOpenedExactly(db, signed, u.value, account.value, session, text, sessionTTL, now);
      r := OpenSession(u.value, account.value, session, text, now);
    }

    method UpsertIdentity(provider: string, subject: string, email: string, name: string,
                          u: Id, a: Id, m: Id, i: Id, now: Time)
      returns (r: Result<(Id, Id, bool), Error>)
      requires Valid()
      modifies this`db
      ensures Valid() && Grows(old(db), db)
      ensures var spec := Upserted(old(db), provider, subject, email, S.SlugOf(name, a), u, a, m, i, Stored(now));
              if spec.Err? then r.Err? && db == old(db)
              else r.Ok? && db == spec.value.0 && r.value.0 == spec.value.1 && r.value.2 == spec.value.2
      ensures r.Ok? ==>
                && r.value.0 in db.users && r.value.1 in db.accounts && Member(db.memberships, r.value.1, r.value.0)
                && AccountOf(db.memberships, r.value.0) == Some(r.value.1)
                && IdentifiedBy(db.identities, provider, subject, r.value.0)
    {
      hide Closed, SignedOk, Grows, Member, AccountOf, EmailTaken, SlugTaken, Stored;
      GrowsRefl(db);
      if exists j :: j in db.identities && IsIdentity(db.identities[j], provider, subject) {
        var j :| j in db.identities && IsIdentity(db.identities[j], provider, subject);
        OneIdentityRow(db, j, provider, subject);
        var known := ResolveAccount(db.identities[j].user);
        return Ok((db.identities[j].user, known.value, false));
      }
      ghost var before := db;
      var v := GetUserByEmail(email);
      if v.Some? {
        var row := Identity(v.value, provider, subject, email);
        var linked := InsertIdentity(db, i, row);
        if linked.None? {
          return Err(Constraint);
        }
        FoundUser(db, email);
        IdentityClosed(db, i, row);
        Commit(db, linked.value, signed);
        db := linked.value;
        OneIdentityRow(db, i, provider, subject);
        var account := ResolveAccount(v.value);
        return Ok((v.value, account.value, false));
      }
      var slug := S.Slugify(name, a);
      var tx := InsertUser(db, u, User(email, "", true));
      if tx.None? {
        return Err(Constraint);
      }
      tx := InsertAccount(tx.value, a, Account(slug));
      if tx.None? {
        return Err(Constraint);
      }
      tx := InsertMembership(tx.value, m, Membership(a, u, Stored(now)));
      if tx.None? {
        return Err(Constraint);
      }
      tx := InsertIdentity(tx.value, i, Identity(u, provider, subject, email));
      if tx.None? {
        return Err(Constraint);
      }
      OAuthRows(db, u, a, slug, m, Stored(now), i, provider, subject, email);
      OAuthTenantClosed(db, u, a, slug, m, Stored(now), i, provider, subject, email);
      Commit(db, tx.value, signed);
      db := tx.value;
      OneIdentityRow(db, i, provider, subject);
      OneAccount(db, u, a, a);
      AccountOfMember(db, u);
      r := Ok((u, a, true));
    }

    /** After the provider has answered with subject and email. */
    method FinishLogin(provider: string, subject: string, email: string, name: string,
                       u: Id, a: Id, m: Id, i: Id, session: Id, text: string, now: Time)
      returns (r: Result<(LoggedIn, bool), Error>)
      requires Valid()
      modifies this`db, this`signed
      ensures Valid() && Grows(old(db), db)
      ensures email == "" || subject == "" ==> r == Err(BadInput) && db == old(db) && signed == old(signed)
      ensures var spec := Upserted(old(db), provider, subject, email, S.SlugOf(name, a), u, a, m, i, Stored(now));
              email != "" && subject != "" ==>
                if spec.Err? then r.Err? && db == old(db) && signed == old(signed)
                else LoginEnds(spec.value, old(signed), session, text, sessionTTL, now, db, signed, r)
      ensures r.Ok? <==> email != "" && subject != "" && sessionTTL > 0 && session != "" && session !in old(db).sessions
                         && exists v, b :: Lands(old(db), provider, subject, email, S.SlugOf(name, a), u, a, m, i, v, b)
                                           && v != "" && b != ""
      ensures r.Ok? ==> Lands(old(db), provider, subject, email, S.SlugOf(name, a), u, a, m, i,
                              r.value.0.user, r.value.0.account)
      ensures r.Ok? ==>
                && Answers(Upserted(old(db), provider, subject, email, S.SlugOf(name, a), u, a, m, i, Stored(now)),
                           r.value.0.user, r.value.1)
                && IdentifiedBy(db.identities, provider, subject, r.value.0.user)
                && Member(db.memberships, r.value.0.account, r.value.0.user)
                && text in signed && signed[text] == Claims(session, r.value.0.user, r.value.0.account)
                && session !in old(db).sessions && session in db.sessions
                && db.sessions[session] ==
                     Session(r.value.0.user, r.value.0.account, ExpiresAfter(now, sessionTTL), false)
    {
      hide Closed, SignedOk, Grows, Member, AccountOf, Upserted, IdentifiedBy, Lands, Stored;
      GrowsRefl(db);
      UpsertLands(db, provider, subject, email, S.SlugOf(name, a), u, a, m, i, Stored(now));
      if email == "" || subject == "" {
        return Err(BadInput);
      }
      ghost var before := db;
      var identity := UpsertIdentity(provider, subject, email, name, u, a, m, i, now);
      if identity.Err? {
        return Err(identity.error);
      }
      ghost var mid := db;
      var login := OpenSession(identity.value.0, identity.value.1, session, text, now);
      GrowsTrans(before, mid, db);
      if login.Ok? {
        SessionsStay(before, mid, session);
      }
      r := if login.Ok? then Ok((login.value, identity.value.2)) else Err(login.error);
    }

    // -------------------------------------------------------------- sessions and API tokens

    method CheckSessionActive(session: Id, now: Time) returns (r: Result<(), Error>)
      ensures r == Tables.CheckSessionActive(db, session, now)
      ensures r.Ok? <==> session in db.sessions && !db.sessions[session].revoked && now <= db.sessions[session].expires
    {
      if session !in db.sessions {
        return Err(Revoked);
      }
      var row := db.sessions[session];
      if row.revoked {
        return Err(Revoked);
      }
      if now > row.expires {
        return Err(Expired);
      }
      r := Ok(());
    }

    /** From here on the session is never active again. */
    method RevokeSession(session: Id)
      requires Valid()
      modifies this`db
      ensures Valid() && Grows(old(db), db) && db == Tables.RevokeSession(old(db), session)
      ensures forall now :: Tables.CheckSessionActive(db, session, now) == Err(Revoked)
      ensures if session in old(db).sessions then
                db == old(db).(sessions := old(db).sessions[session := old(db).sessions[session].(revoked := true)])
              else db == old(db)
    {
      hide Closed, SignedOk, Grows;
      RevokeSessionClosed(db, session);
      var tx := db;
      if session in tx.sessions {
        tx := tx.(sessions := tx.sessions[session := tx.sessions[session].(revoked := true)]);
      }
      Commit(db, tx, signed);
      db := tx;
    }

    /** One row under the hash of the raw token, or a refusal that changes nothing. The tables
        stay closed exactly for a member's token bound to no device, which is what the one
        caller asks for; a device's token comes with its claim. */
    method CreateAPIToken(id: Id, account: Id, user: Id, device: Option<Id>, raw: string, expires: Option<Time>)
      returns (ok: bool)
      requires Valid()
      modifies this`db
      ensures var bound := if device == Some("") then None else device;
              var row := ApiToken(account, user, bound, sha256Hex(raw),
                                  if expires.Some? then Some(Stored(expires.value)) else None, false);
              db == if ok then old(db).(tokens := old(db).tokens[id := row]) else old(db)
      ensures ok <==> id != "" && account != "" && user != "" && id !in old(db).tokens
                      && !TokenHash(old(db).tokens, sha256Hex(raw))
                      && user in old(db).users && account in old(db).accounts
      ensures forall at :: ok && expires.Some? ==>
                && (at <= expires.value - 1_000_000_000 ==> LiveApiToken(db, id, sha256Hex(raw), at))
                && (expires.value < at ==> !LiveApiToken(db, id, sha256Hex(raw), at))
      ensures forall at :: ok && expires.None? ==> LiveApiToken(db, id, sha256Hex(raw), at)
      ensures Grows(old(db), db)
      ensures Valid() <==> !ok || (Member(old(db).memberships, account, user) && (device == None || device == Some("")))
    {
      hide Closed, SignedOk, Grows, Member, TokenHash;
      GrowsRefl(db);
      if id == "" || account == "" || user == "" {
        return false;
      }
      var until := if expires.Some? then Some(Stored(expires.value)) else None;
      if expires.Some? { StoredIs(expires.value); }
      var bound := if device == Some("") then None else device;
      var row := ApiToken(account, user, bound, sha256Hex(raw), until, false);
      var tx := InsertToken(db, id, row);
      if tx.None? {
        return false;
      }
      TokenGrows(db, id, row);
      TokenClosedIff(db, id, row);
      SafeIff(db, tx.value, signed);
      db := tx.value;
      ok := true;
    }

    method LookupAPIToken(raw: string, now: Time) returns (r: Result<Id, Error>)
      requires Valid()
      ensures r == LookupToken(db, sha256Hex(raw), now)
      ensures r.Ok? ==>
                && r.value in db.tokens && db.tokens[r.value].hash == sha256Hex(raw) && !db.tokens[r.value].revoked
                && (db.tokens[r.value].expires.Some? ==> now <= db.tokens[r.value].expires.value)
      ensures r.Err? ==> forall t :: t in db.tokens && db.tokens[t].hash == sha256Hex(raw) ==>
                           db.tokens[t].revoked || (db.tokens[t].expires.Some? && now > db.tokens[t].expires.value)
    {
      hide Closed, SignedOk;
      var hash := sha256Hex(raw);
      if !exists t :: t in db.tokens && db.tokens[t].hash == hash {
        return Err(NotFound);
      }
      var t :| t in db.tokens && db.tokens[t].hash == hash;
      OneToken(db, t);
      forall t' | t' in db.tokens && db.tokens[t'].hash == hash ensures t' == t {
        OneToken(db, t');
      }
      hide FindToken;
      var row := db.tokens[t];
      if row.revoked {
        return Err(NotFound);
      }
      if row.expires.Some? && now > row.expires.value {
        return Err(Expired);
      }
      r := Ok(t);
    }

    /** From here on no lookup returns the token, at any time. */
    method RevokeAPIToken(id: Id)
      requires Valid()
      modifies this`db
      ensures Valid() && Grows(old(db), db) && db == RevokeToken(old(db), id)
      ensures forall hash, now :: LookupToken(db, hash, now) != Ok(id)
      ensures if id in old(db).tokens then
                db == old(db).(tokens := old(db).tokens[id := old(db).tokens[id].(revoked := true)])
              else db == old(db)
    {
      hide Closed, SignedOk, Grows;
      RevokeTokenClosed(db, id);
      var tx := db;
      if id in tx.tokens {
        tx := tx.(tokens := tx.tokens[id := tx.tokens[id].(revoked := true)]);
      }
      Commit(db, tx, signed);
      db := tx;
    }

    /** The context of a request, or none. Whatever the header, a request that gets through
        runs as the one account of its user, on a device of both if on any. */
    method RequireAuthOrToken(header: string, unexpired: bool, now: Time) returns (ctx: Option<Context>)
      requires Valid()
      ensures ctx == ContextOf(db, signed, sha256Hex, header, unexpired, now)
      ensures ctx.Some? ==> AtHome(db, ctx.value)
      ensures ctx.Some? ==> AccountOf(db.memberships, ctx.value.user) == Some(ctx.value.account)
    {
      hide Closed, SignedOk, Member, AccountOf, TrimSpace, LookupToken, Tables.CheckSessionActive;
      ctx := None;
      if "Bearer " <= header {
        var text := TrimSpace(header[|"Bearer "|..]);
        if text !in signed || !unexpired {
          return;
        }
        var claims := signed[text];
        var active := CheckSessionActive(claims.session, now);
        if active.Err? {
          return;
        }
        SignedAtHome(db, signed, text);
        ctx := Some(Context(claims.user, claims.account, claims.session, None));
      } else if "Token " <= header {
        var raw := TrimSpace(header[|"Token "|..]);
        if !("ahs_" <= raw) {
          return;
        }
        var t := LookupAPIToken(raw, now);
        if t.Err? {
          return;
        }
        FoundToken(db, sha256Hex(raw), now);
        var row := db.tokens[t.value];
        var device := if row.device == Some("") then None else row.device;
        TokenAtHome(db, t.value, device);
        ctx := Some(Context(row.user, row.account, API_TOKEN_PREFIX + t.value, device));
      }
      if ctx.Some? {
        OneAccount(db, ctx.value.user, ctx.value.account, ctx.value.account);
        AccountOfMember(db, ctx.value.user);
      }
    }

    // -------------------------------------------------------------- pairing

    /** A random code for the account and user, live for the given time, five minutes if that
        is zero. The tables stay closed exactly if the user is a member, as every caller's is. */
    method IssuePairCode(account: Id, user: Id, ttl: int, buf: array<Pair.byte>, now: Time)
      returns (code: Option<string>)
      requires Valid() && buf.Length == Pair.CODE_LEN
      modifies this`db
      ensures var drawn := Pair.Filled(buf[..]);
              && (code.Some? <==> account != "" && user != "" && drawn !in old(db).codes
                                  && user in old(db).users && account in old(db).accounts)
              && (code.Some? ==> code.value == drawn)
              && db == if code.None? then old(db) else
                   old(db).(codes := old(db).codes[drawn :=
                     PairCode(account, user, Stored(now + if ttl == 0 then PAIR_CODE_TTL else ttl), None)])
      ensures var live := if ttl == 0 then 300_000_000_000 else ttl;
              forall at :: code.Some? ==>
                && (at <= now + live - 1_000_000_000 ==> LiveCode(db, code.value, at))
                && (now + live < at ==> !LiveCode(db, code.value, at))
      ensures Grows(old(db), db)
      ensures Valid() <==> code.None? || Member(old(db).memberships, account, user)
    {
      hide Closed, SignedOk, Grows, Member, Pair.Filled;
      GrowsRefl(db);
      if account == "" || user == "" {
        return None;
      }
      var live := ttl;
      if live == 0 {
        live := PAIR_CODE_TTL;
      }
      StoredIs(now + live);
      var drawn := Pair.RandomPairCode(buf);
      var row := PairCode(account, user, Stored(now + live), None);
      var tx := InsertCode(db, drawn, row);
      if tx.None? {
        return None;
      }
      CodeGrows(db, drawn, row);
      CodeClosedIff(db, drawn, row);
      SafeIff(db, tx.value, signed);
      db := tx.value;
      code := Some(drawn);
    }

    /** A claim failing before its commit changes nothing; one whose key cannot be minted
        keeps the consumed code, the device and the token. `minted` is how minting ends. */
    method ClaimDevice(code: string, d: Id, t: Id, raw: string, minted: bool, now: Time)
      returns (r: Result<Tenant, Error>)
      requires Valid()
      modifies this`db
      ensures Valid() && Grows(old(db), db)
      ensures var spec := Tables.ClaimDevice(old(db), code, now, d, t, sha256Hex(raw));
              if spec.Err? then r == Err(spec.error) && db == old(db)
              else db == spec.value && (r.Ok? <==> minted)
      ensures r.Ok? ==>
                && d !in old(db).devices && d in db.devices
                && db.devices[d] == Device(r.value.account, r.value.user, false)
                && t !in old(db).tokens && t in db.tokens
                && db.tokens[t] == ApiToken(r.value.account, r.value.user, Some(d), sha256Hex(raw), None, false)
                && code in db.codes && DeviceOf(old(db).codes, code) == None && DeviceOf(db.codes, code) == Some(d)
                && Member(db.memberships, r.value.account, r.value.user)
    {
      hide Closed, SignedOk, Grows, Member, TokenHash;
      GrowsRefl(db);
      var hash := sha256Hex(raw);
      var tx := db;
      if code !in tx.codes || tx.codes[code].consumed.Some? {
        return Err(CodeInvalid);
      }
      var row := tx.codes[code];
      if now > row.expires {
        return Err(CodeInvalid);
      }
      tx := MarkConsumed(tx, code, d, now);
      var inserted := InsertDevice(tx, d, Device(row.account, row.user, false));
      if inserted.None? {
        return Err(Constraint);
      }
      tx := inserted.value;
      inserted := InsertToken(tx, t, ApiToken(row.account, row.user, Some(d), hash, None, false));
      if inserted.None? {
        return Err(Constraint);
      }
      tx := inserted.value;
      ClaimClosed(db, code, now, d, t, hash);
      DeviceMember(tx, d);
      Commit(db, tx, signed);
      db := tx;
      r := if minted then Ok(Tenant(row.user, row.account)) else Err(NotFound);
    }

    // -------------------------------------------------------------- agent sessions and devices

    /** Only a request from a device creates an agent session, under that device and its
        account. */
    method CreateAgentSession(ctx: Context, g: Id) returns (ok: bool)
      requires Valid() && AtHome(db, ctx)
      modifies this`db
      ensures Valid() && Grows(old(db), db)
      ensures ok <==> ctx.device.Some? && g != "" && ctx.account != "" && g !in old(db).agents
      ensures db == if !ok then old(db) else
                old(db).(agents := old(db).agents[g := AgentSession(ctx.account, ctx.device.value, true)])
    {
      hide Closed, SignedOk, Grows, Member;
      GrowsRefl(db);
      OneAccount(db, ctx.user, ctx.account, ctx.account);
      if ctx.device.None? || g == "" || ctx.account == "" {
        return false;
      }
      var row := AgentSession(ctx.account, ctx.device.value, true);
      var tx := InsertAgent(db, g, row);
      if tx.None? {
        return false;
      }
      AgentClosed(db, g, row);
      Commit(db, tx.value, signed);
      db := tx.value;
      ok := true;
    }

    /** An agent session answers only to the device that runs it. */
    method OwnsAgentSession(ctx: Context, g: Id) returns (ok: bool)
      requires Valid() && AtHome(db, ctx)
      ensures ok <==> ctx.device.Some? && g in db.agents && db.agents[g].device == ctx.device.value
    {
      hide Closed, SignedOk, Member;
      if ctx.device.None? || g !in db.agents {
        return false;
      }
      AgentAccount(db, g);
      ok := db.agents[g].account == ctx.account && db.agents[g].device == ctx.device.value;
    }

    method EndAgentSession(ctx: Context, g: Id) returns (ok: bool)
      requires Valid() && AtHome(db, ctx)
      modifies this`db
      ensures Valid() && Grows(old(db), db)
      ensures ok <==> ctx.device.Some? && g in old(db).agents && old(db).agents[g].device == ctx.device.value
      ensures db == if ok then
                old(db).(agents := old(db).agents[g := old(db).agents[g].(running := false)]) else old(db)
    {
      hide Closed, SignedOk, Grows, Member;
      GrowsRefl(db);
      ok := OwnsAgentSession(ctx, g);
      if ok {
        EndAgentClosed(db, g);
        var tx := EndAgent(db, g);
        Commit(db, tx, signed);
        db := tx;
      }
    }

    /** A device is deleted only from its own account. */
    method DeleteDevice(ctx: Context, d: Id) returns (ok: bool)
      requires Valid()
      modifies this`db
      ensures Valid() && Grows(old(db), db)
      ensures ok <==> d in old(db).devices && !old(db).devices[d].deleted && old(db).devices[d].account == ctx.account
      ensures db == if ok then
                old(db).(devices := old(db).devices[d := old(db).devices[d].(deleted := true)]) else old(db)
    {
      hide Closed, SignedOk, Grows;
      GrowsRefl(db);
      if d !in db.devices || db.devices[d].deleted || db.devices[d].account != ctx.account {
        return false;
      }
      DeleteDeviceClosed(db, d);
      var tx := Tables.DeleteDevice(db, d);
      Commit(db, tx, signed);
      db := tx;
      ok := true;
    }
  }
}
