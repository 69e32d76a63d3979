/** The tenancy invariant of the tables, and that every statement and transaction keeps it. */
module Tenancy {
  import opened Wrappers
  import opened Tables

  // ---------------------------------------------------------------- the invariant

  ghost predicate EmailsUnique(users: map<Id, User>) {
    forall u, v :: u in users && v in users && users[u].email == users[v].email ==> u == v
  }

  ghost predicate HasHome(memberships: map<Id, Membership>, user: Id) {
    exists m :: m in memberships && memberships[m].user == user
  }

  ghost predicate HasOwner(memberships: map<Id, Membership>, account: Id) {
    exists m :: m in memberships && memberships[m].account == account
  }

  /** Users and accounts correspond one to one: each user has exactly one membership, and
      each account exactly one member. */
  ghost predicate OneHome(users: map<Id, User>, accounts: map<Id, Account>, memberships: map<Id, Membership>) {
    && (forall u {:trigger HasHome(memberships, u)} :: u in users ==> HasHome(memberships, u))
    && (forall a {:trigger HasOwner(memberships, a)} :: a in accounts ==> HasOwner(memberships, a))
    && (forall m :: m in memberships ==> memberships[m].user in users && memberships[m].account in accounts)
    && OneEach(memberships)
  }

  ghost predicate OneEach(memberships: map<Id, Membership>) {
    && (forall m, n :: m in memberships && n in memberships && memberships[m].user == memberships[n].user ==> m == n)
    && (forall m, n :: m in memberships && n in memberships ==>
          (memberships[m].account == memberships[n].account ==> m == n))
  }

  ghost predicate SessionsHome(memberships: map<Id, Membership>, sessions: map<Id, Session>) {
    forall s :: s in sessions ==> Member(memberships, sessions[s].account, sessions[s].user)
  }

  ghost predicate TokensHome(memberships: map<Id, Membership>, tokens: map<Id, ApiToken>) {
    && (forall t :: t in tokens ==> Member(memberships, tokens[t].account, tokens[t].user))
    && (forall t, t' :: t in tokens && t' in tokens && tokens[t].hash == tokens[t'].hash ==> t == t')
  }

  ghost predicate CodesHome(memberships: map<Id, Membership>, codes: map<string, PairCode>) {
    forall c :: c in codes ==> Member(memberships, codes[c].account, codes[c].user)
  }

  ghost predicate DevicesHome(memberships: map<Id, Membership>, devices: map<Id, Device>) {
    forall d :: d in devices ==> Member(memberships, devices[d].account, devices[d].user)
  }

  /** An agent session's account is its device's account. */
  ghost predicate AgentsHome(devices: map<Id, Device>, agents: map<Id, AgentSession>) {
    forall g :: g in agents ==> agents[g].device in devices && agents[g].account == devices[agents[g].device].account
  }

  ghost predicate IdentitiesOk(users: map<Id, User>, identities: map<Id, Identity>) {
    && (forall i :: i in identities ==> identities[i].user in users)
    && (forall i, j :: i in identities && j in identities ==>
          IsIdentity(identities[i], identities[j].provider, identities[j].subject) ==> i == j)
  }

  ghost predicate VTokensOk(users: map<Id, User>, vtokens: map<Id, VToken>) {
    && (forall t :: t in vtokens ==> vtokens[t].user in users)
    && (forall t :: t in vtokens && vtokens[t].consumed.Some? ==> vtokens[t].consumed.value <= vtokens[t].expires)
    && (forall t, t' :: t in vtokens && t' in vtokens && vtokens[t].hash == vtokens[t'].hash ==> t == t')
  }

  function DeviceOf(codes: map<string, PairCode>, code: string): Option<Id> {
    if code in codes && codes[code].consumed.Some? then Some(codes[code].consumed.value.device) else None
  }

  ghost predicate ComesFromCode(codes: map<string, PairCode>, d: Id) { exists c :: DeviceOf(codes, c) == Some(d) }

  ghost predicate HasToken(tokens: map<Id, ApiToken>, d: Id) { exists t :: t in tokens && tokens[t].device == Some(d) }

  /** Consumed codes and devices correspond one to one, agree on account and user, and no
      code was consumed after its expiry. */
  ghost predicate CodesMatchDevices(codes: map<string, PairCode>, devices: map<Id, Device>) {
    && (forall c :: c in codes && codes[c].consumed.Some? ==>
          && codes[c].consumed.value.device in devices
          && devices[codes[c].consumed.value.device].account == codes[c].account
          && devices[codes[c].consumed.value.device].user == codes[c].user
          && codes[c].consumed.value.at <= codes[c].expires)
    && (forall c, c' :: DeviceOf(codes, c).Some? && DeviceOf(codes, c) == DeviceOf(codes, c') ==> c == c')
    && (forall d {:trigger ComesFromCode(codes, d)} :: d in devices ==> ComesFromCode(codes, d))
  }

  /** Device-bound tokens and devices correspond one to one and agree on account and user. */
  ghost predicate TokensMatchDevices(tokens: map<Id, ApiToken>, devices: map<Id, Device>) {
    && (forall t :: t in tokens && tokens[t].device.Some? ==>
          && tokens[t].device.value in devices
          && devices[tokens[t].device.value].account == tokens[t].account
          && devices[tokens[t].device.value].user == tokens[t].user)
    && (forall t, t' :: t in tokens && t' in tokens && tokens[t].device.Some? ==>
          (tokens[t].device == tokens[t'].device ==> t == t'))
    && (forall d {:trigger HasToken(tokens, d)} :: d in devices ==> HasToken(tokens, d))
  }

  ghost predicate Closed(db: Db) {
    && EmailsUnique(db.users)
    && OneHome(db.users, db.accounts, db.memberships)
    && SessionsHome(db.memberships, db.sessions)
    && TokensHome(db.memberships, db.tokens)
    && CodesHome(db.memberships, db.codes)
    && DevicesHome(db.memberships, db.devices)
    && AgentsHome(db.devices, db.agents)
    && IdentitiesOk(db.users, db.identities)
    && VTokensOk(db.users, db.vtokens)
    && CodesMatchDevices(db.codes, db.devices)
    && TokensMatchDevices(db.tokens, db.devices)
  }

  // ---------------------------------------------------------------- what never goes back

  ghost predicate Kept<K, V>(old': map<K, V>, new': map<K, V>) {
    forall k :: k in old' ==> k in new' && new'[k] == old'[k]
  }

  ghost predicate UsersGrow(a: map<Id, User>, b: map<Id, User>) {
    forall u :: u in a ==> u in b && b[u].email == a[u].email && (a[u].verified ==> b[u].verified)
  }

  ghost predicate SessionsGrow(a: map<Id, Session>, b: map<Id, Session>) {
    forall s :: s in a ==> s in b && b[s] == a[s].(revoked := b[s].revoked) && (a[s].revoked ==> b[s].revoked)
  }

  ghost predicate VTokensGrow(a: map<Id, VToken>, b: map<Id, VToken>) {
    forall t :: t in a ==>
      t in b && b[t] == a[t].(consumed := b[t].consumed) && (a[t].consumed.Some? ==> b[t].consumed == a[t].consumed)
  }

  ghost predicate TokensGrow(a: map<Id, ApiToken>, b: map<Id, ApiToken>) {
    forall t :: t in a ==> t in b && b[t] == a[t].(revoked := b[t].revoked) && (a[t].revoked ==> b[t].revoked)
  }

  ghost predicate DevicesGrow(a: map<Id, Device>, b: map<Id, Device>) {
    forall d :: d in a ==> d in b && b[d] == a[d].(deleted := b[d].deleted) && (a[d].deleted ==> b[d].deleted)
  }

  ghost predicate CodesGrow(a: map<string, PairCode>, b: map<string, PairCode>) {
    forall c :: c in a ==>
      c in b && b[c] == a[c].(consumed := b[c].consumed) && (a[c].consumed.Some? ==> b[c].consumed == a[c].consumed)
  }

  ghost predicate AgentsGrow(a: map<Id, AgentSession>, b: map<Id, AgentSession>) {
    forall g :: g in a ==> g in b && b[g] == a[g].(running := b[g].running) && (b[g].running ==> a[g].running)
  }

  /** Rows stay, with their ids and owners; what is verified, consumed, revoked, deleted or
      ended stays so. */
  ghost predicate Grows(a: Db, b: Db) {
    && UsersGrow(a.users, b.users)
    && Kept(a.accounts, b.accounts)
    && Kept(a.memberships, b.memberships)
    && SessionsGrow(a.sessions, b.sessions)
    && VTokensGrow(a.vtokens, b.vtokens)
    && Kept(a.identities, b.identities)
    && TokensGrow(a.tokens, b.tokens)
    && DevicesGrow(a.devices, b.devices)
    && CodesGrow(a.codes, b.codes)
    && AgentsGrow(a.agents, b.agents)
  }

  lemma GrowsRefl(a: Db)
    ensures Grows(a, a)
  {}

  lemma KeptTrans<K, V>(a: map<K, V>, b: map<K, V>, c: map<K, V>)
    requires Kept(a, b) && Kept(b, c)
    ensures Kept(a, c)
  {}

  lemma AuthRowsTrans(a: Db, b: Db, c: Db)
    requires UsersGrow(a.users, b.users) && UsersGrow(b.users, c.users)
    requires SessionsGrow(a.sessions, b.sessions) && SessionsGrow(b.sessions, c.sessions)
    requires VTokensGrow(a.vtokens, b.vtokens) && VTokensGrow(b.vtokens, c.vtokens)
    ensures UsersGrow(a.users, c.users) && SessionsGrow(a.sessions, c.sessions) && VTokensGrow(a.vtokens, c.vtokens)
  {}

  lemma DeviceRowsTrans(a: Db, b: Db, c: Db)
    requires TokensGrow(a.tokens, b.tokens) && TokensGrow(b.tokens, c.tokens)
    requires DevicesGrow(a.devices, b.devices) && DevicesGrow(b.devices, c.devices)
    requires CodesGrow(a.codes, b.codes) && CodesGrow(b.codes, c.codes)
    requires AgentsGrow(a.agents, b.agents) && AgentsGrow(b.agents, c.agents)
    ensures TokensGrow(a.tokens, c.tokens) && DevicesGrow(a.devices, c.devices)
    ensures CodesGrow(a.codes, c.codes) && AgentsGrow(a.agents, c.agents)
  {}

  lemma GrowsTrans(a: Db, b: Db, c: Db)
    requires Grows(a, b) && Grows(b, c)
    ensures Grows(a, c)
  {
    hide UsersGrow, SessionsGrow, VTokensGrow, TokensGrow, DevicesGrow, CodesGrow, AgentsGrow, Kept;
    KeptTrans(a.accounts, b.accounts, c.accounts);
    KeptTrans(a.memberships, b.memberships, c.memberships);
    KeptTrans(a.identities, b.identities, c.identities);
    AuthRowsTrans(a, b, c);
    DeviceRowsTrans(a, b, c);
  }

  lemma MemberStays(a: map<Id, Membership>, b: map<Id, Membership>, account: Id, user: Id)
    requires Kept(a, b) && Member(a, account, user)
    ensures Member(b, account, user)
  {
    var m :| m in a && a[m].account == account && a[m].user == user;
    assert m in b;
  }

  lemma TheMembership(users: map<Id, User>, accounts: map<Id, Account>, ms: map<Id, Membership>, m: Id, n: Id)
    requires OneHome(users, accounts, ms) && m in ms && n in ms
    requires ms[m].user == ms[n].user || ms[m].account == ms[n].account
    ensures m == n && ms[m].user in users && ms[m].account in accounts
  {
    hide HasHome, HasOwner;
  }

  /** A user has one account. */
  lemma OneAccount(db: Db, user: Id, a: Id, b: Id)
    requires Closed(db) && Member(db.memberships, a, user) && Member(db.memberships, b, user)
    ensures a == b && user in db.users && a in db.accounts
  {
    hide EmailsUnique, SessionsHome, TokensHome, CodesHome, DevicesHome, AgentsHome, IdentitiesOk, VTokensOk;
    hide CodesMatchDevices, TokensMatchDevices;
    hide OneHome;
    var ms := db.memberships;
    var m :| m in ms && ms[m].account == a && ms[m].user == user;
    var n :| n in ms && ms[n].account == b && ms[n].user == user;
    TheMembership(db.users, db.accounts, ms, m, n);
  }

  /** The user's account as a login looks it up is the one the user is a member of. */
  lemma AccountOfMember(db: Db, user: Id)
    requires Closed(db) && user in db.users
    ensures AccountOf(db.memberships, user).Some?
    ensures forall a :: Member(db.memberships, a, user) <==> AccountOf(db.memberships, user) == Some(a)
  {
    hide EmailsUnique, SessionsHome, TokensHome, CodesHome, DevicesHome, AgentsHome, IdentitiesOk, VTokensOk;
    hide CodesMatchDevices, TokensMatchDevices;
    var ms := db.memberships;
    assert HasHome(ms, user);
    var m :| m in ms && ms[m].user == user;
    hide OneHome;
    forall n | n in ms && ms[n].user == user ensures n == m {
      TheMembership(db.users, db.accounts, ms, m, n);
    }
    assert Oldest(ms, user, m);
    assert Member(ms, ms[m].account, user);
  }

  // ---------------------------------------------------------------- statements

  lemma UserRow(users: map<Id, User>, accounts: map<Id, Account>, memberships: map<Id, Membership>,
                identities: map<Id, Identity>, vtokens: map<Id, VToken>, u: Id, row: User)
    requires EmailsUnique(users) && OneHome(users, accounts, memberships)
    requires IdentitiesOk(users, identities) && VTokensOk(users, vtokens)
    requires u in users && row.email == users[u].email && (users[u].verified ==> row.verified)
    ensures var users' := users[u := row];
            && EmailsUnique(users') && OneHome(users', accounts, memberships) && UsersGrow(users, users')
            && IdentitiesOk(users', identities) && VTokensOk(users', vtokens)
  {
    hide HasHome, HasOwner, IsIdentity, OneEach;
  }

  lemma UserRowClosed(db: Db, u: Id, row: User)
    requires Closed(db) && u in db.users && row.email == db.users[u].email && (db.users[u].verified ==> row.verified)
    ensures var db' := db.(users := db.users[u := row]); Closed(db') && Grows(db, db')
  {
    UserRow(db.users, db.accounts, db.memberships, db.identities, db.vtokens, u, row);
    GrowsRefl(db);
    hide EmailsUnique, OneHome, SessionsHome, TokensHome, CodesHome, DevicesHome, AgentsHome, IdentitiesOk, VTokensOk;
    hide CodesMatchDevices, TokensMatchDevices, Member;
    hide UsersGrow, SessionsGrow, VTokensGrow, TokensGrow, DevicesGrow, CodesGrow, AgentsGrow, Kept;
  }

  lemma SessionRow(ms: map<Id, Membership>, sessions: map<Id, Session>, s: Id, row: Session)
    requires SessionsHome(ms, sessions) && Member(ms, row.account, row.user)
    requires s in sessions ==> row == sessions[s].(revoked := true)
    ensures SessionsHome(ms, sessions[s := row]) && SessionsGrow(sessions, sessions[s := row])
  {
    hide Member;
  }

  lemma SessionClosed(db: Db, s: Id, row: Session)
    requires Closed(db) && InsertSession(db, s, row).Some? && Member(db.memberships, row.account, row.user)
    ensures Closed(InsertSession(db, s, row).value) && Grows(db, InsertSession(db, s, row).value)
  {
    SessionRow(db.memberships, db.sessions, s, row);
    GrowsRefl(db);
    hide EmailsUnique, OneHome, SessionsHome, TokensHome, CodesHome, DevicesHome, AgentsHome, IdentitiesOk, VTokensOk;
    hide CodesMatchDevices, TokensMatchDevices, Member;
    hide UsersGrow, SessionsGrow, VTokensGrow, TokensGrow, DevicesGrow, CodesGrow, AgentsGrow, Kept;
  }

  lemma RevokeSessionClosed(db: Db, s: Id)
    requires Closed(db)
    ensures Closed(RevokeSession(db, s)) && Grows(db, RevokeSession(db, s))
  {
    if s in db.sessions {
      SessionRow(db.memberships, db.sessions, s, db.sessions[s].(revoked := true));
    }
    GrowsRefl(db);
    hide EmailsUnique, OneHome, SessionsHome, TokensHome, CodesHome, DevicesHome, AgentsHome, IdentitiesOk, VTokensOk;
    hide CodesMatchDevices, TokensMatchDevices, Member;
    hide UsersGrow, SessionsGrow, VTokensGrow, TokensGrow, DevicesGrow, CodesGrow, AgentsGrow, Kept;
  }

  lemma VTokenRow(users: map<Id, User>, vtokens: map<Id, VToken>, t: Id, row: VToken)
    requires VTokensOk(users, vtokens) && row.user in users
    requires if t in vtokens then
               vtokens[t].consumed == None && row == vtokens[t].(consumed := row.consumed)
               && (row.consumed.Some? ==> row.consumed.value <= row.expires)
             else row.consumed == None && !VTokenHash(vtokens, row.hash)
    ensures VTokensOk(users, vtokens[t := row]) && VTokensGrow(vtokens, vtokens[t := row])
  {}

  lemma VTokenClosed(db: Db, t: Id, row: VToken)
    requires Closed(db) && InsertVToken(db, t, row).Some? && row.consumed == None
    ensures Closed(InsertVToken(db, t, row).value) && Grows(db, InsertVToken(db, t, row).value)
  {
    VTokenRow(db.users, db.vtokens, t, row);
    GrowsRefl(db);
    hide EmailsUnique, OneHome, SessionsHome, TokensHome, CodesHome, DevicesHome, AgentsHome, IdentitiesOk, VTokensOk;
    hide CodesMatchDevices, TokensMatchDevices, Member;
    hide UsersGrow, SessionsGrow, VTokensGrow, TokensGrow, DevicesGrow, CodesGrow, AgentsGrow, Kept;
    hide VTokenHash;
  }

  lemma ConsumeRows(db: Db, hash: string, purpose: Purpose, now: Time)
    requires ConsumeVToken(db, hash, purpose, now).Ok?
    ensures var (db', t) := ConsumeVToken(db, hash, purpose, now).value;
            && t in db.vtokens && db.vtokens[t].hash == hash && db.vtokens[t].purpose == purpose
            && db.vtokens[t].consumed == None && now <= db.vtokens[t].expires
            && db' == db.(vtokens := db.vtokens[t := db.vtokens[t].(consumed := Some(now))])
  {}

  lemma ConsumeVTokenClosed(db: Db, hash: string, purpose: Purpose, now: Time)
    requires Closed(db) && ConsumeVToken(db, hash, purpose, now).Ok?
    ensures var r := ConsumeVToken(db, hash, purpose, now).value; Closed(r.0) && Grows(db, r.0)
  {
    ConsumeRows(db, hash, purpose, now);
    hide ConsumeVToken;
    GrowsRefl(db);
    hide EmailsUnique, OneHome, SessionsHome, TokensHome, CodesHome, DevicesHome, AgentsHome, IdentitiesOk, VTokensOk;
    hide CodesMatchDevices, TokensMatchDevices, Member;
    hide UsersGrow, SessionsGrow, VTokensGrow, TokensGrow, DevicesGrow, CodesGrow, AgentsGrow, Kept;
    var t := ConsumeVToken(db, hash, purpose, now).value.1;
    assert db.vtokens[t].user in db.users by { ConsumedUser(db.users, db.vtokens, t); }
    VTokenRow(db.users, db.vtokens, t, db.vtokens[t].(consumed := Some(now)));
  }

  lemma ConsumedUser(users: map<Id, User>, vtokens: map<Id, VToken>, t: Id)
    requires VTokensOk(users, vtokens) && t in vtokens
    ensures vtokens[t].user in users
  {}

  lemma IdentityRow(users: map<Id, User>, identities: map<Id, Identity>, i: Id, row: Identity)
    requires IdentitiesOk(users, identities) && row.user in users
    requires i !in identities && !Known(identities, row.provider, row.subject)
    ensures IdentitiesOk(users, identities[i := row]) && Kept(identities, identities[i := row])
  {}

  lemma IdentityClosed(db: Db, i: Id, row: Identity)
    requires Closed(db) && InsertIdentity(db, i, row).Some?
    ensures Closed(InsertIdentity(db, i, row).value) && Grows(db, InsertIdentity(db, i, row).value)
  {
    IdentityRow(db.users, db.identities, i, row);
    GrowsRefl(db);
    hide EmailsUnique, OneHome, SessionsHome, TokensHome, CodesHome, DevicesHome, AgentsHome, IdentitiesOk, VTokensOk;
    hide CodesMatchDevices, TokensMatchDevices, Member;
    hide UsersGrow, SessionsGrow, VTokensGrow, TokensGrow, DevicesGrow, CodesGrow, AgentsGrow, Kept;
    hide Known;
  }

  /** Token rows with the same bindings still match the devices. */
  lemma SameBindings(a: map<Id, ApiToken>, b: map<Id, ApiToken>, devices: map<Id, Device>)
    requires TokensMatchDevices(a, devices)
    requires forall t :: t in a ==>
               t in b && b[t].device == a[t].device && b[t].account == a[t].account && b[t].user == a[t].user
    requires forall t :: t in b && t !in a ==> b[t].device == None
    ensures TokensMatchDevices(b, devices)
  {
    forall d | d in devices ensures HasToken(b, d) {
      assert HasToken(a, d);
      var t :| t in a && a[t].device == Some(d);
      assert t in b;
    }
    hide HasToken;
  }

  lemma TokenRow(ms: map<Id, Membership>, tokens: map<Id, ApiToken>, t: Id, row: ApiToken)
    requires TokensHome(ms, tokens) && Member(ms, row.account, row.user)
    requires if t in tokens then row == tokens[t].(revoked := true) else !TokenHash(tokens, row.hash)
    ensures TokensHome(ms, tokens[t := row]) && TokensGrow(tokens, tokens[t := row])
  {
    hide Member;
  }

  lemma TokenClosed(db: Db, t: Id, row: ApiToken)
    requires Closed(db) && InsertToken(db, t, row).Some? && Member(db.memberships, row.account, row.user)
    requires row.device == None
    ensures Closed(InsertToken(db, t, row).value) && Grows(db, InsertToken(db, t, row).value)
  {
    GrowsRefl(db);
    hide EmailsUnique, OneHome, SessionsHome, TokensHome, CodesHome, DevicesHome, AgentsHome, IdentitiesOk, VTokensOk;
    hide CodesMatchDevices, TokensMatchDevices, Member;
    hide UsersGrow, SessionsGrow, VTokensGrow, TokensGrow, DevicesGrow, CodesGrow, AgentsGrow, Kept;
    hide TokenHash;
    TokenRow(db.memberships, db.tokens, t, row);
    SameBindings(db.tokens, db.tokens[t := row], db.devices);
  }

  lemma TokenGrows(db: Db, t: Id, row: ApiToken)
    requires InsertToken(db, t, row).Some?
    ensures Grows(db, InsertToken(db, t, row).value)
  {
    GrowsRefl(db);
    hide UsersGrow, SessionsGrow, VTokensGrow, DevicesGrow, CodesGrow, AgentsGrow, Kept, TokenHash;
  }

  /** A new token keeps the tables closed exactly if it is a member's and bound to no device. */
  lemma TokenClosedIff(db: Db, t: Id, row: ApiToken)
    requires Closed(db) && InsertToken(db, t, row).Some?
    ensures Closed(InsertToken(db, t, row).value)
        <==> Member(db.memberships, row.account, row.user) && row.device == None
  {
    if Member(db.memberships, row.account, row.user) && row.device == None {
      TokenClosed(db, t, row);
    } else {
      BadToken(db.memberships, db.tokens, db.devices, t, row);
    }
    hide Member, EmailsUnique, OneHome, SessionsHome, TokensHome, CodesHome, DevicesHome, AgentsHome, IdentitiesOk;
    hide VTokensOk, CodesMatchDevices, TokensMatchDevices, TokenHash;
  }

  lemma BadToken(ms: map<Id, Membership>, tokens: map<Id, ApiToken>, devices: map<Id, Device>, t: Id, row: ApiToken)
    requires TokensMatchDevices(tokens, devices) && t !in tokens
    requires !Member(ms, row.account, row.user) || row.device.Some?
    ensures !TokensHome(ms, tokens[t := row]) || !TokensMatchDevices(tokens[t := row], devices)
  {
    var tokens' := tokens[t := row];
    assert tokens'[t] == row;
    if row.device.Some? && row.device.value in devices {
      assert HasToken(tokens, row.device.value);
      var t' :| t' in tokens && tokens[t'].device == row.device;
      assert t' in tokens' && tokens'[t'].device == row.device && t' != t;
    }
    hide Member, HasToken;
  }

  lemma RevokeTokenClosed(db: Db, t: Id)
    requires Closed(db)
    ensures Closed(RevokeToken(db, t)) && Grows(db, RevokeToken(db, t))
  {
    hide Member, CodesMatchDevices, TokensMatchDevices, EmailsUnique, OneHome, AgentsHome;
    if t in db.tokens {
      TokenRow(db.memberships, db.tokens, t, db.tokens[t].(revoked := true));
    }
    SameBindings(db.tokens, RevokeToken(db, t).tokens, db.devices);
    GrowsRefl(db);
    hide EmailsUnique, OneHome, SessionsHome, TokensHome, CodesHome, DevicesHome, AgentsHome, IdentitiesOk, VTokensOk;
    hide CodesMatchDevices, TokensMatchDevices, Member;
    hide UsersGrow, SessionsGrow, VTokensGrow, TokensGrow, DevicesGrow, CodesGrow, AgentsGrow, Kept;
  }

  lemma NewCode(codes: map<string, PairCode>, devices: map<Id, Device>, code: string, row: PairCode)
    requires CodesMatchDevices(codes, devices) && code !in codes && row.consumed == None
    ensures CodesMatchDevices(codes[code := row], devices)
  {
    var codes' := codes[code := row];
    assert forall c :: DeviceOf(codes', c) == DeviceOf(codes, c);
    forall d | d in devices ensures ComesFromCode(codes', d) {
      assert ComesFromCode(codes, d);
      var c :| DeviceOf(codes, c) == Some(d);
      assert DeviceOf(codes', c) == Some(d);
    }
    hide ComesFromCode, DeviceOf;
  }

  lemma CodeRow(ms: map<Id, Membership>, codes: map<string, PairCode>, c: string, row: PairCode)
    requires CodesHome(ms, codes) && Member(ms, row.account, row.user)
    requires c in codes ==> row == codes[c].(consumed := row.consumed) && codes[c].consumed == None
    ensures CodesHome(ms, codes[c := row]) && CodesGrow(codes, codes[c := row])
  {
    hide Member;
  }

  lemma CodeClosed(db: Db, code: string, row: PairCode)
    requires Closed(db) && InsertCode(db, code, row).Some? && Member(db.memberships, row.account, row.user)
    requires row.consumed == None
    ensures Closed(InsertCode(db, code, row).value) && Grows(db, InsertCode(db, code, row).value)
  {
    NewCode(db.codes, db.devices, code, row);
    CodeRow(db.memberships, db.codes, code, row);
    GrowsRefl(db);
    hide EmailsUnique, OneHome, SessionsHome, TokensHome, CodesHome, DevicesHome, AgentsHome, IdentitiesOk, VTokensOk;
    hide CodesMatchDevices, TokensMatchDevices, Member;
    hide UsersGrow, SessionsGrow, VTokensGrow, TokensGrow, DevicesGrow, CodesGrow, AgentsGrow, Kept;
  }

  lemma CodeGrows(db: Db, code: string, row: PairCode)
    requires InsertCode(db, code, row).Some?
    ensures Grows(db, InsertCode(db, code, row).value)
  {
    GrowsRefl(db);
    hide UsersGrow, SessionsGrow, VTokensGrow, DevicesGrow, TokensGrow, AgentsGrow, Kept;
  }

  /** A new code keeps the tables closed exactly if it is a member's. */
  lemma CodeClosedIff(db: Db, code: string, row: PairCode)
    requires Closed(db) && InsertCode(db, code, row).Some? && row.consumed == None
    ensures Closed(InsertCode(db, code, row).value) <==> Member(db.memberships, row.account, row.user)
  {
    if Member(db.memberships, row.account, row.user) {
      CodeClosed(db, code, row);
    } else {
      assert db.codes[code := row][code] == row;
      assert !CodesHome(db.memberships, db.codes[code := row]) by { hide Member; }
    }
    hide Member, EmailsUnique, OneHome, SessionsHome, TokensHome, CodesHome, DevicesHome, AgentsHome, IdentitiesOk;
    hide VTokensOk, CodesMatchDevices, TokensMatchDevices;
  }

  lemma AgentRow(devices: map<Id, Device>, agents: map<Id, AgentSession>, g: Id, row: AgentSession)
    requires AgentsHome(devices, agents) && row.device in devices && row.account == devices[row.device].account
    requires g in agents ==> row == agents[g].(running := false)
    ensures AgentsHome(devices, agents[g := row]) && AgentsGrow(agents, agents[g := row])
  {}

  lemma AgentClosed(db: Db, g: Id, row: AgentSession)
    requires Closed(db) && InsertAgent(db, g, row).Some? && row.account == db.devices[row.device].account
    ensures Closed(InsertAgent(db, g, row).value) && Grows(db, InsertAgent(db, g, row).value)
  {
    AgentRow(db.devices, db.agents, g, row);
    GrowsRefl(db);
    hide EmailsUnique, OneHome, SessionsHome, TokensHome, CodesHome, DevicesHome, AgentsHome, IdentitiesOk, VTokensOk;
    hide CodesMatchDevices, TokensMatchDevices, Member;
    hide UsersGrow, SessionsGrow, VTokensGrow, TokensGrow, DevicesGrow, CodesGrow, AgentsGrow, Kept;
  }

  lemma EndAgentClosed(db: Db, g: Id)
    requires Closed(db)
    ensures Closed(EndAgent(db, g)) && Grows(db, EndAgent(db, g))
  {
    if g in db.agents {
      AgentRow(db.devices, db.agents, g, db.agents[g].(running := false));
    }
    GrowsRefl(db);
    hide EmailsUnique, OneHome, SessionsHome, TokensHome, CodesHome, DevicesHome, AgentsHome, IdentitiesOk, VTokensOk;
    hide CodesMatchDevices, TokensMatchDevices, Member;
    hide UsersGrow, SessionsGrow, VTokensGrow, TokensGrow, DevicesGrow, CodesGrow, AgentsGrow, Kept;
  }

  lemma DeleteRow(ms: map<Id, Membership>, devices: map<Id, Device>, agents: map<Id, AgentSession>,
                  codes: map<string, PairCode>, tokens: map<Id, ApiToken>, d: Id)
    requires DevicesHome(ms, devices) && AgentsHome(devices, agents) && d in devices
    requires CodesMatchDevices(codes, devices) && TokensMatchDevices(tokens, devices)
    ensures var devices' := devices[d := devices[d].(deleted := true)];
            && DevicesHome(ms, devices') && AgentsHome(devices', agents) && DevicesGrow(devices, devices')
            && CodesMatchDevices(codes, devices') && TokensMatchDevices(tokens, devices')
  {
    hide Member, ComesFromCode, HasToken, DeviceOf;
  }

  lemma DeleteDeviceClosed(db: Db, d: Id)
    requires Closed(db)
    ensures Closed(DeleteDevice(db, d)) && Grows(db, DeleteDevice(db, d))
  {
    if d in db.devices {
      DeleteRow(db.memberships, db.devices, db.agents, db.codes, db.tokens, d);
    }
    GrowsRefl(db);
    hide EmailsUnique, OneHome, SessionsHome, TokensHome, CodesHome, DevicesHome, AgentsHome, IdentitiesOk, VTokensOk;
    hide CodesMatchDevices, TokensMatchDevices, Member;
    hide UsersGrow, SessionsGrow, VTokensGrow, TokensGrow, DevicesGrow, CodesGrow, AgentsGrow, Kept;
  }

  // ---------------------------------------------------------------- transactions

  lemma TenantRows(db: Db, u: Id, user: User, a: Id, slug: string, m: Id, since: Time)
    requires CreateTenant(db, u, user, a, slug, m, since).Some?
    ensures u !in db.users && a !in db.accounts && m !in db.memberships && !EmailTaken(db.users, user.email)
    ensures CreateTenant(db, u, user, a, slug, m, since).value ==
            db.(users := db.users[u := user], accounts := db.accounts[a := Account(slug)],
                memberships := db.memberships[m := Membership(a, u, since)])
  {
    hide EmailTaken, SlugTaken, Member;
  }

  lemma NewHome(users: map<Id, User>, accounts: map<Id, Account>, ms: map<Id, Membership>, u: Id, user: User,
                a: Id, account: Account, m: Id, since: Time)
    requires OneHome(users, accounts, ms) && u !in users && a !in accounts && m !in ms
    ensures OneHome(users[u := user], accounts[a := account], ms[m := Membership(a, u, since)])
    ensures Kept(ms, ms[m := Membership(a, u, since)]) && Member(ms[m := Membership(a, u, since)], a, u)
  {
    var ms' := ms[m := Membership(a, u, since)];
    assert ms'[m].user == u && ms'[m].account == a;
    assert HasHome(ms', u) && HasOwner(ms', a);
    forall v | v in users ensures HasHome(ms', v) {
      assert HasHome(ms, v);
      var n :| n in ms && ms[n].user == v;
      assert n in ms' && ms'[n].user == v;
    }
    forall b | b in accounts ensures HasOwner(ms', b) {
      assert HasOwner(ms, b);
      var n :| n in ms && ms[n].account == b;
      assert n in ms' && ms'[n].account == b;
    }
    hide HasHome, HasOwner;
  }

  lemma MembersStay(a: map<Id, Membership>, b: map<Id, Membership>)
    requires Kept(a, b)
    ensures forall account, user :: Member(a, account, user) ==> Member(b, account, user)
  {
    forall account, user | Member(a, account, user) ensures Member(b, account, user) {
      MemberStays(a, b, account, user);
    }
  }

  /** What refers to users and memberships still does when there are more of them. */
  lemma MovedHome(db: Db, users: map<Id, User>, ms: map<Id, Membership>, u: Id, user: User)
    requires Closed(db) && u !in db.users && users == db.users[u := user] && !EmailTaken(db.users, user.email)
    requires forall a, v :: Member(db.memberships, a, v) ==> Member(ms, a, v)
    ensures EmailsUnique(users) && UsersGrow(db.users, users)
    ensures IdentitiesOk(users, db.identities) && VTokensOk(users, db.vtokens)
    ensures SessionsHome(ms, db.sessions) && TokensHome(ms, db.tokens)
    ensures CodesHome(ms, db.codes) && DevicesHome(ms, db.devices)
  {
    MoreUsers(db, users, u, user);
    MoreMembers(db, ms);
    hide EmailsUnique, IdentitiesOk, VTokensOk, SessionsHome, TokensHome, CodesHome, DevicesHome, UsersGrow;
  }

  lemma MoreUsers(db: Db, users: map<Id, User>, u: Id, user: User)
    requires EmailsUnique(db.users) && IdentitiesOk(db.users, db.identities) && VTokensOk(db.users, db.vtokens)
    requires u !in db.users && users == db.users[u := user] && !EmailTaken(db.users, user.email)
    ensures EmailsUnique(users) && UsersGrow(db.users, users)
    ensures IdentitiesOk(users, db.identities) && VTokensOk(users, db.vtokens)
  {
    hide IsIdentity;
  }

  lemma MoreMembers(db: Db, ms: map<Id, Membership>)
    requires SessionsHome(db.memberships, db.sessions) && TokensHome(db.memberships, db.tokens)
    requires CodesHome(db.memberships, db.codes) && DevicesHome(db.memberships, db.devices)
    requires forall a, v :: Member(db.memberships, a, v) ==> Member(ms, a, v)
    ensures SessionsHome(ms, db.sessions) && TokensHome(ms, db.tokens)
    ensures CodesHome(ms, db.codes) && DevicesHome(ms, db.devices)
  {
    hide Member;
  }

  lemma TenantClosed(db: Db, u: Id, user: User, a: Id, slug: string, m: Id, since: Time)
    requires Closed(db) && CreateTenant(db, u, user, a, slug, m, since).Some?
    ensures var db' := CreateTenant(db, u, user, a, slug, m, since).value;
            && Closed(db') && Grows(db, db') && Member(db'.memberships, a, u)
            && u !in db.users && db'.users == db.users[u := user]
  {
    TenantRows(db, u, user, a, slug, m, since);
    hide CreateTenant, EmailTaken;
    GrowsRefl(db);
    hide EmailsUnique, OneHome, SessionsHome, TokensHome, CodesHome, DevicesHome, AgentsHome, IdentitiesOk, VTokensOk;
    hide CodesMatchDevices, TokensMatchDevices, Member;
    hide UsersGrow, SessionsGrow, VTokensGrow, TokensGrow, DevicesGrow, CodesGrow, AgentsGrow, Kept;
    NewHome(db.users, db.accounts, db.memberships, u, user, a, Account(slug), m, since);
    MembersStay(db.memberships, db.memberships[m := Membership(a, u, since)]);
    MovedHome(db, db.users[u := user], db.memberships[m := Membership(a, u, since)], u, user);
    KeptRow(db.accounts, a, Account(slug));
  }

  lemma KeptRow<K, V>(rows: map<K, V>, k: K, row: V)
    requires k !in rows
    ensures Kept(rows, rows[k := row])
  {}

  lemma OAuthRows(db: Db, u: Id, a: Id, slug: string, m: Id, since: Time, i: Id,
                  provider: string, subject: string, email: string)
    requires CreateByOAuth(db, u, a, slug, m, since, i, provider, subject, email).Some?
    ensures u !in db.users && a !in db.accounts && m !in db.memberships
    ensures i !in db.identities && !Known(db.identities, provider, subject)
    ensures CreateByOAuth(db, u, a, slug, m, since, i, provider, subject, email).value ==
            db.(users := db.users[u := User(email, "", true)], accounts := db.accounts[a := Account(slug)],
                memberships := db.memberships[m := Membership(a, u, since)],
                identities := db.identities[i := Identity(u, provider, subject, email)])
  {
    TenantRows(db, u, User(email, "", true), a, slug, m, since);
    hide CreateTenant, Known;
  }

  lemma OAuthTenantClosed(db: Db, u: Id, a: Id, slug: string, m: Id, since: Time, i: Id,
                          provider: string, subject: string, email: string)
    requires Closed(db) && CreateByOAuth(db, u, a, slug, m, since, i, provider, subject, email).Some?
    ensures var db' := CreateByOAuth(db, u, a, slug, m, since, i, provider, subject, email).value;
            && Closed(db') && Grows(db, db') && Member(db'.memberships, a, u)
            && u !in db.users && db'.users == db.users[u := User(email, "", true)]
            && !Known(db.identities, provider, subject)
            && db'.identities == db.identities[i := Identity(u, provider, subject, email)]
  {
    OAuthRows(db, u, a, slug, m, since, i, provider, subject, email);
    hide Known;
    var user := User(email, "", true);
    var mid := CreateTenant(db, u, user, a, slug, m, since).value;
    TenantClosed(db, u, user, a, slug, m, since);
    IdentityClosed(mid, i, Identity(u, provider, subject, email));
    GrowsTrans(db, mid, InsertIdentity(mid, i, Identity(u, provider, subject, email)).value);
    hide Closed, Grows, CreateTenant, Member, OneHome, EmailsUnique;
  }

  /** A claim adds one device and one token to the code's account and user. */
  lemma ClaimRows(db: Db, code: string, now: Time, d: Id, t: Id, hash: string)
    requires ClaimDevice(db, code, now, d, t, hash).Ok?
    ensures code in db.codes && db.codes[code].consumed == None && now <= db.codes[code].expires
    ensures d !in db.devices && t !in db.tokens && !TokenHash(db.tokens, hash)
    ensures var row := db.codes[code];
            ClaimDevice(db, code, now, d, t, hash).value ==
            db.(codes := db.codes[code := row.(consumed := Some(Consumption(d, now)))],
                devices := db.devices[d := Device(row.account, row.user, false)],
                tokens := db.tokens[t := ApiToken(row.account, row.user, Some(d), hash, None, false)])
  {}

  lemma ClaimClosed(db: Db, code: string, now: Time, d: Id, t: Id, hash: string)
    requires Closed(db) && ClaimDevice(db, code, now, d, t, hash).Ok?
    ensures var db' := ClaimDevice(db, code, now, d, t, hash).value; Closed(db') && Grows(db, db')
  {
    ClaimRows(db, code, now, d, t, hash);
    hide ClaimDevice;
    var row := db.codes[code];
    ClaimedCodes(db, code, now, d);
    ClaimedTokens(db, row.account, row.user, t, d, hash);
    assert Member(db.memberships, row.account, row.user) by { hide Member; }
    CodeRow(db.memberships, db.codes, code, row.(consumed := Some(Consumption(d, now))));
    TokenRow(db.memberships, db.tokens, t, ApiToken(row.account, row.user, Some(d), hash, None, false));
    NewDevice(db.memberships, db.devices, db.agents, d, Device(row.account, row.user, false));
    GrowsRefl(db);
    hide EmailsUnique, OneHome, SessionsHome, TokensHome, CodesHome, DevicesHome, AgentsHome, IdentitiesOk, VTokensOk;
    hide CodesMatchDevices, TokensMatchDevices, Member;
    hide UsersGrow, SessionsGrow, VTokensGrow, TokensGrow, DevicesGrow, CodesGrow, AgentsGrow, Kept;
    hide TokenHash;
  }

  lemma NewDevice(ms: map<Id, Membership>, devices: map<Id, Device>, agents: map<Id, AgentSession>, d: Id, row: Device)
    requires DevicesHome(ms, devices) && AgentsHome(devices, agents)
    requires d !in devices && Member(ms, row.account, row.user)
    ensures var devices' := devices[d := row];
            DevicesHome(ms, devices') && AgentsHome(devices', agents) && DevicesGrow(devices, devices')
  {
    hide Member;
  }

  lemma ClaimedCodes(db: Db, code: string, now: Time, d: Id)
    requires CodesMatchDevices(db.codes, db.devices) && d !in db.devices
    requires code in db.codes && db.codes[code].consumed == None && now <= db.codes[code].expires
    ensures var row := db.codes[code];
            CodesMatchDevices(db.codes[code := row.(consumed := Some(Consumption(d, now)))],
                              db.devices[d := Device(row.account, row.user, false)])
  {
    var row := db.codes[code];
    var codes' := db.codes[code := row.(consumed := Some(Consumption(d, now)))];
    assert DeviceOf(codes', code) == Some(d);
    assert forall c :: c != code ==> DeviceOf(codes', c) == DeviceOf(db.codes, c);
    assert forall c :: DeviceOf(db.codes, c) != Some(d);
    forall d' | d' in db.devices ensures ComesFromCode(codes', d') {
      assert ComesFromCode(db.codes, d');
      var c :| DeviceOf(db.codes, c) == Some(d');
      assert DeviceOf(codes', c) == Some(d');
    }
    assert ComesFromCode(codes', d);
    hide ComesFromCode, DeviceOf;
  }

  lemma ClaimedTokens(db: Db, account: Id, user: Id, t: Id, d: Id, hash: string)
    requires TokensMatchDevices(db.tokens, db.devices) && d !in db.devices && t !in db.tokens
    ensures TokensMatchDevices(db.tokens[t := ApiToken(account, user, Some(d), hash, None, false)],
                               db.devices[d := Device(account, user, false)])
  {
    var tokens' := db.tokens[t := ApiToken(account, user, Some(d), hash, None, false)];
    assert tokens'[t].device == Some(d);
    forall d' | d' in db.devices ensures HasToken(tokens', d') {
      assert HasToken(db.tokens, d');
      var t' :| t' in db.tokens && db.tokens[t'].device == Some(d');
      assert t' in tokens' && tokens'[t'].device == Some(d');
    }
    assert HasToken(tokens', d);
    hide HasToken;
  }
}
