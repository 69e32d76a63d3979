/** What every step of the auth system keeps: the tables stay closed, rows stay, and what
    each call and the log remember stays true of them. */
module AuthInvariants {
  import opened Wrappers
  import opened Tables
  import opened Tenancy
  import opened AuthSteps

  // ---------------------------------------------------------------- the invariant

  ghost predicate IdentifiedBy(identities: map<Id, Identity>, provider: string, subject: string, user: Id) {
    exists i :: i in identities && IsIdentity(identities[i], provider, subject) && identities[i].user == user
  }

  ghost predicate OriginOk(db: Db, log: Log, k: CallId, user: Id, origin: Origin) {
    match origin
    case ByPassword => user in db.users && db.users[user].verified
    case ByProvider(provider, subject, created) =>
      && IdentifiedBy(db.identities, provider, subject, user)
      && (created ==>
            && (provider, subject) in log.made && log.made[(provider, subject)] == CreatedBy(k)
            && user in db.users && db.users[user].verified)
  }

  ghost predicate SessionOf(sessions: map<Id, Session>, session: Id, user: Id, account: Id) {
    session in sessions && sessions[session].user == user && sessions[session].account == account
  }

  /** What a call has read still holds. */
  ghost predicate CallOk(db: Db, log: Log, k: CallId, pc: Pc) {
    match pc
    case SignedUp(user, account, _) => user in db.users && Member(db.memberships, account, user)
    case ResetFound(user, _) => user in db.users
    case Consumed(token, purpose, user, _) =>
      && user in db.users && token in db.vtokens && db.vtokens[token].consumed.Some?
      && db.vtokens[token].purpose == purpose && db.vtokens[token].user == user
    case Unknown(_, _, _) => true
    case Unmatched(_, _, _) => true
    case Matching(_, _, _, user) => user in db.users
    case Resolving(user, origin) => user in db.users && OriginOk(db, log, k, user, origin)
    case Entering(user, account, origin) => Member(db.memberships, account, user) && OriginOk(db, log, k, user, origin)
    case Signing(session, user, account, origin) =>
      && Member(db.memberships, account, user) && OriginOk(db, log, k, user, origin)
      && SessionOf(db.sessions, session, user, account)
    case Entered(session, user, account, origin) =>
      && Member(db.memberships, account, user) && OriginOk(db, log, k, user, origin)
      && SessionOf(db.sessions, session, user, account) && Claims(session, user, account) in log.issued
    case Authed(user, account, device, _) =>
      && Member(db.memberships, account, user)
      && (device.Some? ==> device.value in db.devices && db.devices[device.value].account == account
                           && db.devices[device.value].user == user)
    case Ending(agent, account, device) =>
      agent in db.agents && db.agents[agent].account == account && device == Some(db.agents[agent].device)
    case Deleting(device, account) => device in db.devices && db.devices[device].account == account
    case Claimed(code, device, token, account, user) =>
      && Member(db.memberships, account, user) && DeviceOf(db.codes, code) == Some(device)
      && db.codes[code].account == account && db.codes[code].user == user
      && token in db.tokens && db.tokens[token].device == Some(device)
    case Finished => true
    case Failed => true
  }

  ghost predicate IssuedOk(sessions: map<Id, Session>, issued: set<Claims>) {
    forall c :: c in issued ==> SessionOf(sessions, c.session, c.user, c.account)
  }

  ghost predicate MadeOk(identities: map<Id, Identity>, made: map<(string, string), Made>) {
    forall p, x :: (p, x) in made <==> Known(identities, p, x)
  }

  /** An email_verify token of the user was consumed. */
  ghost predicate VerifiedByToken(vtokens: map<Id, VToken>, user: Id) {
    exists t :: t in vtokens && vtokens[t].user == user
      && vtokens[t].purpose == EmailVerify && vtokens[t].consumed.Some?
  }

  ghost predicate VerifiedOk(users: map<Id, User>, vtokens: map<Id, VToken>, born: set<Id>) {
    && (forall u :: u in users && users[u].verified ==> u in born || VerifiedByToken(vtokens, u))
    && (forall u :: u in born ==> u in users && users[u].verified)
  }

  ghost predicate PasswordOk(users: map<Id, User>, sessions: map<Id, Session>, entered: set<Id>) {
    forall x :: x in entered ==> x in sessions && sessions[x].user in users && users[sessions[x].user].verified
  }

  ghost predicate MintsOk(memberships: map<Id, Membership>, mints: set<(Id, Id)>) {
    forall pair :: pair in mints ==> Member(memberships, pair.0, pair.1)
  }

  ghost predicate LogOk(db: Db, log: Log) {
    && IssuedOk(db.sessions, log.issued)
    && MadeOk(db.identities, log.made)
    && VerifiedOk(db.users, db.vtokens, log.bornVerified)
    && PasswordOk(db.users, db.sessions, log.passwordSessions)
    && MintsOk(db.memberships, log.mints)
  }

  ghost predicate CallsOk(db: Db, log: Log, calls: map<CallId, Pc>) {
    forall k :: k in calls ==> CallOk(db, log, k, calls[k])
  }

  ghost predicate Inv(s: State) { Closed(s.db) && LogOk(s.db, s.log) && CallsOk(s.db, s.log, s.calls) }

  ghost predicate LogGrows(a: Log, b: Log) {
    && a.issued <= b.issued && Kept(a.made, b.made) && a.bornVerified <= b.bornVerified
    && a.passwordSessions <= b.passwordSessions && a.mints <= b.mints
  }

  lemma LogGrowsTrans(a: Log, b: Log, c: Log)
    requires LogGrows(a, b) && LogGrows(b, c)
    ensures LogGrows(a, c)
  {}

  // ---------------------------------------------------------------- what grows keeps

  lemma IdentifiedStays(a: map<Id, Identity>, b: map<Id, Identity>, provider: string, subject: string, user: Id)
    requires Kept(a, b) && IdentifiedBy(a, provider, subject, user)
    ensures IdentifiedBy(b, provider, subject, user)
  {
    var i :| i in a && IsIdentity(a[i], provider, subject) && a[i].user == user;
    assert i in b;
  }

  lemma OriginStays(a: Db, b: Db, la: Log, lb: Log, k: CallId, user: Id, origin: Origin)
    requires Grows(a, b) && LogGrows(la, lb) && OriginOk(a, la, k, user, origin)
    ensures OriginOk(b, lb, k, user, origin)
  {
    hide IdentifiedBy, SessionsGrow, VTokensGrow, TokensGrow, DevicesGrow, CodesGrow, AgentsGrow;
    if origin.ByProvider? {
      IdentifiedStays(a.identities, b.identities, origin.provider, origin.subject, user);
    }
  }

  lemma CallStays(a: Db, b: Db, la: Log, lb: Log, k: CallId, pc: Pc)
    requires Grows(a, b) && LogGrows(la, lb) && CallOk(a, la, k, pc)
    ensures CallOk(b, lb, k, pc)
  {
    if pc.Resolving? || pc.Entering? || pc.Signing? || pc.Entered? {
      LoginStays(a, b, la, lb, k, pc);
    } else {
      OtherCallStays(a, b, la, lb, k, pc);
    }
    hide CallOk;
  }

  lemma LoginStays(a: Db, b: Db, la: Log, lb: Log, k: CallId, pc: Pc)
    requires Grows(a, b) && LogGrows(la, lb) && CallOk(a, la, k, pc)
    requires pc.Resolving? || pc.Entering? || pc.Signing? || pc.Entered?
    ensures CallOk(b, lb, k, pc)
  {
    OriginStays(a, b, la, lb, k, pc.user, pc.origin);
    MembersStay(a.memberships, b.memberships);
    hide OriginOk, Member, VTokensGrow, TokensGrow, DevicesGrow, CodesGrow, AgentsGrow, Kept;
  }

  lemma OtherCallStays(a: Db, b: Db, la: Log, lb: Log, k: CallId, pc: Pc)
    requires Grows(a, b) && LogGrows(la, lb) && CallOk(a, la, k, pc)
    requires !(pc.Resolving? || pc.Entering? || pc.Signing? || pc.Entered?)
    ensures CallOk(b, lb, k, pc)
  {
    MembersStay(a.memberships, b.memberships);
    hide OriginOk, Member, SessionOf, SessionsGrow, Kept;
  }

  /** One step of call k: the tables stay closed, rows stay, and what the call now
      remembers is true. */
  ghost predicate StepOk(s: State, k: CallId, s': State) {
    && Closed(s'.db) && Grows(s.db, s'.db) && LogGrows(s.log, s'.log) && LogOk(s'.db, s'.log)
    && k in s'.calls && s'.calls == s.calls[k := s'.calls[k]] && CallOk(s'.db, s'.log, k, s'.calls[k])
  }

  lemma InvAfter(s: State, k: CallId, s': State)
    requires Inv(s) && StepOk(s, k, s')
    ensures Inv(s')
  {
    hide Closed, Grows, LogGrows, LogOk, CallOk;
    forall j | j in s'.calls ensures CallOk(s'.db, s'.log, j, s'.calls[j]) {
      if j != k { CallStays(s.db, s'.db, s.log, s'.log, j, s.calls[j]); }
    }
  }

  /** The log stays true when neither users nor identities change. */
  lemma LogStays(a: Db, b: Db, log: Log)
    requires LogOk(a, log) && Grows(a, b) && a.users == b.users && a.identities == b.identities
    ensures LogOk(b, log)
  {
    MembersStay(a.memberships, b.memberships);
    VerifiedStays(a.vtokens, b.vtokens);
    hide Member, MadeOk, VerifiedByToken, TokensGrow, DevicesGrow, CodesGrow, AgentsGrow, VTokensGrow;
  }

  lemma VerifiedStays(a: map<Id, VToken>, b: map<Id, VToken>)
    requires VTokensGrow(a, b)
    ensures forall u :: VerifiedByToken(a, u) ==> VerifiedByToken(b, u)
  {
    forall u | VerifiedByToken(a, u) ensures VerifiedByToken(b, u) {
      var t :| t in a && a[t].user == u && a[t].purpose == EmailVerify && a[t].consumed.Some?;
      assert t in b;
    }
  }

  // ---------------------------------------------------------------- kinds of step

  /** A step that only reads. */
  lemma PutOk(s: State, k: CallId, pc: Pc)
    requires Inv(s) && CallOk(s.db, s.log, k, pc)
    ensures StepOk(s, k, Put(s, k, pc))
  {
    GrowsRefl(s.db);
    hide Closed, Grows, LogOk, CallOk, CallsOk;
  }

  /** A step that writes neither users nor identities. */
  lemma WriteOk(s: State, k: CallId, db: Db, pc: Pc)
    requires Inv(s) && Closed(db) && Grows(s.db, db) && db.users == s.db.users && db.identities == s.db.identities
    requires CallOk(db, s.log, k, pc)
    ensures StepOk(s, k, Put(s.(db := db), k, pc))
  {
    hide Closed, Grows, LogOk, CallOk, CallsOk;
    LogStays(s.db, db, s.log);
  }

  // ---------------------------------------------------------------- steps

  lemma UsersAfter(a: Db, b: Db, log: Log, log': Log)
    requires LogOk(a, log) && Grows(a, b) && a.identities == b.identities && a.vtokens == b.vtokens
    requires log' == log
    requires forall u :: u in b.users && b.users[u].verified ==>
               (u in a.users && a.users[u].verified) || VerifiedByToken(a.vtokens, u)
    ensures LogOk(b, log')
  {
    MembersStay(a.memberships, b.memberships);
    hide Member, MadeOk, VerifiedByToken, TokensGrow, DevicesGrow, CodesGrow, AgentsGrow, VTokensGrow;
  }

  lemma SignupStep(s: State, l: Label)
    requires Inv(s) && l.Signup?
    ensures StepOk(s, l.k, SignupOp(s, l))
  {
    hide Closed, Grows, LogOk, CallsOk, CreateTenant;
    PutOk(s, l.k, Failed);
    var r := CreateTenant(s.db, l.u, User(l.email, l.hash, false), l.a, l.slug, l.m, Stored(l.now));
    if l.email != "" && l.hash != "" && r.Some? {
      TenantClosed(s.db, l.u, User(l.email, l.hash, false), l.a, l.slug, l.m, Stored(l.now));
      TenantRows(s.db, l.u, User(l.email, l.hash, false), l.a, l.slug, l.m, Stored(l.now));
      UsersAfter(s.db, r.value, s.log, s.log);
    }
  }

  lemma MailTokenStep(s: State, l: Label)
    requires Inv(s) && l.MailToken? && MayMail(s, l.k)
    ensures StepOk(s, l.k, MailTokenOp(s, l))
  {
    hide Closed, Grows, LogOk, CallsOk;
    PutOk(s, l.k, Failed);
    var pc := s.calls[l.k];
    var purpose := if pc.SignedUp? then EmailVerify else PasswordReset;
    var row := VToken(purpose, pc.user, pc.email, l.hash, ExpiresAfter(l.now, l.ttl), None);
    var r := InsertVToken(s.db, l.t, row);
    if r.Some? {
      VTokenClosed(s.db, l.t, row);
      WriteOk(s, l.k, r.value, Finished);
    }
  }

  lemma ConsumeStep(s: State, l: Label)
    requires Inv(s) && l.Consume?
    ensures StepOk(s, l.k, ConsumeOp(s, l))
  {
    hide Grows, LogOk, CallsOk, ConsumeVToken, OneHome;
    PutOk(s, l.k, Failed);
    var r := ConsumeVToken(s.db, l.hash, l.purpose, l.now);
    if !(l.purpose == PasswordReset && l.newHash == "") && r.Ok? {
      ConsumeRows(s.db, l.hash, l.purpose, l.now);
      ConsumeVTokenClosed(s.db, l.hash, l.purpose, l.now);
      var t := r.value.1;
      ConsumedUser(s.db.users, s.db.vtokens, t);
      WriteOk(s, l.k, r.value.0, Consumed(t, l.purpose, s.db.vtokens[t].user, l.newHash));
    }
  }

  lemma UseConsumedStep(s: State, k: CallId)
    requires Inv(s) && k in s.calls && s.calls[k].Consumed?
    ensures StepOk(s, k, UseConsumedOp(s, k))
  {
    hide Closed, Grows, LogOk;
    var pc := s.calls[k];
    assert CallOk(s.db, s.log, k, pc);
    var row := if pc.purpose == EmailVerify then s.db.users[pc.user].(verified := true)
               else s.db.users[pc.user].(passwordHash := pc.newHash);
    UserRowClosed(s.db, pc.user, row);
    assert pc.purpose == EmailVerify ==> VerifiedByToken(s.db.vtokens, pc.user);
    UsersAfter(s.db, s.db.(users := s.db.users[pc.user := row]), s.log, s.log);
  }

  lemma LoginStep(s: State, l: Label)
    requires Inv(s) && l.Login?
    ensures StepOk(s, l.k, LoginOp(s, l))
  {
    hide Closed, Grows, LogOk, CallsOk;
    PutOk(s, l.k, Failed);
    var u := FindUser(s.db.users, l.email);
    if u.Some? && s.db.users[u.value].verified {
      PutOk(s, l.k, Resolving(u.value, ByPassword));
    }
  }

  lemma OAuthStep(s: State, l: Label)
    requires Inv(s) && l.OAuth?
    ensures StepOk(s, l.k, OAuthOp(s, l))
  {
    hide Grows, LogOk, CallsOk, OneHome, EmailsUnique, VTokensOk;
    PutOk(s, l.k, Failed);
    PutOk(s, l.k, Unknown(l.provider, l.subject, l.email));
    var i := FindIdentity(s.db.identities, l.provider, l.subject);
    if i.Some? {
      var user := s.db.identities[i.value].user;
      assert IdentifiedBy(s.db.identities, l.provider, l.subject, user);
      IdentityUser(s.db.users, s.db.identities, i.value);
      PutOk(s, l.k, Resolving(user, ByProvider(l.provider, l.subject, false)));
    }
  }

  lemma IdentityUser(users: map<Id, User>, identities: map<Id, Identity>, i: Id)
    requires IdentitiesOk(users, identities) && i in identities
    ensures identities[i].user in users
  {}

  lemma MatchEmailStep(s: State, k: CallId)
    requires Inv(s) && k in s.calls && s.calls[k].Unknown?
    ensures StepOk(s, k, MatchEmailOp(s, k))
  {
    hide Closed, Grows, LogOk, CallsOk;
    var pc := s.calls[k];
    var u := FindUser(s.db.users, pc.email);
    PutOk(s, k, Unmatched(pc.provider, pc.subject, pc.email));
    if u.Some? {
      PutOk(s, k, Matching(pc.provider, pc.subject, pc.email, u.value));
    }
  }

  /** A new identity and its maker enter table and log together. */
  lemma MadeAfter(a: map<Id, Identity>, made: map<(string, string), Made>, i: Id, row: Identity, maker: Made)
    requires MadeOk(a, made) && i !in a && !Known(a, row.provider, row.subject)
    ensures MadeOk(a[i := row], made[(row.provider, row.subject) := maker])
    ensures Kept(made, made[(row.provider, row.subject) := maker])
  {
    var b := a[i := row];
    forall p, x ensures Known(b, p, x) <==> Known(a, p, x) || (p == row.provider && x == row.subject) {
      if Known(a, p, x) {
        var j :| j in a && IsIdentity(a[j], p, x);
        assert j in b && IsIdentity(b[j], p, x);
      }
      assert i in b && IsIdentity(b[i], row.provider, row.subject);
    }
    hide Known;
  }

  lemma LinkIdentityStep(s: State, l: Label)
    requires Inv(s) && l.LinkIdentity? && l.k in s.calls && s.calls[l.k].Matching?
    ensures StepOk(s, l.k, LinkIdentityOp(s, l))
  {
    hide Closed, Grows;
    PutOk(s, l.k, Failed);
    var pc := s.calls[l.k];
    assert CallOk(s.db, s.log, l.k, pc);
    var row := Identity(pc.user, pc.provider, pc.subject, pc.email);
    var r := InsertIdentity(s.db, l.i, row);
    if r.Some? {
      IdentityClosed(s.db, l.i, row);
      MadeAfter(s.db.identities, s.log.made, l.i, row, LinkedBy(l.k));
      assert r.value.identities[l.i] == row;
      assert IdentifiedBy(r.value.identities, pc.provider, pc.subject, pc.user);
      hide IssuedOk, MadeOk, VerifiedOk, PasswordOk, MintsOk, CallsOk, Known;
    }
  }

  /** The log after a first OAuth login: its identity has a maker and its user was born
      verified. */
  lemma CreateUserLog(s: State, l: Label, db: Db, pc: Pc)
    requires LogOk(s.db, s.log) && pc.Unmatched? && l.CreateUser? && Grows(s.db, db) && l.u !in s.db.users
    requires db.users == s.db.users[l.u := User(pc.email, "", true)]
    requires db.vtokens == s.db.vtokens && db.sessions == s.db.sessions
    requires l.i !in s.db.identities && !Known(s.db.identities, pc.provider, pc.subject)
    requires db.identities == s.db.identities[l.i := Identity(l.u, pc.provider, pc.subject, pc.email)]
    ensures var log := s.log.(made := s.log.made[(pc.provider, pc.subject) := CreatedBy(l.k)],
                              bornVerified := s.log.bornVerified + {l.u});
            LogOk(db, log) && LogGrows(s.log, log)
  {
    MadeAfter(s.db.identities, s.log.made, l.i, Identity(l.u, pc.provider, pc.subject, pc.email), CreatedBy(l.k));
    MembersStay(s.db.memberships, db.memberships);
    hide MadeOk, Known, Member, VerifiedByToken, SessionsGrow, VTokensGrow, TokensGrow, DevicesGrow, CodesGrow;
    hide AgentsGrow, Kept;
  }

  lemma CreateUserStep(s: State, l: Label)
    requires Inv(s) && l.CreateUser? && l.k in s.calls && s.calls[l.k].Unmatched?
    ensures StepOk(s, l.k, CreateUserOp(s, l))
  {
    hide Closed, CreateByOAuth, CallsOk, Grows, LogOk, Known, Member;
    PutOk(s, l.k, Failed);
    var pc := s.calls[l.k];
    var r := CreateByOAuth(s.db, l.u, l.a, l.slug, l.m, Stored(l.now), l.i, pc.provider, pc.subject, pc.email);
    if r.Some? {
      OAuthRows(s.db, l.u, l.a, l.slug, l.m, Stored(l.now), l.i, pc.provider, pc.subject, pc.email);
      OAuthTenantClosed(s.db, l.u, l.a, l.slug, l.m, Stored(l.now), l.i, pc.provider, pc.subject, pc.email);
      CreateUserLog(s, l, r.value, pc);
      assert r.value.identities[l.i] == Identity(l.u, pc.provider, pc.subject, pc.email);
      assert IdentifiedBy(r.value.identities, pc.provider, pc.subject, l.u);
    }
  }

  lemma ResolveStep(s: State, k: CallId)
    requires Inv(s) && k in s.calls && s.calls[k].Resolving?
    ensures StepOk(s, k, ResolveOp(s, k))
  {
    hide Closed, Grows, LogOk, OriginOk, Member, AccountOf;
    PutOk(s, k, Failed);
    var pc := s.calls[k];
    assert CallOk(s.db, s.log, k, pc);
    AccountOfMember(s.db, pc.user);
    var a := AccountOf(s.db.memberships, pc.user).value;
    assert Member(s.db.memberships, a, pc.user);
    PutOk(s, k, Entering(pc.user, a, pc.origin));
  }

  lemma OpenSessionStep(s: State, l: Label)
    requires Inv(s) && l.OpenSession? && l.k in s.calls && s.calls[l.k].Entering?
    ensures StepOk(s, l.k, OpenSessionOp(s, l))
  {
    hide Closed, Grows, Member;
    PutOk(s, l.k, Failed);
    var pc := s.calls[l.k];
    assert CallOk(s.db, s.log, l.k, pc);
    var row := Session(pc.user, pc.account, ExpiresAfter(l.now, l.ttl), false);
    var r := InsertSession(s.db, l.s, row);
    if l.ttl > 0 && r.Some? {
      SessionClosed(s.db, l.s, row);
      LogStays(s.db, r.value, s.log);
      hide IssuedOk, MadeOk, VerifiedOk, MintsOk, CallsOk, IdentifiedBy;
    }
  }

  lemma SignStep(s: State, k: CallId)
    requires Inv(s) && k in s.calls && s.calls[k].Signing?
    ensures StepOk(s, k, SignOp(s, k))
  {
    hide Closed, Grows, OriginOk, Member;
    PutOk(s, k, Failed);
    GrowsRefl(s.db);
    var pc := s.calls[k];
    assert CallOk(s.db, s.log, k, pc);
    OriginStays(s.db, s.db, s.log, SignOp(s, k).log, k, pc.user, pc.origin);
    hide MadeOk, VerifiedOk, PasswordOk, MintsOk, CallsOk;
  }

  lemma BearerStep(s: State, l: Label)
    requires Inv(s) && l.Bearer? && l.claims in s.log.issued
    ensures StepOk(s, l.k, BearerOp(s, l))
  {
    hide Grows, OneHome, EmailsUnique, VTokensOk, CodesMatchDevices, TokensMatchDevices, CallsOk, Member;
    PutOk(s, l.k, Failed);
    assert Member(s.db.memberships, l.claims.account, l.claims.user);
    PutOk(s, l.k, Authed(l.claims.user, l.claims.account, None, l.claims.session));
  }

  lemma TokenAuthStep(s: State, l: Label)
    requires Inv(s) && l.TokenAuth?
    ensures StepOk(s, l.k, TokenAuthOp(s, l))
  {
    hide Grows, LogOk, OneHome, EmailsUnique, VTokensOk, CodesMatchDevices, CallsOk, Member, HasToken;
    PutOk(s, l.k, Failed);
    var t := LookupToken(s.db, l.hash, l.now);
    if t.Ok? {
      var row := s.db.tokens[t.value];
      assert Member(s.db.memberships, row.account, row.user);
      PutOk(s, l.k, Authed(row.user, row.account, if row.device == Some("") then None else row.device,
                           API_TOKEN_PREFIX + t.value));
    }
  }

  lemma NewApiTokenStep(s: State, l: Label)
    requires Inv(s) && l.NewApiToken? && MayAct(s, l.k)
    ensures StepOk(s, l.k, NewApiTokenOp(s, l))
  {
    hide Closed, Grows, LogOk, Member;
    PutOk(s, l.k, Failed);
    var pc := s.calls[l.k];
    assert CallOk(s.db, s.log, l.k, pc);
    var row := ApiToken(pc.account, pc.user, None, l.hash, None, false);
    var r := InsertToken(s.db, l.t, row);
    if r.Some? {
      TokenClosed(s.db, l.t, row);
      WriteOk(s, l.k, r.value, Finished);
    }
  }

  lemma NewPairCodeStep(s: State, l: Label)
    requires Inv(s) && l.NewPairCode? && MayAct(s, l.k)
    ensures StepOk(s, l.k, NewPairCodeOp(s, l))
  {
    hide Closed, Grows, LogOk, Member;
    PutOk(s, l.k, Failed);
    var pc := s.calls[l.k];
    assert CallOk(s.db, s.log, l.k, pc);
    hide CallsOk, Stored;
    var row := PairCode(pc.account, pc.user, Stored(l.now + PAIR_CODE_TTL), None);
    var r := InsertCode(s.db, l.code, row);
    if r.Some? {
      CodeClosed(s.db, l.code, row);
      WriteOk(s, l.k, r.value, Finished);
    }
  }

  lemma NewAgentStep(s: State, l: Label)
    requires Inv(s) && l.NewAgent? && MayAct(s, l.k)
    ensures StepOk(s, l.k, NewAgentOp(s, l))
  {
    hide Closed, Grows, LogOk, Member;
    PutOk(s, l.k, Failed);
    var pc := s.calls[l.k];
    assert CallOk(s.db, s.log, l.k, pc);
    if pc.device.Some? {
      var row := AgentSession(pc.account, pc.device.value, true);
      var r := InsertAgent(s.db, l.g, row);
      if r.Some? {
        AgentClosed(s.db, l.g, row);
        WriteOk(s, l.k, r.value, Finished);
      }
    }
  }

  lemma FindStep(s: State, l: Label)
    requires Inv(s) && MayAct(s, l.k) && (l.FindAgent? || l.FindDevice?)
    ensures l.FindAgent? ==> StepOk(s, l.k, FindAgentOp(s, l))
    ensures l.FindDevice? ==> StepOk(s, l.k, FindDeviceOp(s, l))
  {
    hide Closed, Grows, LogOk, CallsOk, StepOk;
    PutOk(s, l.k, Failed);
    var pc := s.calls[l.k];
    if l.FindAgent? && l.g in s.db.agents && s.db.agents[l.g].account == pc.account
       && pc.device == Some(s.db.agents[l.g].device)
    {
      PutOk(s, l.k, Ending(l.g, pc.account, pc.device));
    }
    if l.FindDevice? && l.d in s.db.devices && s.db.devices[l.d].account == pc.account {
      PutOk(s, l.k, Deleting(l.d, pc.account));
    }
  }

  lemma StopAgentStep(s: State, k: CallId)
    requires Inv(s) && k in s.calls && s.calls[k].Ending?
    ensures StepOk(s, k, StopAgentOp(s, k))
  {
    hide Closed, Grows, LogOk, CallsOk, StepOk;
    EndAgentClosed(s.db, s.calls[k].agent);
    WriteOk(s, k, EndAgent(s.db, s.calls[k].agent), Finished);
  }

  lemma DropDeviceStep(s: State, k: CallId)
    requires Inv(s) && k in s.calls && s.calls[k].Deleting?
    ensures StepOk(s, k, DropDeviceOp(s, k))
  {
    hide Closed, Grows, LogOk, CallsOk, StepOk;
    DeleteDeviceClosed(s.db, s.calls[k].deleted);
    WriteOk(s, k, DeleteDevice(s.db, s.calls[k].deleted), Finished);
  }

  lemma RevokeApiTokenStep(s: State, l: Label)
    requires Inv(s) && l.RevokeApiToken?
    ensures StepOk(s, l.k, RevokeApiTokenOp(s, l))
  {
    hide Closed, Grows, LogOk, CallsOk, StepOk;
    RevokeTokenClosed(s.db, l.t);
    WriteOk(s, l.k, RevokeToken(s.db, l.t), Finished);
  }

  lemma LogoutStep(s: State, k: CallId)
    requires Inv(s) && MayAct(s, k)
    ensures StepOk(s, k, LogoutOp(s, k))
  {
    hide Closed, Grows, LogOk, CallsOk, StepOk;
    RevokeSessionClosed(s.db, s.calls[k].sessionId);
    WriteOk(s, k, RevokeSession(s.db, s.calls[k].sessionId), Finished);
  }

  lemma ClaimStep(s: State, l: Label)
    requires Inv(s) && l.Claim?
    ensures StepOk(s, l.k, ClaimOp(s, l))
  {
    hide Grows, LogOk, OneHome, EmailsUnique, VTokensOk, CodesMatchDevices, TokensMatchDevices, CallsOk, Member;
    hide ClaimDevice;
    PutOk(s, l.k, Failed);
    var r := ClaimDevice(s.db, l.code, l.now, l.d, l.t, l.hash);
    if r.Ok? {
      ClaimRows(s.db, l.code, l.now, l.d, l.t, l.hash);
      ClaimClosed(s.db, l.code, l.now, l.d, l.t, l.hash);
      var row := s.db.codes[l.code];
      assert Member(s.db.memberships, row.account, row.user);
      WriteOk(s, l.k, r.value, Claimed(l.code, l.d, l.t, row.account, row.user));
    }
  }

  lemma MintStep(s: State, k: CallId)
    requires Inv(s) && k in s.calls && s.calls[k].Claimed?
    ensures StepOk(s, k, MintOp(s, k))
  {
    hide Closed, Grows, Member;
    GrowsRefl(s.db);
    assert CallOk(s.db, s.log, k, s.calls[k]);
    hide IssuedOk, MadeOk, VerifiedOk, PasswordOk, CallsOk;
  }

  lemma InitInv()
    ensures Inv(INIT)
  {}

  /** Every step keeps the invariant and takes no row, mark or log entry back. */
  lemma InvStep(s: State, l: Label, s': State)
    requires Inv(s) && Next(s, l, s')
    ensures Inv(s') && StepOk(s, l.k, s')
  {
    hide Inv, StepOk, Next;
    if l.k !in s.calls {
      BeginStep(s, l, s');
    } else if MayAct(s, l.k) {
      RequestStep(s, l, s');
    } else {
      GoOnStep(s, l, s');
    }
    InvAfter(s, l.k, s');
  }

  lemma BeginStep(s: State, l: Label, s': State)
    requires Inv(s) && Next(s, l, s') && l.k !in s.calls
    ensures StepOk(s, l.k, s')
  {
    hide Inv, StepOk, Next;
    hide SignupOp, RequestResetOp, ConsumeOp, LoginOp, OAuthOp, BearerOp, TokenAuthOp, ClaimOp;
    BeginDoes(s, l, s');
    match l
    case Signup(_, _, _, _, _, _, _, _) => SignupStep(s, l);
    case RequestReset(_, _) => RequestResetStep(s, l);
    case Consume(_, _, _, _, _) => ConsumeStep(s, l);
    case Login(_, _, _) => LoginStep(s, l);
    case OAuth(_, _, _, _) => OAuthStep(s, l);
    case Bearer(_, _, _) => BearerStep(s, l);
    case TokenAuth(_, _, _) => TokenAuthStep(s, l);
    case Claim(_, _, _, _, _, _) => ClaimStep(s, l);
  }

  lemma RequestStep(s: State, l: Label, s': State)
    requires Inv(s) && Next(s, l, s') && MayAct(s, l.k)
    ensures StepOk(s, l.k, s')
  {
    hide Inv, StepOk, Next, Put;
    hide NewApiTokenOp, NewPairCodeOp, NewAgentOp, FindAgentOp, FindDeviceOp, RevokeApiTokenOp, LogoutOp;
    RequestDoes(s, l, s');
    match l
    case NewApiToken(_, _, _) => NewApiTokenStep(s, l);
    case NewPairCode(_, _, _) => NewPairCodeStep(s, l);
    case NewAgent(_, _) => NewAgentStep(s, l);
    case FindAgent(_, _) => FindStep(s, l);
    case FindDevice(_, _) => FindStep(s, l);
    case RevokeApiToken(_, _) => RevokeApiTokenStep(s, l);
    case Logout(k) => LogoutStep(s, k);
    case CutOff(k) => CutOffStep(s, k);
  }

  lemma GoOnStep(s: State, l: Label, s': State)
    requires Inv(s) && Next(s, l, s') && l.k in s.calls && !MayAct(s, l.k)
    ensures StepOk(s, l.k, s')
  {
    hide Inv, StepOk, Next, Put;
    hide MailTokenOp, UseConsumedOp, MatchEmailOp, LinkIdentityOp, CreateUserOp, ResolveOp, OpenSessionOp, SignOp;
    hide StopAgentOp, DropDeviceOp, MintOp;
    GoOnDoes(s, l, s');
    match l
    case MailToken(_, _, _, _, _) => MailTokenStep(s, l);
    case UseConsumed(k) => UseConsumedStep(s, k);
    case MatchEmail(k) => MatchEmailStep(s, k);
    case LinkIdentity(_, _) => LinkIdentityStep(s, l);
    case CreateUser(_, _, _, _, _, _, _) => CreateUserStep(s, l);
    case Resolve(k) => ResolveStep(s, k);
    case OpenSession(_, _, _, _) => OpenSessionStep(s, l);
    case Sign(k) => SignStep(s, k);
    case StopAgent(k) => StopAgentStep(s, k);
    case DropDevice(k) => DropDeviceStep(s, k);
    case Mint(k) => MintStep(s, k);
    case CutOff(k) => CutOffStep(s, k);
  }

  lemma RequestResetStep(s: State, l: Label)
    requires Inv(s) && l.RequestReset?
    ensures StepOk(s, l.k, RequestResetOp(s, l))
  {
    hide Closed, Grows, LogOk, CallsOk;
    PutOk(s, l.k, Finished);
    var u := FindUser(s.db.users, l.email);
    if u.Some? {
      PutOk(s, l.k, ResetFound(u.value, l.email));
    }
  }

  lemma CutOffStep(s: State, k: CallId)
    requires Inv(s)
    ensures StepOk(s, k, Put(s, k, Failed))
  {
    hide Closed, Grows, LogOk, CallsOk;
    PutOk(s, k, Failed);
  }
}
