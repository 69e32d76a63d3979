/** How each kind of step of AuthSteps ends in a reachable state, in the columns' own terms:
    when the call goes on, what it then knows, and exactly what it leaves in the tables. */
module AuthOutcomes {
  import opened Wrappers
  import opened Tables
  import opened Tenancy
  import opened AuthSteps
  import opened AuthInvariants
  import opened AuthSpec

  lemma InvClosed(s: State)
    requires Inv(s)
    ensures Closed(s.db)
  {
    hide Closed, LogOk, CallsOk;
  }

  /** A call goes on over new tables. */
  ghost function On(s: State, k: CallId, db: Db, pc: Pc): State { s.(db := db, calls := s.calls[k := pc]) }

  /** A call fails and leaves the tables. */
  ghost function Fails(s: State, k: CallId): State { s.(calls := s.calls[k := Failed]) }

  // ---------------------------------------------------------------- signup, verification, reset

  lemma SignupOutcome(s: State, l: Label)
    requires Inv(s) && l.Signup?
    ensures SignupOp(s, l)
         == if l.email != "" && l.hash != "" && MayCreate(s.db, l.u, l.email, l.a, l.slug, l.m) then
              On(s, l.k, s.db.(users := s.db.users[l.u := User(l.email, l.hash, false)],
                               accounts := s.db.accounts[l.a := Account(l.slug)],
                               memberships := s.db.memberships[l.m := Membership(l.a, l.u, Stored(l.now))]),
                 SignedUp(l.u, l.a, l.email))
            else Fails(s, l.k)
  {
    hide Inv, MayCreate, CreateTenant, Stored;
    InvClosed(s);
    var user := User(l.email, l.hash, false);
    TenantExactly(s.db, l.u, user, l.a, l.slug, l.m, Stored(l.now));
    if CreateTenant(s.db, l.u, user, l.a, l.slug, l.m, Stored(l.now)).Some? {
      TenantRows(s.db, l.u, user, l.a, l.slug, l.m, Stored(l.now));
    }
  }

  ghost predicate MayStore(db: Db, t: Id, hash: string) {
    t != "" && t !in db.vtokens && forall x :: x in db.vtokens ==> db.vtokens[x].hash != hash
  }

  lemma MailOutcome(s: State, l: Label)
    requires Inv(s) && l.MailToken? && MayMail(s, l.k)
    ensures var pc := s.calls[l.k];
            MailTokenOp(s, l)
            == if MayStore(s.db, l.t, l.hash) && pc.email != "" && l.ttl >= 0 then
              On(s, l.k, s.db.(vtokens := s.db.vtokens[l.t :=
                   VToken(if pc.SignedUp? then EmailVerify else PasswordReset, pc.user, pc.email, l.hash,
                          ExpiresAfter(l.now, l.ttl), None)]), Finished)
            else Fails(s, l.k)
  {
    hide Closed, LogOk, ExpiresAfter;
    assert CallOk(s.db, s.log, l.k, s.calls[l.k]);
  }

  lemma ResetRequestOutcome(s: State, l: Label)
    requires Inv(s) && l.RequestReset?
    ensures forall u :: HasEmail(s.db, u, l.email) ==>
              RequestResetOp(s, l) == On(s, l.k, s.db, ResetFound(u, l.email))
    ensures (forall u :: !HasEmail(s.db, u, l.email)) ==> RequestResetOp(s, l) == On(s, l.k, s.db, Finished)
  {
    hide Inv, FindUser, HasEmail;
    InvClosed(s);
    FoundEmail(s.db, l.email);
  }

  ghost predicate MayUse(s: State, l: Label, t: Id)
    requires l.Consume?
  {
    MayConsume(s.db, t, l.hash, l.purpose, l.now) && (l.purpose == PasswordReset ==> l.newHash != "")
  }

  lemma ConsumeOutcome(s: State, l: Label)
    requires Inv(s) && l.Consume?
    ensures forall t :: MayUse(s, l, t) ==>
              ConsumeOp(s, l)
              == On(s, l.k, s.db.(vtokens := s.db.vtokens[t := s.db.vtokens[t].(consumed := Some(l.now))]),
                 Consumed(t, l.purpose, s.db.vtokens[t].user, l.newHash))
    ensures (forall t :: !MayUse(s, l, t)) ==> ConsumeOp(s, l) == Fails(s, l.k)
  {
    hide Inv, ConsumeVToken;
    InvClosed(s);
    ConsumeExactly(s.db, l.hash, l.purpose, l.now);
    var r := ConsumeVToken(s.db, l.hash, l.purpose, l.now);
    assert r.Ok? && (l.purpose == PasswordReset ==> l.newHash != "") ==> MayUse(s, l, r.value.1);
  }

  /** The second statement of VerifyEmail and of ResetPassword: one column of one row. */
  lemma UseConsumedOutcome(s: State, k: CallId)
    requires Inv(s) && k in s.calls && s.calls[k].Consumed?
    ensures var pc := s.calls[k];
            && pc.user in s.db.users
            && UseConsumedOp(s, k)
            == On(s, k, s.db.(users := s.db.users[pc.user :=
                    if pc.purpose == EmailVerify then s.db.users[pc.user].(verified := true)
                    else s.db.users[pc.user].(passwordHash := pc.newHash)]), Finished)
  {
    hide Closed, LogOk;
    assert CallOk(s.db, s.log, k, s.calls[k]);
  }

  // ---------------------------------------------------------------- logins

  ghost predicate MayEnter(db: Db, u: Id, email: string) {
    u in db.users && db.users[u].email == email && db.users[u].verified && db.users[u].passwordHash != ""
  }

  lemma LoginOutcome(s: State, l: Label)
    requires Inv(s) && l.Login?
    ensures forall u :: l.passwordOk && MayEnter(s.db, u, l.email) ==>
              LoginOp(s, l) == On(s, l.k, s.db, Resolving(u, ByPassword))
    ensures !l.passwordOk || (forall u :: !MayEnter(s.db, u, l.email)) ==> LoginOp(s, l) == Fails(s, l.k)
  {
    hide Inv, FindUser;
    InvClosed(s);
    FoundEmail(s.db, l.email);
    assert forall u :: MayEnter(s.db, u, l.email) ==> HasEmail(s.db, u, l.email);
    var found := FindUser(s.db.users, l.email);
    assert l.passwordOk && found.Some? && LoginOp(s, l) != Fails(s, l.k) ==> MayEnter(s.db, found.value, l.email);
  }

  lemma OAuthOutcome(s: State, l: Label)
    requires Inv(s) && l.OAuth?
    ensures l.email == "" || l.subject == "" ==> OAuthOp(s, l) == Fails(s, l.k)
    ensures l.email != "" && l.subject != "" ==>
              && (forall v :: Stands(s.db, l.provider, l.subject, v) ==>
                    OAuthOp(s, l) == On(s, l.k, s.db, Resolving(v, ByProvider(l.provider, l.subject, false))))
              && ((forall v :: !Stands(s.db, l.provider, l.subject, v)) ==>
                    OAuthOp(s, l) == On(s, l.k, s.db, Unknown(l.provider, l.subject, l.email)))
  {
    hide Inv, FindIdentity, Stands;
    InvClosed(s);
    FoundIdentity(s.db, l.provider, l.subject);
  }

  lemma MatchOutcome(s: State, k: CallId)
    requires Inv(s) && k in s.calls && s.calls[k].Unknown?
    ensures var pc := s.calls[k];
            && (forall v :: HasEmail(s.db, v, pc.email) ==>
                  MatchEmailOp(s, k) == On(s, k, s.db, Matching(pc.provider, pc.subject, pc.email, v)))
            && ((forall v :: !HasEmail(s.db, v, pc.email)) ==>
                  MatchEmailOp(s, k) == On(s, k, s.db, Unmatched(pc.provider, pc.subject, pc.email)))
  {
    hide Inv, FindUser, HasEmail;
    InvClosed(s);
    FoundEmail(s.db, s.calls[k].email);
  }

  lemma StandsIsKnown(db: Db, provider: string, subject: string)
    ensures Known(db.identities, provider, subject) <==> exists v :: Stands(db, provider, subject, v)
  {
    if i :| i in db.identities && IsIdentity(db.identities[i], provider, subject) {
      assert Stands(db, provider, subject, db.identities[i].user);
    }
    if v :| Stands(db, provider, subject, v) {
      var i :| i in db.identities && db.identities[i].user == v
               && db.identities[i].provider == provider && db.identities[i].subject == subject;
      assert IsIdentity(db.identities[i], provider, subject);
    }
  }

  lemma LinkOutcome(s: State, l: Label)
    requires Inv(s) && l.LinkIdentity? && l.k in s.calls && s.calls[l.k].Matching?
    ensures var pc := s.calls[l.k];
            LinkIdentityOp(s, l)
            == if l.i in s.db.identities || exists v :: Stands(s.db, pc.provider, pc.subject, v) then Fails(s, l.k)
            else On(s.(log := s.log.(made := s.log.made[(pc.provider, pc.subject) := LinkedBy(l.k)])), l.k,
                    s.db.(identities := s.db.identities[l.i := Identity(pc.user, pc.provider, pc.subject, pc.email)]),
                    Resolving(pc.user, ByProvider(pc.provider, pc.subject, false)))
  {
    hide Closed, LogOk, Known, Stands;
    assert CallOk(s.db, s.log, l.k, s.calls[l.k]);
    StandsIsKnown(s.db, s.calls[l.k].provider, s.calls[l.k].subject);
  }

  lemma CreateUserOutcome(s: State, l: Label)
    requires Inv(s) && l.CreateUser? && l.k in s.calls && s.calls[l.k].Unmatched?
    ensures var pc := s.calls[l.k];
            CreateUserOp(s, l)
            == if !MayCreate(s.db, l.u, pc.email, l.a, l.slug, l.m) || l.i in s.db.identities
               || exists v :: Stands(s.db, pc.provider, pc.subject, v) then Fails(s, l.k)
            else On(s.(log := s.log.(made := s.log.made[(pc.provider, pc.subject) := CreatedBy(l.k)],
                                     bornVerified := s.log.bornVerified + {l.u})), l.k,
                    s.db.(users := s.db.users[l.u := User(pc.email, "", true)],
                          accounts := s.db.accounts[l.a := Account(l.slug)],
                          memberships := s.db.memberships[l.m := Membership(l.a, l.u, Stored(l.now))],
                          identities := s.db.identities[l.i := Identity(l.u, pc.provider, pc.subject, pc.email)]),
                    Entering(l.u, l.a, ByProvider(pc.provider, pc.subject, true)))
  {
    hide Inv, Known, Stands, MayCreate, CreateByOAuth, Stored;
    InvClosed(s);
    var pc := s.calls[l.k];
    StandsIsKnown(s.db, pc.provider, pc.subject);
    if exists v :: Stands(s.db, pc.provider, pc.subject, v) {
      KnownRefuses(s.db, l.u, l.a, l.slug, l.m, Stored(l.now), l.i, pc.provider, pc.subject, pc.email);
    } else {
      OAuthExactly(s.db, l.u, l.a, l.slug, l.m, Stored(l.now), l.i, pc.provider, pc.subject, pc.email);
    }
  }

  lemma KnownRefuses(db: Db, u: Id, a: Id, slug: string, m: Id, since: Time, i: Id,
                     provider: string, subject: string, email: string)
    requires Known(db.identities, provider, subject)
    ensures CreateByOAuth(db, u, a, slug, m, since, i, provider, subject, email).None?
  {
    if CreateByOAuth(db, u, a, slug, m, since, i, provider, subject, email).Some? {
      OAuthRows(db, u, a, slug, m, since, i, provider, subject, email);
    }
    hide CreateByOAuth, Known;
  }

  /** A login always finds the one account of its user. */
  lemma ResolveOutcome(s: State, k: CallId, a: Id)
    requires Inv(s) && k in s.calls && s.calls[k].Resolving? && Member(s.db.memberships, a, s.calls[k].user)
    ensures ResolveOp(s, k) == On(s, k, s.db, Entering(s.calls[k].user, a, s.calls[k].origin))
  {
    hide Inv, AccountOf, Member;
    InvClosed(s);
    OneAccount(s.db, s.calls[k].user, a, a);
    AccountOfMember(s.db, s.calls[k].user);
    OneAccount(s.db, s.calls[k].user, a, AccountOf(s.db.memberships, s.calls[k].user).value);
  }

  lemma OpenOutcome(s: State, l: Label)
    requires Inv(s) && l.OpenSession? && l.k in s.calls && s.calls[l.k].Entering?
    ensures var pc := s.calls[l.k];
            OpenSessionOp(s, l)
            == if l.ttl <= 0 || l.s in s.db.sessions then Fails(s, l.k)
            else On(s.(log := s.log.(passwordSessions :=
                      s.log.passwordSessions + if pc.origin == ByPassword then {l.s} else {})), l.k,
                    s.db.(sessions := s.db.sessions[l.s :=
                      Session(pc.user, pc.account, ExpiresAfter(l.now, l.ttl), false)]),
                    Signing(l.s, pc.user, pc.account, pc.origin))
  {
    hide Closed, LogOk, ExpiresAfter, Member, OriginOk;
    assert CallOk(s.db, s.log, l.k, s.calls[l.k]);
    Homely(s.db, s.calls[l.k].account, s.calls[l.k].user);
  }

  // ---------------------------------------------------------------- requests

  /** A request comes in exactly on a live session, as its user and account. */
  lemma BearerOutcome(s: State, l: Label)
    requires Inv(s) && l.Bearer? && l.claims in s.log.issued
    ensures var x := l.claims.session;
            BearerOp(s, l)
            == if LiveSession(s.db, x, l.now) then
              On(s, l.k, s.db, Authed(s.db.sessions[x].user, s.db.sessions[x].account, None, x))
            else Fails(s, l.k)
  {
    hide Closed, CallsOk, MadeOk, VerifiedOk, PasswordOk, MintsOk;
  }

  /** Or on a live API token, as its user, account and device. */
  lemma TokenOutcome(s: State, l: Label)
    requires Inv(s) && l.TokenAuth?
    ensures forall t :: LiveApiToken(s.db, t, l.hash, l.now) ==>
              TokenAuthOp(s, l)
              == On(s, l.k, s.db,
                 Authed(s.db.tokens[t].user, s.db.tokens[t].account,
                        if s.db.tokens[t].device == Some("") then None else s.db.tokens[t].device, "api-token:" + t))
    ensures (forall t :: !LiveApiToken(s.db, t, l.hash, l.now)) ==> TokenAuthOp(s, l) == Fails(s, l.k)
  {
    hide Inv, LookupToken;
    InvClosed(s);
    LookupExactly(s.db, l.hash, l.now);
  }

  ghost predicate MayAdd(db: Db, t: Id, hash: string) {
    t !in db.tokens && forall x :: x in db.tokens ==> db.tokens[x].hash != hash
  }

  lemma AuthedHomely(s: State, k: CallId)
    requires Inv(s) && MayAct(s, k)
    ensures s.calls[k].user in s.db.users && s.calls[k].account in s.db.accounts
    ensures s.calls[k].device.Some? ==>
              && s.calls[k].device.value in s.db.devices
              && s.db.devices[s.calls[k].device.value].account == s.calls[k].account
  {
    hide Closed, LogOk, Member;
    assert CallOk(s.db, s.log, k, s.calls[k]);
    Homely(s.db, s.calls[k].account, s.calls[k].user);
  }

  lemma NewTokenOutcome(s: State, l: Label)
    requires Inv(s) && l.NewApiToken? && MayAct(s, l.k)
    ensures var pc := s.calls[l.k];
            NewApiTokenOp(s, l)
            == if l.t != "" && pc.account != "" && pc.user != "" && MayAdd(s.db, l.t, l.hash) then
              On(s, l.k, s.db.(tokens := s.db.tokens[l.t :=
                   ApiToken(pc.account, pc.user, None, l.hash, None, false)]), Finished)
            else Fails(s, l.k)
  {
    AuthedHomely(s, l.k);
    hide Inv;
  }

  lemma NewCodeOutcome(s: State, l: Label)
    requires Inv(s) && l.NewPairCode? && MayAct(s, l.k)
    ensures var pc := s.calls[l.k];
            NewPairCodeOp(s, l)
            == if pc.account != "" && pc.user != "" && l.code !in s.db.codes then
              On(s, l.k, s.db.(codes := s.db.codes[l.code :=
                   PairCode(pc.account, pc.user, Stored(l.now + 300_000_000_000), None)]), Finished)
            else Fails(s, l.k)
  {
    AuthedHomely(s, l.k);
    hide Inv, Stored;
  }

  /** Only a device's request starts an agent session, for that device. */
  lemma NewAgentOutcome(s: State, l: Label)
    requires Inv(s) && l.NewAgent? && MayAct(s, l.k)
    ensures var pc := s.calls[l.k];
            NewAgentOp(s, l)
            == if pc.device.Some? && l.g != "" && pc.account != "" && l.g !in s.db.agents then
              On(s, l.k, s.db.(agents := s.db.agents[l.g := AgentSession(pc.account, pc.device.value, true)]), Finished)
            else Fails(s, l.k)
  {
    AuthedHomely(s, l.k);
    hide Inv;
  }

  /** The caller may end an agent session exactly if it is the device that runs it. */
  lemma FindAgentOutcome(s: State, l: Label)
    requires Inv(s) && l.FindAgent? && MayAct(s, l.k)
    ensures var pc := s.calls[l.k];
            FindAgentOp(s, l)
            == if l.g in s.db.agents && pc.device == Some(s.db.agents[l.g].device) then
              On(s, l.k, s.db, Ending(l.g, pc.account, pc.device))
            else Fails(s, l.k)
  {
    InvClosed(s);
    AuthedHomely(s, l.k);
    if l.g in s.db.agents { AgentAccount(s.db, l.g); }
    hide Inv, Closed;
  }

  /** A device may be deleted exactly by a request of its account, and once. */
  lemma FindDeviceOutcome(s: State, l: Label)
    requires l.FindDevice? && MayAct(s, l.k)
    ensures FindDeviceOp(s, l)
         == if l.d in s.db.devices && s.db.devices[l.d] == Device(s.calls[l.k].account, s.db.devices[l.d].user, false)
            then On(s, l.k, s.db, Deleting(l.d, s.calls[l.k].account))
            else Fails(s, l.k)
  {}

  lemma ClaimOutcome(s: State, l: Label)
    requires Inv(s) && l.Claim?
    ensures ClaimOp(s, l)
         == if LiveCode(s.db, l.code, l.now) && l.d !in s.db.devices && MayAdd(s.db, l.t, l.hash) then
              var row := s.db.codes[l.code];
              On(s, l.k,
                 s.db.(codes := s.db.codes[l.code := row.(consumed := Some(Consumption(l.d, l.now)))],
                       devices := s.db.devices[l.d := Device(row.account, row.user, false)],
                       tokens := s.db.tokens[l.t := ApiToken(row.account, row.user, Some(l.d), l.hash, None, false)]),
                 Claimed(l.code, l.d, l.t, row.account, row.user))
            else Fails(s, l.k)
  {
    hide Inv, ClaimDevice;
    InvClosed(s);
    ClaimExactly(s.db, l.code, l.now, l.d, l.t, l.hash);
  }

  // ---------------------------------------------------------------- what a request ends

  lemma LogoutOutcome(s: State, k: CallId)
    requires MayAct(s, k)
    ensures var x := s.calls[k].sessionId;
            LogoutOp(s, k)
            == On(s, k, if x !in s.db.sessions then s.db else
                 s.db.(sessions := s.db.sessions[x := s.db.sessions[x].(revoked := true)]), Finished)
  {}

  lemma RevokeOutcome(s: State, l: Label)
    requires l.RevokeApiToken?
    ensures RevokeApiTokenOp(s, l)
         == On(s, l.k, if l.t !in s.db.tokens then s.db else
              s.db.(tokens := s.db.tokens[l.t := s.db.tokens[l.t].(revoked := true)]), Finished)
  {}

  lemma StopOutcome(s: State, k: CallId)
    requires Inv(s) && k in s.calls && s.calls[k].Ending?
    ensures var g := s.calls[k].agent;
            && g in s.db.agents && s.calls[k].device == Some(s.db.agents[g].device)
            && StopAgentOp(s, k)
               == On(s, k, s.db.(agents := s.db.agents[g := s.db.agents[g].(running := false)]), Finished)
  {
    hide Closed, LogOk, Member;
    assert CallOk(s.db, s.log, k, s.calls[k]);
  }

  lemma DropOutcome(s: State, k: CallId)
    requires Inv(s) && k in s.calls && s.calls[k].Deleting?
    ensures var d := s.calls[k].deleted;
            && d in s.db.devices && s.db.devices[d].account == s.calls[k].account
            && DropDeviceOp(s, k)
               == On(s, k, s.db.(devices := s.db.devices[d := s.db.devices[d].(deleted := true)]), Finished)
  {
    hide Closed, LogOk, Member;
    assert CallOk(s.db, s.log, k, s.calls[k]);
  }

  // ---------------------------------------------------------------- what a step leaves alone

  ghost predicate LeavesLogins(l: Label, db: Db, db': Db) {
    && (l.Signup? || l.UseConsumed? || l.CreateUser? || db'.users == db.users)
    && (l.OpenSession? || l.Logout? || db'.sessions == db.sessions)
    && (l.MailToken? || l.Consume? || db'.vtokens == db.vtokens)
    && (l.LinkIdentity? || l.CreateUser? || db'.identities == db.identities)
  }

  ghost predicate LeavesDevices(l: Label, db: Db, db': Db) {
    && (l.NewApiToken? || l.RevokeApiToken? || l.Claim? || db'.tokens == db.tokens)
    && (l.Claim? || l.DropDevice? || db'.devices == db.devices)
    && (l.NewPairCode? || l.Claim? || db'.codes == db.codes)
    && (l.NewAgent? || l.StopAgent? || db'.agents == db.agents)
  }

  /** A table or a record of the log changes only at the steps that write it. */
  ghost predicate Leaves(l: Label, s: State, s': State) {
    && LeavesLogins(l, s.db, s'.db) && LeavesDevices(l, s.db, s'.db)
    && (l.Mint? || s'.log.mints == s.log.mints)
    && (l.Sign? || s'.log.issued == s.log.issued)
    && (l.CreateUser? || s'.log.bornVerified == s.log.bornVerified)
  }

  lemma BeginLeaves(s: State, l: Label, s': State)
    requires Inv(s) && Next(s, l, s') && l.k !in s.calls
    ensures Leaves(l, s, s')
  {
    hide Inv, Next, MayCreate, MayUse, MayEnter, Stands, LiveSession, LiveApiToken, LiveCode, MayAdd, HasEmail, Stored;
    hide SignupOp, RequestResetOp, ConsumeOp, LoginOp, OAuthOp, BearerOp, TokenAuthOp, ClaimOp;
    BeginDoes(s, l, s');
    match l
    case Signup(_, _, _, _, _, _, _, _) => SignupOutcome(s, l);
    case RequestReset(_, _) => ResetRequestOutcome(s, l);
    case Consume(_, _, _, _, _) => ConsumeOutcome(s, l);
    case Login(_, _, _) => LoginOutcome(s, l);
    case OAuth(_, _, _, _) => OAuthOutcome(s, l);
    case Bearer(_, _, _) => BearerOutcome(s, l);
    case TokenAuth(_, _, _) => TokenOutcome(s, l);
    case Claim(_, _, _, _, _, _) => ClaimOutcome(s, l);
  }

  lemma RequestLeaves(s: State, l: Label, s': State)
    requires Inv(s) && Next(s, l, s') && MayAct(s, l.k)
    ensures Leaves(l, s, s')
  {
    hide Inv, Next, MayAdd, Stored;
    hide NewApiTokenOp, NewPairCodeOp, NewAgentOp, FindAgentOp, RevokeApiTokenOp, LogoutOp;
    RequestDoes(s, l, s');
    match l
    case NewApiToken(_, _, _) => NewTokenOutcome(s, l);
    case NewPairCode(_, _, _) => NewCodeOutcome(s, l);
    case NewAgent(_, _) => NewAgentOutcome(s, l);
    case FindAgent(_, _) => FindAgentOutcome(s, l);
    case FindDevice(_, _) =>
    case RevokeApiToken(_, _) => RevokeOutcome(s, l);
    case Logout(k) => LogoutOutcome(s, k);
    case CutOff(k) =>
  }

  lemma GoOnLeaves(s: State, l: Label, s': State)
    requires Inv(s) && Next(s, l, s') && l.k in s.calls && !MayAct(s, l.k)
    ensures Leaves(l, s, s')
  {
    hide Inv, Next, MayStore, Stands, MayCreate, HasEmail, ExpiresAfter, Stored, AccountOf;
    hide MailTokenOp, UseConsumedOp, MatchEmailOp, LinkIdentityOp, CreateUserOp, OpenSessionOp;
    hide StopAgentOp, DropDeviceOp;
    GoOnDoes(s, l, s');
    match l
    case MailToken(_, _, _, _, _) => MailOutcome(s, l);
    case UseConsumed(k) => UseConsumedOutcome(s, k);
    case MatchEmail(k) => MatchOutcome(s, k);
    case LinkIdentity(_, _) => LinkOutcome(s, l);
    case CreateUser(_, _, _, _, _, _, _) => CreateUserOutcome(s, l);
    case Resolve(k) =>
    case OpenSession(_, _, _, _) => OpenOutcome(s, l);
    case Sign(k) =>
    case StopAgent(k) => StopOutcome(s, k);
    case DropDevice(k) => DropOutcome(s, k);
    case Mint(k) =>
    case CutOff(k) =>
  }

  lemma StepLeaves(s: State, l: Label, s': State)
    requires Inv(s) && Next(s, l, s')
    ensures Leaves(l, s, s')
  {
    hide Inv, Leaves, Next;
    if l.k !in s.calls {
      BeginLeaves(s, l, s');
    } else if MayAct(s, l.k) {
      RequestLeaves(s, l, s');
    } else {
      GoOnLeaves(s, l, s');
    }
  }
}
