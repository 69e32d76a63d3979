/** What identity and tenancy promise over every run of the auth system. */
module AuthTheorems {
  import opened Wrappers
  import opened Tables
  import opened Tenancy
  import opened AuthSteps
  import opened AuthInvariants
  import opened AuthSpec
  import opened AuthOutcomes
  import L = LinkSteps
  import LT = LinkTheorems

  // ---------------------------------------------------------------- runs

  ghost predicate Steps(states: seq<State>, labels: seq<Label>) {
    && |states| == |labels| + 1
    && forall i :: 0 <= i < |labels| ==> Next(states[i], labels[i], states[i + 1])
  }

  ghost predicate Run(states: seq<State>, labels: seq<Label>) { Steps(states, labels) && states[0] == INIT }

  lemma {:induction false} RunInv(states: seq<State>, labels: seq<Label>, n: nat)
    requires Run(states, labels) && n < |states|
    ensures Inv(states[n])
  {
    hide Inv, Next;
    if n == 0 {
      InitInv();
    } else {
      RunInv(states, labels, n - 1);
      InvStep(states[n - 1], labels[n - 1], states[n]);
    }
  }

  /** Over a run no row goes and no mark is taken back. */
  lemma {:induction false} RunGrows(states: seq<State>, labels: seq<Label>, m: nat, n: nat)
    requires Run(states, labels) && m <= n < |states|
    ensures Grows(states[m].db, states[n].db) && LogGrows(states[m].log, states[n].log)
  {
    hide Inv, Next, Grows, LogGrows, LogOk, Closed, CallOk;
    if m == n {
      GrowsRefl(states[m].db);
      LogGrowsRefl(states[m].log);
    } else {
      RunGrows(states, labels, m, n - 1);
      RunInv(states, labels, n - 1);
      InvStep(states[n - 1], labels[n - 1], states[n]);
      GrowsTrans(states[m].db, states[n - 1].db, states[n].db);
      LogGrowsTrans(states[m].log, states[n - 1].log, states[n].log);
    }
  }

  lemma LogGrowsRefl(a: Log)
    ensures LogGrows(a, a)
  {}

  // ---------------------------------------------------------------- tenancy

  /** The (account, user) pairs of the tables are memberships, and an agent session's
      account is its device's. */
  ghost predicate PairsAreMemberships(db: Db) {
    && (forall s :: s in db.sessions ==> Member(db.memberships, db.sessions[s].account, db.sessions[s].user))
    && (forall t :: t in db.tokens ==> Member(db.memberships, db.tokens[t].account, db.tokens[t].user))
    && (forall c :: c in db.codes ==> Member(db.memberships, db.codes[c].account, db.codes[c].user))
    && (forall d :: d in db.devices ==> Member(db.memberships, db.devices[d].account, db.devices[d].user))
    && (forall g :: g in db.agents ==>
          db.agents[g].device in db.devices && db.agents[g].account == db.devices[db.agents[g].device].account)
  }

  ghost predicate ExactlyOneMembership(db: Db) {
    && (forall u :: u in db.users ==> exists m :: m in db.memberships && db.memberships[m].user == u)
    && (forall m, m' :: m in db.memberships && m' in db.memberships ==>
          (db.memberships[m].user == db.memberships[m'].user <==> m == m'))
  }

  /** Every request runs as the one account of its user, and on a device of that user and
      account if it comes from a device. */
  ghost predicate RequestsAtHome(s: State) {
    forall k :: k in s.calls && s.calls[k].Authed? ==> RequestAtHome(s.db, s.calls[k])
  }

  ghost predicate RequestAtHome(db: Db, pc: Pc)
    requires pc.Authed?
  {
    && AccountOf(db.memberships, pc.user) == Some(pc.account)
    && (pc.device.Some? ==>
          && pc.device.value in db.devices
          && db.devices[pc.device.value].account == pc.account && db.devices[pc.device.value].user == pc.user)
  }

  /** In every reachable state each user has exactly one membership, every pair anywhere in
      the tables is that membership, and requests run at home. */
  lemma TenancyClosure(states: seq<State>, labels: seq<Label>, n: nat)
    requires Run(states, labels) && n < |states|
    ensures ExactlyOneMembership(states[n].db) && PairsAreMemberships(states[n].db) && RequestsAtHome(states[n])
  {
    RunInv(states, labels, n);
    hide Next, Closed, LogOk, RequestAtHome;
    ClosedPairs(states[n].db);
    forall k | k in states[n].calls && states[n].calls[k].Authed?
      ensures RequestAtHome(states[n].db, states[n].calls[k])
    {
      AuthedAccount(states[n], k);
    }
    hide PairsAreMemberships, ExactlyOneMembership;
  }

  lemma AuthedAccount(s: State, k: CallId)
    requires Inv(s) && k in s.calls && s.calls[k].Authed?
    ensures RequestAtHome(s.db, s.calls[k])
  {
    hide Closed, Member, AccountOf, LogOk;
    var pc := s.calls[k];
    assert CallOk(s.db, s.log, k, pc);
    OneAccount(s.db, pc.user, pc.account, pc.account);
    AccountOfMember(s.db, pc.user);
  }

  lemma ClosedPairs(db: Db)
    requires Closed(db)
    ensures PairsAreMemberships(db) && ExactlyOneMembership(db)
  {
    hide Member, HasOwner, ComesFromCode, HasToken, DeviceOf, IsIdentity, EmailsUnique, IdentitiesOk, VTokensOk;
    hide CodesMatchDevices, TokensMatchDevices;
    forall u | u in db.users ensures exists m :: m in db.memberships && db.memberships[m].user == u {
      assert HasHome(db.memberships, u);
    }
    hide HasHome;
  }

  /** A user's account never changes: two members rows read at any two moments name one
      account. */
  lemma HomeForever(states: seq<State>, labels: seq<Label>, m: nat, n: nat, user: Id, a: Id, b: Id)
    requires Run(states, labels) && m <= n < |states|
    requires Member(states[m].db.memberships, a, user) && Member(states[n].db.memberships, b, user)
    ensures a == b
  {
    hide Next, Closed, CallsOk, LogOk, LogGrows;
    RunInv(states, labels, n);
    RunGrows(states, labels, m, n);
    MemberStays(states[m].db.memberships, states[n].db.memberships, a, user);
    OneAccount(states[n].db, user, a, b);
  }

  // ---------------------------------------------------------------- identities

  /** A call that has found whom a provider's identity belongs to. */
  ghost predicate LoggedInAs(pc: Pc, provider: string, subject: string, user: Id) {
    && (pc.Resolving? || pc.Entering? || pc.Signing? || pc.Entered?)
    && pc.user == user && pc.origin.ByProvider? && pc.origin.provider == provider && pc.origin.subject == subject
  }

  lemma OneIdentity(db: Db, provider: string, subject: string, u: Id, v: Id)
    requires Closed(db)
    requires IdentifiedBy(db.identities, provider, subject, u) && IdentifiedBy(db.identities, provider, subject, v)
    ensures u == v
  {
    hide EmailsUnique, OneHome, SessionsHome, TokensHome, CodesHome, DevicesHome, AgentsHome, VTokensOk;
    hide CodesMatchDevices, TokensMatchDevices;
  }

  lemma LoggedInFacts(s: State, k: CallId, provider: string, subject: string, user: Id)
    requires Inv(s) && k in s.calls && LoggedInAs(s.calls[k], provider, subject, user)
    ensures IdentifiedBy(s.db.identities, provider, subject, user)
    ensures (provider, subject) in s.log.made
    ensures s.calls[k].origin.created ==> s.log.made[(provider, subject)] == CreatedBy(k)
    ensures !s.calls[k].Resolving? ==> Member(s.db.memberships, s.calls[k].account, user)
  {
    hide Closed, IssuedOk, VerifiedOk, PasswordOk, MintsOk, Member;
    assert CallOk(s.db, s.log, k, s.calls[k]);
    assert IdentifiedBy(s.db.identities, provider, subject, user);
    assert Known(s.db.identities, provider, subject);
  }

  /** However logins interleave and whatever email the provider reports, an identity stands
      for one user for ever, every login through it that knows its account has the same
      account, and at most one of them ever reports the user as created. */
  lemma StableIdentity(states: seq<State>, labels: seq<Label>, m: nat, n: nat, k: CallId, j: CallId,
                       provider: string, subject: string, user: Id, user': Id)
    requires Run(states, labels) && m <= n < |states| && k in states[m].calls && j in states[n].calls
    requires LoggedInAs(states[m].calls[k], provider, subject, user)
    requires LoggedInAs(states[n].calls[j], provider, subject, user')
    ensures user == user'
    ensures !states[m].calls[k].Resolving? && !states[n].calls[j].Resolving? ==>
              states[m].calls[k].account == states[n].calls[j].account
    ensures states[m].calls[k].origin.created && states[n].calls[j].origin.created ==> k == j
  {
    hide Next, Closed, LogOk, CallsOk, CallOk, Member, IdentifiedBy;
    RunInv(states, labels, m);
    RunInv(states, labels, n);
    RunGrows(states, labels, m, n);
    LoggedInFacts(states[m], k, provider, subject, user);
    LoggedInFacts(states[n], j, provider, subject, user');
    IdentifiedStays(states[m].db.identities, states[n].db.identities, provider, subject, user);
    OneIdentity(states[n].db, provider, subject, user, user');
    if !states[m].calls[k].Resolving? && !states[n].calls[j].Resolving? {
      HomeForever(states, labels, m, n, user, states[m].calls[k].account, states[n].calls[j].account);
    }
  }

  /** An identity that an email match linked to an existing user is never reported as
      created, before or after. */
  lemma LinkedIsNotCreated(states: seq<State>, labels: seq<Label>, m: nat, n: nat, j: CallId, k: CallId,
                           provider: string, subject: string, user: Id)
    requires Run(states, labels) && m < |states| && n < |states|
    requires (provider, subject) in states[m].log.made && states[m].log.made[(provider, subject)] == LinkedBy(j)
    requires k in states[n].calls && LoggedInAs(states[n].calls[k], provider, subject, user)
    ensures !states[n].calls[k].origin.created
  {
    hide Next, Closed, LogOk, CallsOk, CallOk, Member, IdentifiedBy, Grows;
    RunInv(states, labels, n);
    LoggedInFacts(states[n], k, provider, subject, user);
    RunGrows(states, labels, if m <= n then m else n, if m <= n then n else m);
  }

  // ---------------------------------------------------------------- verification

  /** The step of a consume call found a token and consumed it. */
  ghost predicate Consumes(states: seq<State>, labels: seq<Label>, i: nat)
    requires |states| == |labels| + 1 && i < |labels|
  {
    labels[i].Consume? && labels[i].k in states[i + 1].calls && states[i + 1].calls[labels[i].k].Consumed?
  }

  lemma ConsumeFacts(s: State, l: Label)
    requires l.Consume? && ConsumeOp(s, l).calls[l.k].Consumed?
    ensures var pc := ConsumeOp(s, l).calls[l.k];
            && pc.token in s.db.vtokens && s.db.vtokens[pc.token].hash == l.hash
            && s.db.vtokens[pc.token].purpose == l.purpose == pc.purpose && s.db.vtokens[pc.token].user == pc.user
            && s.db.vtokens[pc.token].consumed == None && l.now <= s.db.vtokens[pc.token].expires
            && ConsumeOp(s, l).db.vtokens == s.db.vtokens[pc.token := s.db.vtokens[pc.token].(consumed := Some(l.now))]
  {
    ConsumeRows(s.db, l.hash, l.purpose, l.now);
    hide ConsumeVToken;
  }

  /** A call consumes a token only if it presents it for its purpose, unconsumed and not
      after its expiry, and goes on for the token's user; no other token changes. */
  lemma ConsumedRightly(states: seq<State>, labels: seq<Label>, i: nat)
    requires Run(states, labels) && i < |labels| && Consumes(states, labels, i)
    ensures var pc, before := states[i + 1].calls[labels[i].k], states[i].db.vtokens;
            && pc.token in before && before[pc.token].hash == labels[i].hash
            && before[pc.token].purpose == labels[i].purpose == pc.purpose && before[pc.token].user == pc.user
            && before[pc.token].consumed == None && labels[i].now <= before[pc.token].expires
            && states[i + 1].db.vtokens == before[pc.token := before[pc.token].(consumed := Some(labels[i].now))]
  {
    hide Next, ConsumeOp;
    Beginning(states[i], labels[i], states[i + 1]);
    ConsumeFacts(states[i], labels[i]);
  }

  /** Once consumed, a token is never consumed again, by whichever call and for whichever
      purpose; the moment it was consumed at never changes. */
  lemma ConsumedOnce(states: seq<State>, labels: seq<Label>, i: nat, j: nat)
    requires Run(states, labels) && i < j < |labels| && Consumes(states, labels, i)
    requires labels[j].Consume? && labels[j].hash == labels[i].hash
    ensures !Consumes(states, labels, j) && states[j + 1].db == states[j].db
    ensures var t := states[i + 1].calls[labels[i].k].token;
            t in states[j].db.vtokens && states[j].db.vtokens[t].consumed == Some(labels[i].now)
  {
    ConsumedRightly(states, labels, i);
    RunInv(states, labels, j);
    RunGrows(states, labels, i + 1, j);
    var t, later := states[i + 1].calls[labels[i].k].token, states[j].db.vtokens;
    hide Next, Inv, Grows, LogGrows;
    TokenStays(states[i + 1].db.vtokens, later, states[i + 1].db, states[j].db, t);
    RefusedToken(states[j], labels[j], t);
    Beginning(states[j], labels[j], states[j + 1]);
  }

  /** The calls that these steps begin are new. */
  lemma Beginning(s: State, l: Label, s': State)
    requires Next(s, l, s') && (l.Consume? || l.Bearer? || l.TokenAuth? || l.Claim?)
    ensures l.k !in s.calls
    ensures l.Consume? ==> s' == ConsumeOp(s, l)
    ensures l.Bearer? ==> l.claims in s.log.issued && s' == BearerOp(s, l)
    ensures l.TokenAuth? ==> s' == TokenAuthOp(s, l)
    ensures l.Claim? ==> s' == ClaimOp(s, l)
  {
    hide Apply, ConsumeOp, BearerOp, TokenAuthOp, ClaimOp;
    BeginDoes(s, l, s');
  }

  lemma TokenStays(a: map<Id, VToken>, b: map<Id, VToken>, db: Db, db': Db, t: Id)
    requires Grows(db, db') && a == db.vtokens && b == db'.vtokens && t in a && a[t].consumed.Some?
    ensures t in b && b[t] == a[t]
  {
    hide UsersGrow, SessionsGrow, TokensGrow, DevicesGrow, CodesGrow, AgentsGrow, Kept;
  }

  lemma RefusedToken(s: State, l: Label, t: Id)
    requires Inv(s) && l.Consume? && t in s.db.vtokens
    requires s.db.vtokens[t].hash == l.hash && s.db.vtokens[t].consumed.Some?
    ensures ConsumeOp(s, l).calls[l.k] == Failed && ConsumeOp(s, l).db == s.db
  {
    hide LogOk, CallsOk, ConsumeVToken, VTokensOk;
    hide EmailsUnique, OneHome, SessionsHome, TokensHome, CodesHome, DevicesHome, AgentsHome, IdentitiesOk;
    hide CodesMatchDevices, TokensMatchDevices;
    UsedToken(s.db, t, l.hash, l.purpose, l.now);
  }

  lemma UsedToken(db: Db, t: Id, hash: string, purpose: Purpose, now: Time)
    requires VTokensOk(db.users, db.vtokens) && t in db.vtokens
    requires db.vtokens[t].hash == hash && db.vtokens[t].consumed.Some?
    ensures ConsumeVToken(db, hash, purpose, now) == Err(NotFound)
  {}

  ghost predicate Verified(s: State, user: Id) { user in s.db.users && s.db.users[user].verified }

  /** The step is the second statement of a VerifyEmail call that consumed a token of this
      user. */
  ghost predicate Marks(s: State, l: Label, user: Id) {
    && l.UseConsumed? && l.k in s.calls && s.calls[l.k].Consumed?
    && s.calls[l.k].purpose == EmailVerify && s.calls[l.k].user == user
  }

  ghost predicate MarkedBefore(states: seq<State>, labels: seq<Label>, n: nat, user: Id)
    requires |states| == |labels| + 1
  {
    exists i :: 0 <= i < n && i < |labels| && Marks(states[i], labels[i], user)
  }

  /** A user is verified exactly if OAuth created the user or a VerifyEmail call that consumed
      an email_verify token of the user got as far as its second statement. */
  lemma {:induction false} VerifiedExactly(states: seq<State>, labels: seq<Label>, n: nat, user: Id)
    requires Run(states, labels) && n < |states|
    ensures Verified(states[n], user) <==> user in states[n].log.bornVerified || MarkedBefore(states, labels, n, user)
  {
    hide Inv, Next, Marks;
    if n > 0 {
      VerifiedExactly(states, labels, n - 1, user);
      RunInv(states, labels, n - 1);
      VerifiedStep(states[n - 1], labels[n - 1], states[n], user);
      hide Verified;
      if MarkedBefore(states, labels, n, user) {
        var i :| 0 <= i < n && i < |labels| && Marks(states[i], labels[i], user);
        assert i < n - 1 ==> MarkedBefore(states, labels, n - 1, user);
      }
    }
  }

  /** A step verifies a user by creating one through OAuth or by marking one, and in no other
      way, and never takes it back. */
  lemma VerifiedStep(s: State, l: Label, s': State, user: Id)
    requires Inv(s) && Next(s, l, s')
    ensures s.log.bornVerified <= s'.log.bornVerified
    ensures Verified(s', user) <==>
              Verified(s, user) || Marks(s, l, user) || user in s'.log.bornVerified - s.log.bornVerified
  {
    hide Inv, Next, LeavesDevices, SignupOp, UseConsumedOp, CreateUserOp;
    WritesUsers(s, l, s');
    if l.Signup? {
      SignupVerifies(s, l, user);
    } else if l.UseConsumed? {
      UseConsumedVerifies(s, l, user);
    } else if l.CreateUser? {
      CreateUserVerifies(s, l, user);
    } else {
      StepLeaves(s, l, s');
    }
  }

  /** The steps that write users are the operations of their kinds. */
  lemma WritesUsers(s: State, l: Label, s': State)
    requires Next(s, l, s')
    ensures l.Signup? ==> s' == SignupOp(s, l)
    ensures l.UseConsumed? ==> l.k in s.calls && s.calls[l.k].Consumed? && s' == UseConsumedOp(s, l.k)
    ensures l.CreateUser? ==> l.k in s.calls && s.calls[l.k].Unmatched? && s' == CreateUserOp(s, l)
  {
    hide Put, SignupOp, UseConsumedOp, CreateUserOp;
  }

  lemma SignupVerifies(s: State, l: Label, user: Id)
    requires l.Signup?
    ensures Verified(SignupOp(s, l), user) <==> Verified(s, user)
    ensures SignupOp(s, l).log == s.log
  {
    var row := User(l.email, l.hash, false);
    if CreateTenant(s.db, l.u, row, l.a, l.slug, l.m, Stored(l.now)).Some? {
      TenantRows(s.db, l.u, row, l.a, l.slug, l.m, Stored(l.now));
    }
    hide CreateTenant;
  }

  lemma UseConsumedVerifies(s: State, l: Label, user: Id)
    requires Inv(s) && l.UseConsumed? && l.k in s.calls && s.calls[l.k].Consumed?
    ensures Verified(UseConsumedOp(s, l.k), user) <==> Verified(s, user) || Marks(s, l, user)
    ensures UseConsumedOp(s, l.k).log == s.log
  {
    hide Closed, LogOk;
    assert CallOk(s.db, s.log, l.k, s.calls[l.k]);
  }

  lemma CreateUserVerifies(s: State, l: Label, user: Id)
    requires l.CreateUser? && l.k in s.calls && s.calls[l.k].Unmatched?
    requires Inv(s)
    ensures var s' := CreateUserOp(s, l);
            && s.log.bornVerified <= s'.log.bornVerified
            && (Verified(s', user) <==> Verified(s, user) || user in s'.log.bornVerified - s.log.bornVerified)
  {
    hide Closed, CallsOk;
    var pc := s.calls[l.k];
    if CreateByOAuth(s.db, l.u, l.a, l.slug, l.m, Stored(l.now), l.i, pc.provider, pc.subject, pc.email).Some? {
      OAuthRows(s.db, l.u, l.a, l.slug, l.m, Stored(l.now), l.i, pc.provider, pc.subject, pc.email);
    }
    hide CreateByOAuth;
  }

  /** Sessions that Login opened belong to users who are verified, and whoever is verified was
      created by OAuth or had an email_verify token consumed. */
  lemma VerifiedOnlyBy(states: seq<State>, labels: seq<Label>, n: nat)
    requires Run(states, labels) && n < |states|
    ensures forall u :: u in states[n].db.users && states[n].db.users[u].verified ==>
              u in states[n].log.bornVerified || VerifiedByToken(states[n].db.vtokens, u)
    ensures forall x :: x in states[n].log.passwordSessions ==>
              && x in states[n].db.sessions && states[n].db.sessions[x].user in states[n].db.users
              && states[n].db.users[states[n].db.sessions[x].user].verified
  {
    RunInv(states, labels, n);
    hide Closed, CallsOk, VerifiedByToken, IssuedOk, MadeOk, MintsOk, Next;
  }

  /** At the moment a login by password opens its session its user is verified. */
  lemma LoginOpensVerified(states: seq<State>, labels: seq<Label>, i: nat)
    requires Run(states, labels) && i < |labels| && labels[i].OpenSession?
    requires labels[i].k in states[i].calls && states[i].calls[labels[i].k].Entering?
    requires states[i].calls[labels[i].k].origin == ByPassword
    ensures states[i].calls[labels[i].k].user in states[i].db.users
    ensures states[i].db.users[states[i].calls[labels[i].k].user].verified
  {
    hide Next, Inv;
    RunInv(states, labels, i);
    EntryVerified(states[i], labels[i].k);
  }

  lemma EntryVerified(s: State, k: CallId)
    requires Inv(s) && k in s.calls && s.calls[k].Entering? && s.calls[k].origin == ByPassword
    ensures s.calls[k].user in s.db.users && s.db.users[s.calls[k].user].verified
  {
    hide Closed, LogOk, Member;
    assert CallOk(s.db, s.log, k, s.calls[k]);
  }

  /** A provider login says nothing about verification unless it created the user: whom it
      stands for is verified exactly as VerifiedExactly has it. */
  lemma ProviderLoginVerifiedIff(states: seq<State>, labels: seq<Label>, n: nat, k: CallId,
                                 provider: string, subject: string, user: Id)
    requires Run(states, labels) && n < |states| && k in states[n].calls
    requires LoggedInAs(states[n].calls[k], provider, subject, user)
    ensures states[n].calls[k].origin.created ==> Verified(states[n], user)
    ensures !states[n].calls[k].origin.created ==>
              (Verified(states[n], user) <==>
                 user in states[n].log.bornVerified || MarkedBefore(states, labels, n, user))
  {
    hide Next, Inv, MarkedBefore, Verified;
    RunInv(states, labels, n);
    VerifiedExactly(states, labels, n, user);
    if states[n].calls[k].origin.created {
      CreatedIsVerified(states[n], k);
    }
  }

  lemma CreatedIsVerified(s: State, k: CallId)
    requires Inv(s) && k in s.calls
    requires s.calls[k].Resolving? || s.calls[k].Entering? || s.calls[k].Signing? || s.calls[k].Entered?
    requires s.calls[k].origin.ByProvider? && s.calls[k].origin.created
    ensures Verified(s, s.calls[k].user)
  {
    hide Closed, LogOk, Member, IdentifiedBy;
    assert CallOk(s.db, s.log, k, s.calls[k]);
  }

  /** VerifyEmail is not atomic: cut off between its two statements it leaves a token that
      is used up and users as they were. */
  lemma VerifyEmailCutOff(s: State, k: CallId, t: Id, now: Time)
    returns (l: Label, mid: State, end: State)
    requires Inv(s) && k !in s.calls && t in s.db.vtokens && s.db.vtokens[t].purpose == EmailVerify
    requires s.db.vtokens[t].consumed == None && now <= s.db.vtokens[t].expires
    ensures l == Consume(k, s.db.vtokens[t].hash, EmailVerify, now, "")
    ensures Next(s, l, mid) && Next(mid, CutOff(k), end)
    ensures end.db.users == s.db.users && t in end.db.vtokens && end.db.vtokens[t].consumed == Some(now)
  {
    hide Inv, ConsumeOp;
    l := Consume(k, s.db.vtokens[t].hash, EmailVerify, now, "");
    ConsumeLive(s, l, t);
    mid, end := ConsumeOp(s, l), Put(ConsumeOp(s, l), k, Failed);
  }

  lemma ConsumeLive(s: State, l: Label, t: Id)
    requires Inv(s) && t in s.db.vtokens && s.db.vtokens[t].consumed == None
    requires l.Consume? && l.hash == s.db.vtokens[t].hash && l.purpose == s.db.vtokens[t].purpose == EmailVerify
    requires l.now <= s.db.vtokens[t].expires
    ensures l.k in ConsumeOp(s, l).calls && ConsumeOp(s, l).db.users == s.db.users
    ensures ConsumeOp(s, l).db.vtokens == s.db.vtokens[t := s.db.vtokens[t].(consumed := Some(l.now))]
  {
    hide Inv, ConsumeVToken;
    UnusedTokenOf(s, t, l.now);
  }

  lemma UnusedTokenOf(s: State, t: Id, now: Time)
    requires Inv(s) && t in s.db.vtokens && s.db.vtokens[t].consumed == None && now <= s.db.vtokens[t].expires
    ensures ConsumeVToken(s.db, s.db.vtokens[t].hash, s.db.vtokens[t].purpose, now)
         == Ok((s.db.(vtokens := s.db.vtokens[t := s.db.vtokens[t].(consumed := Some(now))]), t))
  {
    hide LogOk, CallsOk, ConsumeVToken, VTokensOk;
    hide EmailsUnique, OneHome, SessionsHome, TokensHome, CodesHome, DevicesHome, AgentsHome, IdentitiesOk;
    hide CodesMatchDevices, TokensMatchDevices;
    UnusedToken(s.db, t, now);
  }

  lemma UnusedToken(db: Db, t: Id, now: Time)
    requires VTokensOk(db.users, db.vtokens) && t in db.vtokens
    requires db.vtokens[t].consumed == None && now <= db.vtokens[t].expires
    ensures ConsumeVToken(db, db.vtokens[t].hash, db.vtokens[t].purpose, now)
         == Ok((db.(vtokens := db.vtokens[t := db.vtokens[t].(consumed := Some(now))]), t))
  {}

  ghost predicate RevokedHash(tokens: map<Id, ApiToken>, hash: string) {
    exists t :: t in tokens && tokens[t].hash == hash && tokens[t].revoked
  }

  /** What is revoked stays revoked: no request ever again comes in on a session or an API
      token once it has been. */
  lemma RevokedForever(states: seq<State>, labels: seq<Label>, m: nat, j: nat)
    requires Run(states, labels) && m <= j < |labels|
    ensures labels[j].Bearer? && labels[j].claims.session in states[m].db.sessions
            && states[m].db.sessions[labels[j].claims.session].revoked ==>
              states[j + 1] == Put(states[j], labels[j].k, Failed)
    ensures labels[j].TokenAuth? && RevokedHash(states[m].db.tokens, labels[j].hash) ==>
              states[j + 1] == Put(states[j], labels[j].k, Failed)
  {
    hide Next, Inv, Grows, LogGrows, BearerOp, TokenAuthOp;
    RunInv(states, labels, j);
    RunGrows(states, labels, m, j);
    var l := labels[j];
    if l.Bearer? {
      Beginning(states[j], l, states[j + 1]);
      RevokedSession(states[m].db, states[j], l);
    } else if l.TokenAuth? {
      Beginning(states[j], l, states[j + 1]);
      RevokedToken(states[m].db, states[j], l);
    }
  }

  /** A request comes in exactly on a live credential: a session that is there, not revoked
      and not past its expiry, or an API token that is, presented by its hash; and it runs as
      the user, account and device that this very row names. */
  lemma OnlyLiveCredentials(states: seq<State>, labels: seq<Label>, i: nat)
    requires Run(states, labels) && i < |labels| && (labels[i].Bearer? || labels[i].TokenAuth?)
    ensures labels[i].k in states[i + 1].calls
    ensures labels[i].Bearer? ==>
              var db, x, pc := states[i].db, labels[i].claims.session, states[i + 1].calls[labels[i].k];
              pc == if LiveSession(db, x, labels[i].now) then
                      Authed(db.sessions[x].user, db.sessions[x].account, None, x)
                    else Failed
    ensures labels[i].TokenAuth? ==>
              var db, pc := states[i].db, states[i + 1].calls[labels[i].k];
              && (pc == Failed <==> forall t :: !LiveApiToken(db, t, labels[i].hash, labels[i].now))
              && (forall t :: LiveApiToken(db, t, labels[i].hash, labels[i].now) ==>
                    pc == Authed(db.tokens[t].user, db.tokens[t].account,
                                 if db.tokens[t].device == Some("") then None else db.tokens[t].device,
                                 "api-token:" + t))
  {
    hide Next, Inv, BearerOp, TokenAuthOp, LiveSession, LiveApiToken;
    var l, s := labels[i], states[i];
    RunInv(states, labels, i);
    Beginning(s, l, states[i + 1]);
    if l.Bearer? { BearerOutcome(s, l); } else { TokenOutcome(s, l); }
  }

  lemma RevokedSession(before: Db, s: State, l: Label)
    requires l.Bearer? && Grows(before, s.db)
    ensures l.claims.session in before.sessions && before.sessions[l.claims.session].revoked ==>
              BearerOp(s, l) == Put(s, l.k, Failed)
  {
    hide UsersGrow, VTokensGrow, TokensGrow, DevicesGrow, CodesGrow, AgentsGrow, Kept;
  }

  lemma RevokedToken(before: Db, s: State, l: Label)
    requires l.TokenAuth? && Grows(before, s.db) && Inv(s)
    ensures RevokedHash(before.tokens, l.hash) ==>
              TokenAuthOp(s, l) == Put(s, l.k, Failed)
  {
    hide UsersGrow, VTokensGrow, SessionsGrow, DevicesGrow, CodesGrow, AgentsGrow, Kept, LogOk, CallsOk, Member;
    hide EmailsUnique, OneHome, SessionsHome, CodesHome, DevicesHome, AgentsHome, IdentitiesOk, VTokensOk;
    hide CodesMatchDevices, TokensMatchDevices;
  }

  // ---------------------------------------------------------------- claims

  /** A code is claimed at most once: after one claim succeeded every later one fails and
      changes nothing. */
  lemma ClaimedOnce(states: seq<State>, labels: seq<Label>, i: nat, j: nat)
    requires Run(states, labels) && i < j < |labels| && labels[i].Claim? && labels[j].Claim?
    requires labels[i].code == labels[j].code
    requires labels[i].k in states[i + 1].calls && states[i + 1].calls[labels[i].k].Claimed?
    ensures states[j + 1] == Put(states[j], labels[j].k, Failed)
  {
    hide Next, UsersGrow, SessionsGrow, VTokensGrow, TokensGrow, DevicesGrow, AgentsGrow, Kept, LogGrows;
    var l := labels[i];
    Beginning(states[i], l, states[i + 1]);
    Beginning(states[j], labels[j], states[j + 1]);
    RunGrows(states, labels, i + 1, j);
    ClaimRows(states[i].db, l.code, l.now, l.d, l.t, l.hash);
    assert states[i + 1].db.codes[l.code].consumed.Some?;
    assert states[j].db.codes[l.code].consumed.Some?;
  }

  ghost function ConsumedCodes(db: Db): set<string> {
    set c | c in db.codes && db.codes[c].consumed.Some?
  }

  ghost function BoundTokens(db: Db): set<Id> {
    set t | t in db.tokens && db.tokens[t].device.Some?
  }

  /** In every reachable state consumed codes, devices and device-bound tokens correspond
      one to one, agree on account and user, and no code was consumed after its expiry. */
  lemma ClaimBijection(states: seq<State>, labels: seq<Label>, n: nat)
    requires Run(states, labels) && n < |states|
    ensures CodesMatchDevices(states[n].db.codes, states[n].db.devices)
    ensures TokensMatchDevices(states[n].db.tokens, states[n].db.devices)
    ensures |ConsumedCodes(states[n].db)| == |states[n].db.devices| == |BoundTokens(states[n].db)|
  {
    RunInv(states, labels, n);
    hide Next, LogOk, CallsOk;
    SameNumbers(states[n].db);
    hide CodesMatchDevices, TokensMatchDevices;
  }

  lemma SameNumbers(db: Db)
    requires CodesMatchDevices(db.codes, db.devices) && TokensMatchDevices(db.tokens, db.devices)
    ensures |ConsumedCodes(db)| == |db.devices| == |BoundTokens(db)|
  {
    CodesNumber(db);
    TokensNumber(db);
    hide CodesMatchDevices, TokensMatchDevices, ConsumedCodes, BoundTokens;
  }

  lemma CodesNumber(db: Db)
    requires CodesMatchDevices(db.codes, db.devices)
    ensures |ConsumedCodes(db)| == |db.devices.Keys|
  {
    var device := map c | c in ConsumedCodes(db) :: db.codes[c].consumed.value.device;
    forall c, c' | c in device && c' in device && device[c] == device[c'] ensures c == c' {
      assert DeviceOf(db.codes, c) == DeviceOf(db.codes, c');
    }
    forall d | d in db.devices ensures d in device.Values {
      assert ComesFromCode(db.codes, d);
      var c :| DeviceOf(db.codes, c) == Some(d);
      assert c in device && device[c] == d;
    }
    InjectiveCount(device);
    hide ComesFromCode, DeviceOf;
    assert device.Values == db.devices.Keys && device.Keys == ConsumedCodes(db);
  }

  lemma TokensNumber(db: Db)
    requires TokensMatchDevices(db.tokens, db.devices)
    ensures |BoundTokens(db)| == |db.devices.Keys|
  {
    var device := map t | t in BoundTokens(db) :: db.tokens[t].device.value;
    forall d | d in db.devices ensures d in device.Values {
      assert HasToken(db.tokens, d);
      var t :| t in db.tokens && db.tokens[t].device == Some(d);
      assert t in device && device[t] == d;
    }
    InjectiveCount(device);
    hide HasToken;
    assert device.Values == db.devices.Keys && device.Keys == BoundTokens(db);
  }

  lemma {:induction false} InjectiveCount<K, V>(f: map<K, V>)
    requires forall k, k' :: k in f && k' in f && f[k] == f[k'] ==> k == k'
    ensures |f.Keys| == |f.Values|
    decreases |f|
  {
    if f == map[] {
      assert f.Values == {};
    } else {
      var k :| k in f;
      var g := f - {k};
      InjectiveCount(g);
      assert f.Keys == g.Keys + {k};
      assert f.Values == g.Values + {f[k]};
    }
  }

  // ---------------------------------------------------------------- keys

  /** Users' accounts, as a map. */
  ghost function Homes(db: Db): map<Id, Id> {
    map u | u in db.users && AccountOf(db.memberships, u).Some? :: AccountOf(db.memberships, u).value
  }

  /** Whatever claims a run makes, the calls for keys they lead to keep each user under one
      account. This is what linking to Headscale needs: see RecoveryAtHome. */
  lemma MintsFollowHome(states: seq<State>, labels: seq<Label>, n: nat, begun: seq<L.Label>)
    requires Run(states, labels) && n < |states|
    requires forall i :: 0 <= i < |begun| && begun[i].Begin? ==>
               (begun[i].account, begun[i].user) in states[n].log.mints
    ensures LT.FollowsHome(begun, Homes(states[n].db))
  {
    RunInv(states, labels, n);
    var db := states[n].db;
    forall i | 0 <= i < |begun| && begun[i].Begin?
      ensures begun[i].user in Homes(db) && Homes(db)[begun[i].user] == begun[i].account
    {
      var a, u := begun[i].account, begun[i].user;
      assert Member(db.memberships, a, u) by { assert MintsOk(db.memberships, states[n].log.mints); }
      OneAccount(db, u, a, a);
      AccountOfMember(db, u);
    }
  }

  /** Claims and links together: after any run of the auth system and any run of the linking
      protocol over the claims it made, crashes included, one undisturbed call for a user
      and account of the tables gets its link. */
  lemma ClaimedUsersGetLinks(states: seq<State>, labels: seq<Label>, n: nat, prefix: string,
                             linkStates: seq<L.State>, linkLabels: seq<L.Label>, m: nat,
                             user: Id, account: Id, newId: nat)
    requires Run(states, labels) && n < |states| && Member(states[n].db.memberships, account, user)
    requires L.Run(prefix, linkStates, linkLabels) && m < |linkStates|
    requires forall i :: 0 <= i < |linkLabels| && linkLabels[i].Begin? ==>
               (linkLabels[i].account, linkLabels[i].user) in states[n].log.mints
    requires linkStates[m].store.users == states[n].db.users.Keys
    requires linkStates[m].store.accounts == states[n].db.accounts.Keys
    requires user != "" && account != "" && newId != 0 && newId !in linkStates[m].store.remote
    ensures LT.EnsureLink(prefix, linkStates[m].store, account, user, newId, LT.NO_FAULTS).1.Some?
  {
    RunInv(states, labels, n);
    MintsFollowHome(states, labels, n, linkLabels);
    OneAccount(states[n].db, user, account, account);
    AccountOfMember(states[n].db, user);
    LT.RecoveryAtHome(prefix, linkStates, linkLabels, m, Homes(states[n].db), user, newId);
  }
}
