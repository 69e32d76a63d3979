/** That the auth system lets people in: from every reachable state, whoever comes with free
    ids gets from signup to a request of their own, and from a request to a device that runs
    agent sessions, by steps that no condition stands in the way of. */
module AuthJourney {
  import opened Wrappers
  import opened Tables
  import opened Tenancy
  import opened AuthSteps
  import opened AuthInvariants
  import opened AuthTheorems
  import opened AuthSpec
  import opened AuthOutcomes
  import AuthRefinement

  /** A stretch of steps from one state to another. */
  ghost predicate Leads(s: State, labels: seq<Label>, s': State) {
    exists states :: Steps(states, labels) && states[0] == s && states[|labels|] == s'
  }

  lemma LeadsOn(s: State, labels: seq<Label>, mid: State, l: Label, s': State)
    requires Leads(s, labels, mid) && Inv(mid) && Next(mid, l, s')
    ensures Leads(s, labels + [l], s') && Inv(s')
  {
    hide Inv, Next;
    var states :| Steps(states, labels) && states[0] == s && states[|labels|] == mid;
    var states', labels' := AuthRefinement.Extend(states, labels, l, s');
  }

  lemma LeadsNowhere(s: State)
    ensures Leads(s, [], s)
  {
    assert Steps([s], []);
  }

  // ---------------------------------------------------------------- a login

  /** From the right password to an open session. */
  lemma EnterPart(s: State, k: CallId, email: string, u: Id, a: Id, x: Id, now: Time, ttl: int)
    returns (s': State)
    requires Inv(s) && k !in s.calls && MayEnter(s.db, u, email) && Member(s.db.memberships, a, u)
    requires x !in s.db.sessions && ttl > 0
    ensures Leads(s, [Login(k, email, true), Resolve(k), OpenSession(k, x, now, ttl)], s')
    ensures Inv(s') && s'.calls == s.calls[k := Signing(x, u, a, ByPassword)] && Opens(s.db, x, u, a, ttl, now, s'.db)
  {
    hide Inv, Next, Leads, Member, MayEnter, LoginOp, ResolveOp, OpenSessionOp, ExpiresAfter;
    var l0, l1, l2 := Login(k, email, true), Resolve(k), OpenSession(k, x, now, ttl);
    LeadsNowhere(s);
    BeginFires(s, l0);
    LoginOutcome(s, l0);
    var s1, p1 := LoginOp(s, l0), [] + [l0];
    LeadsOn(s, [], s, l0, s1);
    GoOnFires(s1, l1);
    ResolveOutcome(s1, k, a);
    var s2, p2 := ResolveOp(s1, k), p1 + [l1];
    LeadsOn(s, p1, s1, l1, s2);
    GoOnFires(s2, l2);
    OpenOutcome(s2, l2);
    ExpiryLasts(now, ttl);
    s' := OpenSessionOp(s2, l2);
    LeadsOn(s, p2, s2, l2, s');
    assert p2 + [l2] == [l0, l1, l2];
  }

  /** Whoever is verified and has a password that is right gets in: login, session, signed
      text, and a request with it that runs as the user and their account. */
  lemma LoginJourney(s: State, k: CallId, j: CallId, email: string, u: Id, a: Id, x: Id, now: Time, ttl: int, at: Time)
    returns (s': State)
    requires Inv(s) && k !in s.calls && j !in s.calls && k != j
    requires MayEnter(s.db, u, email) && Member(s.db.memberships, a, u) && u != "" && a != ""
    requires x != "" && x !in s.db.sessions && ttl > 0 && at <= now + ttl - 2_000_000_000
    ensures Leads(s, [Login(k, email, true), Resolve(k), OpenSession(k, x, now, ttl), Sign(k),
                      Bearer(j, Claims(x, u, a), at)], s')
    ensures Inv(s') && j in s'.calls && s'.calls[j] == Authed(u, a, None, x)
    ensures Opens(s.db, x, u, a, ttl, now, s'.db)
  {
    hide Inv, Next, Leads, Member, MayEnter, BearerOp;
    var l0, l1, l2, l3 := Login(k, email, true), Resolve(k), OpenSession(k, x, now, ttl), Sign(k);
    var l4 := Bearer(j, Claims(x, u, a), at);
    var s3 := EnterPart(s, k, email, u, a, x, now, ttl);
    GoOnFires(s3, l3);
    var s4, p4 := SignOp(s3, k), [l0, l1, l2] + [l3];
    LeadsOn(s, [l0, l1, l2], s3, l3, s4);
    BeginFires(s4, l4);
    BearerOutcome(s4, l4);
    s' := BearerOp(s4, l4);
    LeadsOn(s, p4, s4, l4, s');
    assert p4 + [l4] == [l0, l1, l2, l3, l4];
  }

  // ---------------------------------------------------------------- a signup

  lemma SameVTokens(db: Db, db': Db, t: Id, hash: string)
    requires db'.vtokens == db.vtokens
    ensures MayStore(db', t, hash) <==> MayStore(db, t, hash)
  {}

  lemma SignupPart(s: State, k: CallId, u: Id, email: string, hash: string, a: Id, slug: string,
                   m: Id, t: Id, tokenHash: string, now: Time, ttl: int)
    returns (s': State)
    requires Inv(s) && k !in s.calls && email != "" && hash != "" && 0 <= ttl
    requires MayCreate(s.db, u, email, a, slug, m) && MayStore(s.db, t, tokenHash)
    ensures Leads(s, [Signup(k, u, email, hash, a, slug, m, now), MailToken(k, t, tokenHash, now, ttl)], s')
    ensures Inv(s') && s'.calls == s.calls[k := Finished] && s'.db.sessions == s.db.sessions
    ensures u in s'.db.users && s'.db.users[u] == User(email, hash, false)
    ensures m in s'.db.memberships && s'.db.memberships[m].account == a && s'.db.memberships[m].user == u
    ensures MayConsume(s'.db, t, tokenHash, EmailVerify, now + ttl - 2_000_000_000) && s'.db.vtokens[t].user == u
  {
    hide Inv, Next, Leads, ExpiresAfter, Stored, MayCreate, MayStore, SignupOp, MailTokenOp;
    var l0, l1 := Signup(k, u, email, hash, a, slug, m, now), MailToken(k, t, tokenHash, now, ttl);
    LeadsNowhere(s);
    BeginFires(s, l0);
    SignupOutcome(s, l0);
    var s1, p1 := SignupOp(s, l0), [] + [l0];
    LeadsOn(s, [], s, l0, s1);
    SameVTokens(s.db, s1.db, t, tokenHash);
    GoOnFires(s1, l1);
    MailOutcome(s1, l1);
    s' := MailTokenOp(s1, l1);
    LeadsOn(s, p1, s1, l1, s');
    assert p1 + [l1] == [l0, l1];
    ExpiryLasts(now, ttl);
  }

  lemma MemberByRow(db: Db, m: Id, a: Id, u: Id)
    requires m in db.memberships && db.memberships[m].account == a && db.memberships[m].user == u
    ensures Member(db.memberships, a, u)
  {}

  /** Whoever comes with a free email and free ids can sign up and, presenting the mailed
      token in time, is verified: from then on LoginJourney is open to them. */
  lemma SignupJourney(s: State, k: CallId, j: CallId, u: Id, email: string, hash: string, a: Id, slug: string,
                      m: Id, t: Id, tokenHash: string, now: Time, ttl: int, at: Time)
    returns (s': State)
    requires Inv(s) && k !in s.calls && j !in s.calls && k != j && email != "" && hash != ""
    requires MayCreate(s.db, u, email, a, slug, m) && MayStore(s.db, t, tokenHash)
    requires 0 <= ttl && at <= now + ttl - 2_000_000_000
    ensures Leads(s, [Signup(k, u, email, hash, a, slug, m, now), MailToken(k, t, tokenHash, now, ttl),
                      Consume(j, tokenHash, EmailVerify, at, ""), UseConsumed(j)], s')
    ensures Inv(s') && s'.calls == s.calls[k := Finished][j := Finished] && s'.db.sessions == s.db.sessions
    ensures MayEnter(s'.db, u, email) && Member(s'.db.memberships, a, u)
  {
    hide Inv, Next, Leads, MayCreate, MayStore, Member, ConsumeOp, UseConsumedOp;
    var l0, l1 := Signup(k, u, email, hash, a, slug, m, now), MailToken(k, t, tokenHash, now, ttl);
    var l2, l3 := Consume(j, tokenHash, EmailVerify, at, ""), UseConsumed(j);
    var s2 := SignupPart(s, k, u, email, hash, a, slug, m, t, tokenHash, now, ttl);
    BeginFires(s2, l2);
    assert MayUse(s2, l2, t);
    ConsumeOutcome(s2, l2);
    var s3, p3 := ConsumeOp(s2, l2), [l0, l1] + [l2];
    LeadsOn(s, [l0, l1], s2, l2, s3);
    GoOnFires(s3, l3);
    UseConsumedOutcome(s3, j);
    s' := UseConsumedOp(s3, j);
    LeadsOn(s, p3, s3, l3, s');
    assert p3 + [l3] == [l0, l1, l2, l3];
    MemberByRow(s'.db, m, a, u);
  }

  // ---------------------------------------------------------------- a device

  lemma SameTokens(db: Db, db': Db, t: Id, hash: string)
    requires db'.tokens == db.tokens
    ensures MayAdd(db', t, hash) <==> MayAdd(db, t, hash)
  {}

  /** From a request for a code to the claimed device. */
  lemma PairPart(s: State, k: CallId, j: CallId, code: string, now: Time, at: Time, d: Id, t: Id, hash: string)
    returns (s': State)
    requires Inv(s) && MayAct(s, k) && s.calls[k].account != "" && s.calls[k].user != "" && code !in s.db.codes
    requires j !in s.calls && at <= now + 299_000_000_000 && d !in s.db.devices && MayAdd(s.db, t, hash)
    ensures Leads(s, [NewPairCode(k, code, now), Claim(j, code, at, d, t, hash)], s')
    ensures Inv(s') && s'.calls.Keys == s.calls.Keys + {j} && s'.db.agents == s.db.agents
    ensures d in s'.db.devices && s'.db.devices[d] == Device(s.calls[k].account, s.calls[k].user, false)
    ensures t in s'.db.tokens
    ensures s'.db.tokens[t] == ApiToken(s.calls[k].account, s.calls[k].user, Some(d), hash, None, false)
  {
    hide Inv, Next, Leads, Stored, MayAdd, NewPairCodeOp, ClaimOp;
    var l0, l1 := NewPairCode(k, code, now), Claim(j, code, at, d, t, hash);
    LeadsNowhere(s);
    GoOnFires(s, l0);
    NewCodeOutcome(s, l0);
    var s1, p1 := NewPairCodeOp(s, l0), [] + [l0];
    LeadsOn(s, [], s, l0, s1);
    StoredIs(now + 300_000_000_000);
    SameTokens(s.db, s1.db, t, hash);
    BeginFires(s1, l1);
    ClaimOutcome(s1, l1);
    s' := ClaimOp(s1, l1);
    LeadsOn(s, p1, s1, l1, s');
    assert p1 + [l1] == [l0, l1];
  }

  /** Whoever is let in can pair a device within five minutes of asking for a code, and the
      device gets in by its own token and runs agent sessions, all under the account and
      user that asked. */
  lemma DeviceJourney(s: State, k: CallId, j: CallId, i: CallId, code: string, now: Time, at: Time, later: Time,
                      d: Id, t: Id, hash: string, g: Id)
    returns (s': State)
    requires Inv(s) && MayAct(s, k) && s.calls[k].account != "" && s.calls[k].user != "" && code !in s.db.codes
    requires j !in s.calls && i !in s.calls && i != j && at <= now + 299_000_000_000
    requires d != "" && d !in s.db.devices && MayAdd(s.db, t, hash) && g != "" && g !in s.db.agents
    ensures Leads(s, [NewPairCode(k, code, now), Claim(j, code, at, d, t, hash), TokenAuth(i, hash, later),
                      NewAgent(i, g)], s')
    ensures Inv(s') && g in s'.db.agents && s'.db.agents[g] == AgentSession(s.calls[k].account, d, true)
    ensures d in s'.db.devices && s'.db.devices[d] == Device(s.calls[k].account, s.calls[k].user, false)
  {
    hide Inv, Next, Leads, MayAdd, TokenAuthOp, NewAgentOp;
    var l0, l1 := NewPairCode(k, code, now), Claim(j, code, at, d, t, hash);
    var l2, l3 := TokenAuth(i, hash, later), NewAgent(i, g);
    var s2 := PairPart(s, k, j, code, now, at, d, t, hash);
    assert i !in s2.calls;
    BeginFires(s2, l2);
    assert LiveApiToken(s2.db, t, hash, later);
    TokenOutcome(s2, l2);
    var s3, p3 := TokenAuthOp(s2, l2), [l0, l1] + [l2];
    LeadsOn(s, [l0, l1], s2, l2, s3);
    GoOnFires(s3, l3);
    NewAgentOutcome(s3, l3);
    s' := NewAgentOp(s3, l3);
    LeadsOn(s, p3, s3, l3, s');
    assert p3 + [l3] == [l0, l1, l2, l3];
  }
}
