/** The step system of AuthSteps against the specification of AuthSpec: a provider login whose
    steps no other call comes between does to the tables what the service's method does. */
module AuthRefinement {
  import opened Wrappers
  import opened Tables
  import opened Tenancy
  import opened AuthSteps
  import opened AuthInvariants
  import opened AuthTheorems
  import AuthSpec

  lemma Extend(states: seq<State>, labels: seq<Label>, l: Label, s': State)
    returns (states': seq<State>, labels': seq<Label>)
    requires Steps(states, labels) && Inv(states[|labels|]) && Next(states[|labels|], l, s')
    ensures Steps(states', labels') && labels' == labels + [l] && states'[0] == states[0]
    ensures states'[|labels'|] == s' && Inv(s')
  {
    hide Inv, Next, StepOk;
    InvStep(states[|labels|], l, s');
    labels', states' := labels + [l], states + [s'];
    forall i | 0 <= i < |labels'| ensures Next(states'[i], labels'[i], states'[i + 1]) {
      if i < |labels| { assert states'[i] == states[i] && states'[i + 1] == states[i + 1]; }
    }
  }

  lemma ResolvingAccount(s: State, k: CallId)
    requires Inv(s) && k in s.calls && s.calls[k].Resolving?
    ensures AccountOf(s.db.memberships, s.calls[k].user).Some?
  {
    hide Closed, LogOk, AccountOf, Member, OriginOk;
    assert CallOk(s.db, s.log, k, s.calls[k]);
    AccountOfMember(s.db, s.calls[k].user);
  }

  /** Where the upsert ends: the call knows user and account, or has failed. */
  ghost predicate Ends(s: State, k: CallId, provider: string, subject: string,
                       spec: Result<(Db, Id, bool), Error>, before: Db)
  {
    k in s.calls &&
    if spec.Err? then s.db == before && s.calls[k] == Failed
    else
      && s.db == spec.value.0 && s.calls[k].Entering? && s.calls[k].user == spec.value.1
      && s.calls[k].origin == ByProvider(provider, subject, spec.value.2)
      && AccountOf(s.db.memberships, spec.value.1) == Some(s.calls[k].account)
  }

  /** Begun in any state that keeps the invariant and left alone, a provider login reaches
      exactly the tables, the user and the flag of the service's UpsertIdentity. */
  lemma UndisturbedUpsert(s: State, k: CallId, provider: string, subject: string, email: string, u: Id, a: Id,
                          slug: string, m: Id, i: Id, now: Time)
    returns (states: seq<State>, labels: seq<Label>)
    requires Inv(s) && k !in s.calls && email != "" && subject != ""
    ensures Steps(states, labels) && states[0] == s
    ensures Ends(states[|labels|], k, provider, subject,
                 AuthSpec.Upserted(s.db, provider, subject, email, slug, u, a, m, i, Stored(now)), s.db)
  {
    hide Inv, Next, CreateByOAuth, InsertIdentity, FindUser, FindIdentity, AccountOf, Stored;
    var l := OAuth(k, provider, subject, email);
    BeginFires(s, l);
    states, labels := Extend([s], [], l, OAuthOp(s, l));
    if FindIdentity(s.db.identities, provider, subject).None? {
      var s1 := states[|labels|];
      GoOnFires(s1, MatchEmail(k));
      states, labels := Extend(states, labels, MatchEmail(k), MatchEmailOp(s1, k));
      var s2 := states[|labels|];
      if s2.calls[k].Matching? {
        l := LinkIdentity(k, i);
        GoOnFires(s2, l);
        states, labels := Extend(states, labels, l, LinkIdentityOp(s2, l));
      } else {
        l := CreateUser(k, u, a, slug, m, i, now);
        GoOnFires(s2, l);
        states, labels := Extend(states, labels, l, CreateUserOp(s2, l));
      }
    }
    states, labels := FindsAccount(states, labels, k);
  }

  /** A login that knows its user finds the account, and one that knows the account knows it
      rightly. */
  lemma FindsAccount(states: seq<State>, labels: seq<Label>, k: CallId)
    returns (states': seq<State>, labels': seq<Label>)
    requires Steps(states, labels) && Inv(states[|labels|]) && k in states[|labels|].calls
    ensures Steps(states', labels') && states'[0] == states[0] && k in states'[|labels'|].calls
    ensures states'[|labels'|].db == states[|labels|].db
    ensures var pc, pc', ms := states[|labels|].calls[k], states'[|labels'|].calls[k], states[|labels|].db.memberships;
            if pc.Resolving? then
              && pc'.Entering? && pc'.user == pc.user && pc'.origin == pc.origin
              && AccountOf(ms, pc.user) == Some(pc'.account)
            else pc' == pc && (pc.Entering? ==> AccountOf(ms, pc.user) == Some(pc.account))
  {
    hide Inv, Next, AccountOf;
    states', labels' := states, labels;
    var end := states[|labels|];
    if end.calls[k].Resolving? {
      ResolvingAccount(end, k);
      GoOnFires(end, Resolve(k));
      states', labels' := Extend(states, labels, Resolve(k), ResolveOp(end, k));
    } else if end.calls[k].Entering? {
      EnteringAccount(end, k);
    }
  }

  lemma EnteringAccount(s: State, k: CallId)
    requires Inv(s) && k in s.calls && s.calls[k].Entering?
    ensures AccountOf(s.db.memberships, s.calls[k].user) == Some(s.calls[k].account)
  {
    hide Closed, LogOk, AccountOf, Member, OriginOk;
    assert CallOk(s.db, s.log, k, s.calls[k]);
    OneAccount(s.db, s.calls[k].user, s.calls[k].account, s.calls[k].account);
    AccountOfMember(s.db, s.calls[k].user);
  }

  lemma EnteringRows(s: State, k: CallId)
    requires Inv(s) && k in s.calls && s.calls[k].Entering?
    ensures s.calls[k].user in s.db.users && s.calls[k].account in s.db.accounts
  {
    hide Closed, LogOk, Member, OriginOk;
    assert CallOk(s.db, s.log, k, s.calls[k]);
    OneAccount(s.db, s.calls[k].user, s.calls[k].account, s.calls[k].account);
  }

  lemma UpsertedUsers(db: Db, provider: string, subject: string, email: string, slug: string,
                      u: Id, a: Id, m: Id, i: Id, since: Time)
    requires AuthSpec.Upserted(db, provider, subject, email, slug, u, a, m, i, since).Ok?
    ensures var (db', user, created) :=
              AuthSpec.Upserted(db, provider, subject, email, slug, u, a, m, i, since).value;
            if created then user == u && u !in db.users && db'.users == db.users[u := User(email, "", true)]
            else db'.users == db.users
  {
    hide CreateByOAuth, FindIdentity, FindUser, Known;
    if CreateByOAuth(db, u, a, slug, m, since, i, provider, subject, email).Some? {
      OAuthRows(db, u, a, slug, m, since, i, provider, subject, email);
    }
  }

  /** The session such a login then opens belongs to a verified user exactly if the login
      created the user or the user was verified before it. */
  lemma ProviderSessionVerifiedIff(s: State, k: CallId, provider: string, subject: string, email: string,
                                   u: Id, a: Id, slug: string, m: Id, i: Id, now: Time, session: Id, ttl: int)
    returns (states: seq<State>, labels: seq<Label>)
    requires Inv(s) && k !in s.calls && email != "" && subject != "" && ttl > 0
    requires var spec := AuthSpec.Upserted(s.db, provider, subject, email, slug, u, a, m, i, Stored(now));
             spec.Ok? && session !in spec.value.0.sessions
    ensures Steps(states, labels) && states[0] == s
    ensures var (_, user, created) :=
              AuthSpec.Upserted(s.db, provider, subject, email, slug, u, a, m, i, Stored(now)).value;
            var end := states[|labels|];
            && session in end.db.sessions && end.db.sessions[session].user == user
            && k in end.calls && end.calls[k].Signing?
            && (Verified(end, user) <==> created || Verified(s, user))
  {
    hide Inv, Next, AuthSpec.Upserted, Stored, AccountOf;
    UpsertedUsers(s.db, provider, subject, email, slug, u, a, m, i, Stored(now));
    states, labels := UndisturbedUpsert(s, k, provider, subject, email, u, a, slug, m, i, now);
    StepsInv(states, labels);
    var mid, l := states[|labels|], OpenSession(k, session, now, ttl);
    EnteringRows(mid, k);
    GoOnFires(mid, l);
    states, labels := Extend(states, labels, l, OpenSessionOp(mid, l));
  }

  lemma {:induction false} StepsInv(states: seq<State>, labels: seq<Label>)
    requires Steps(states, labels) && Inv(states[0])
    ensures Inv(states[|labels|])
    decreases |labels|
  {
    hide Inv, Next, StepOk;
    if labels != [] {
      var n := |labels| - 1;
      StepsInv(states[..n + 1], labels[..n]);
      InvStep(states[n], labels[n], states[n + 1]);
    }
  }

  /** So a login that an email match links to a user who never verified that email opens a
      session for a user who is still not verified. */
  lemma LinkedUnverifiedSession(s: State, k: CallId, provider: string, subject: string, v: Id,
                                i: Id, now: Time, session: Id, ttl: int)
    returns (states: seq<State>, labels: seq<Label>)
    requires Inv(s) && k !in s.calls && subject != "" && ttl > 0 && v in s.db.users && !s.db.users[v].verified
    requires s.db.users[v].email != "" && !Known(s.db.identities, provider, subject)
    requires i !in s.db.identities && session !in s.db.sessions
    ensures Steps(states, labels) && states[0] == s
    ensures var end := states[|labels|];
            && session in end.db.sessions && end.db.sessions[session].user == v && !Verified(end, v)
  {
    var email := s.db.users[v].email;
    EmailFinds(s, v);
    hide Inv, Known, FindUser;
    states, labels := ProviderSessionVerifiedIff(s, k, provider, subject, email, "", "", "", "", i, now, session, ttl);
  }

  lemma EmailFinds(s: State, v: Id)
    requires Inv(s) && v in s.db.users
    ensures FindUser(s.db.users, s.db.users[v].email) == Some(v)
  {
    hide Closed, LogOk, CallsOk;
    AuthSpec.OneUser(s.db, v);
  }
}
