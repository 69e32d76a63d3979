/** The tables are what the run did: in every run each row is there exactly because a step
    made it, and revoked, consumed, deleted or ended exactly because a step did that. */
module AuthHistory {
  import opened Wrappers
  import opened Tables
  import opened Tenancy
  import opened AuthSteps
  import opened AuthInvariants
  import opened AuthTheorems
  import opened AuthSpec
  import opened AuthOutcomes

  /** A step that writes is the operation of its kind. */
  lemma WritesLogins(s: State, l: Label, s': State)
    requires Next(s, l, s')
    ensures l.Consume? ==> s' == ConsumeOp(s, l)
    ensures l.MailToken? ==> MayMail(s, l.k) && s' == MailTokenOp(s, l)
    ensures l.OpenSession? ==> l.k in s.calls && s.calls[l.k].Entering? && s' == OpenSessionOp(s, l)
    ensures l.Logout? ==> MayAct(s, l.k) && s' == LogoutOp(s, l.k)
  {
    hide Put, ConsumeOp, MailTokenOp, OpenSessionOp, LogoutOp;
  }

  lemma WritesDevices(s: State, l: Label, s': State)
    requires Next(s, l, s')
    ensures l.NewApiToken? ==> MayAct(s, l.k) && s' == NewApiTokenOp(s, l)
    ensures l.RevokeApiToken? ==> l.k in s.calls && s' == RevokeApiTokenOp(s, l)
    ensures l.Claim? ==> s' == ClaimOp(s, l)
    ensures l.DropDevice? ==> l.k in s.calls && s.calls[l.k].Deleting? && s' == DropDeviceOp(s, l.k)
  {
    hide Put, NewApiTokenOp, RevokeApiTokenOp, ClaimOp, DropDeviceOp;
  }

  lemma WritesOthers(s: State, l: Label, s': State)
    requires Next(s, l, s')
    ensures l.NewPairCode? ==> MayAct(s, l.k) && s' == NewPairCodeOp(s, l)
    ensures l.NewAgent? ==> MayAct(s, l.k) && s' == NewAgentOp(s, l)
    ensures l.StopAgent? ==> l.k in s.calls && s.calls[l.k].Ending? && s' == StopAgentOp(s, l.k)
    ensures l.Mint? ==> l.k in s.calls && s.calls[l.k].Claimed? && s' == MintOp(s, l.k)
  {
    hide Put, NewPairCodeOp, NewAgentOp, StopAgentOp, MintOp;
  }

  // ---------------------------------------------------------------- passwords

  /** The step is the second statement of a ResetPassword call that consumed a token of this
      user. */
  ghost predicate Resets(s: State, l: Label, u: Id) {
    && l.UseConsumed? && l.k in s.calls && s.calls[l.k].Consumed?
    && s.calls[l.k].purpose == PasswordReset && s.calls[l.k].user == u
  }

  lemma PasswordStep(s: State, l: Label, s': State, u: Id)
    requires Inv(s) && Next(s, l, s') && u in s.db.users
    ensures u in s'.db.users
    ensures s'.db.users[u].passwordHash
         == if Resets(s, l, u) then s.calls[l.k].newHash else s.db.users[u].passwordHash
  {
    hide Inv, Next, MayCreate, Stands, Stored, SignupOp, CreateUserOp, UseConsumedOp, LeavesDevices;
    WritesUsers(s, l, s');
    if l.Signup? {
      SignupOutcome(s, l);
      FreshUser(s.db, l.u, l.email, l.a, l.slug, l.m);
    } else if l.CreateUser? {
      CreateUserOutcome(s, l);
      FreshUser(s.db, l.u, s.calls[l.k].email, l.a, l.slug, l.m);
    } else if l.UseConsumed? {
      UseConsumedOutcome(s, l.k);
    } else {
      StepLeaves(s, l, s');
    }
  }

  lemma FreshUser(db: Db, u: Id, email: string, a: Id, slug: string, m: Id)
    ensures MayCreate(db, u, email, a, slug, m) ==> u !in db.users
  {}

  /** An existing user's password hash changes only at the second statement of a
      ResetPassword call that consumed a password_reset token of that user, and becomes the
      hash that call came with. */
  lemma {:induction false} PasswordExactly(states: seq<State>, labels: seq<Label>, m: nat, n: nat, u: Id)
    requires Run(states, labels) && m <= n < |states| && u in states[m].db.users
    ensures u in states[n].db.users
    ensures (forall i :: m <= i < n ==> !Resets(states[i], labels[i], u)) ==>
              states[n].db.users[u].passwordHash == states[m].db.users[u].passwordHash
    ensures n < |labels| && Resets(states[n], labels[n], u) ==>
              && u in states[n + 1].db.users
              && states[n + 1].db.users[u].passwordHash == states[n].calls[labels[n].k].newHash
  {
    hide Inv, Next, Resets;
    if m < n {
      PasswordExactly(states, labels, m, n - 1, u);
      RunInv(states, labels, n - 1);
      PasswordStep(states[n - 1], labels[n - 1], states[n], u);
    }
    if n < |labels| {
      RunInv(states, labels, n);
      PasswordStep(states[n], labels[n], states[n + 1], u);
    }
  }

  lemma ConsumedKept(s: State, l: Label, s': State, k: CallId)
    requires Inv(s) && Next(s, l, s') && k in s'.calls && s'.calls[k].Consumed?
    ensures (k in s.calls && s.calls[k] == s'.calls[k]) || (l.Consume? && l.k == k && s'.calls[k].newHash == l.newHash)
  {
    hide Inv, Next, Closed, LogOk, Grows, LogGrows, CallOk;
    InvStep(s, l, s');
    if l.k == k { OwnConsumed(s, l, s'); }
  }

  lemma OwnConsumed(s: State, l: Label, s': State)
    requires Next(s, l, s') && l.k in s'.calls && s'.calls[l.k].Consumed?
    ensures l.Consume? && s'.calls[l.k].newHash == l.newHash
  {
    hide CreateTenant, CreateByOAuth, FindUser, FindIdentity, LookupToken, Tables.CheckSessionActive, AccountOf;
    hide ConsumeVToken, InsertVToken, InsertIdentity, InsertSession, InsertToken, InsertCode, InsertAgent;
    hide Tables.ClaimDevice, ExpiresAfter, Stored, EndAgent, Tables.DeleteDevice, RevokeToken, Tables.RevokeSession;
  }

  /** And that hash is the one the same call was given when it consumed the token. */
  lemma {:induction false} ResetsRightly(states: seq<State>, labels: seq<Label>, n: nat, k: CallId)
    requires Run(states, labels) && n < |states| && k in states[n].calls && states[n].calls[k].Consumed?
    ensures exists i: nat :: i < n && Consumes(states, labels, i) && labels[i].k == k
                             && states[i + 1].calls[k] == states[n].calls[k]
                             && labels[i].newHash == states[n].calls[k].newHash
  {
    hide Inv, Next;
    if n > 0 {
      RunInv(states, labels, n - 1);
      ConsumedKept(states[n - 1], labels[n - 1], states[n], k);
      if k in states[n - 1].calls && states[n - 1].calls[k] == states[n].calls[k] {
        ResetsRightly(states, labels, n - 1, k);
      } else {
        assert Consumes(states, labels, n - 1);
      }
    }
  }

  // ---------------------------------------------------------------- sessions

  /** The step opens this session. */
  ghost predicate OpensSession(s: State, l: Label, x: Id) {
    && l.OpenSession? && l.s == x && l.ttl > 0 && x !in s.db.sessions
    && l.k in s.calls && s.calls[l.k].Entering?
  }

  /** The step is the logout of a request that came in on this session. */
  ghost predicate LogsOut(s: State, l: Label, x: Id) {
    l.Logout? && MayAct(s, l.k) && s.calls[l.k].sessionId == x && x in s.db.sessions
  }

  /** What a step does to one session. */
  ghost predicate SessionMoves(s: State, l: Label, x: Id, s': State) {
    && (x in s'.db.sessions <==> x in s.db.sessions || OpensSession(s, l, x))
    && (OpensSession(s, l, x) ==>
          && s'.db.sessions[x].user == s.calls[l.k].user && s'.db.sessions[x].account == s.calls[l.k].account
          && !s'.db.sessions[x].revoked && Lasts(s'.db.sessions[x].expires, l.now, l.ttl))
    && (LogsOut(s, l, x) ==> x in s.db.sessions)
    && (x in s.db.sessions ==>
          s'.db.sessions[x] == s.db.sessions[x].(revoked := s.db.sessions[x].revoked || LogsOut(s, l, x)))
  }

  lemma SessionWritten(s: State, l: Label, s': State, x: Id)
    requires Inv(s) && Next(s, l, s') && (l.OpenSession? || l.Logout?)
    ensures SessionMoves(s, l, x, s')
  {
    hide Inv, Next, OpenSessionOp, LogoutOp, ExpiresAfter, LeavesDevices;
    WritesLogins(s, l, s');
    if l.OpenSession? {
      OpenOutcome(s, l);
      ExpiryLasts(l.now, l.ttl);
    } else if l.Logout? {
      LogoutOutcome(s, l.k);
    }
  }

  lemma SessionStep(s: State, l: Label, s': State, x: Id)
    requires Inv(s) && Next(s, l, s')
    ensures SessionMoves(s, l, x, s')
  {
    hide Inv, Next;
    if l.OpenSession? || l.Logout? {
      hide SessionMoves;
      SessionWritten(s, l, s', x);
    } else {
      StepLeaves(s, l, s');
    }
  }

  /** A session is there exactly if some login opened it, and revoked exactly if a request
      that came in on it logged out. */
  lemma {:induction false} SessionsExactly(states: seq<State>, labels: seq<Label>, n: nat, x: Id)
    requires Run(states, labels) && n < |states|
    ensures x in states[n].db.sessions <==> exists i: nat :: i < n && OpensSession(states[i], labels[i], x)
    ensures x in states[n].db.sessions && states[n].db.sessions[x].revoked
        <==> exists i: nat :: i < n && LogsOut(states[i], labels[i], x)
  {
    hide Inv, Next, OpensSession, LogsOut;
    if n > 0 {
      SessionsExactly(states, labels, n - 1, x);
      RunInv(states, labels, n - 1);
      SessionStep(states[n - 1], labels[n - 1], states[n], x);
    }
  }

  /** Logging out is for good: no request ever again comes in on the session. */
  lemma LoggedOutForGood(states: seq<State>, labels: seq<Label>, i: nat, j: nat, x: Id)
    requires Run(states, labels) && i < j < |labels| && LogsOut(states[i], labels[i], x)
    requires labels[j].Bearer? && labels[j].claims.session == x
    ensures states[j + 1] == Put(states[j], labels[j].k, Failed)
  {
    hide Inv, Next, LogsOut;
    RunInv(states, labels, i);
    SessionStep(states[i], labels[i], states[i + 1], x);
    RevokedForever(states, labels, i + 1, j);
  }

  // ---------------------------------------------------------------- verification tokens

  /** The step mails a token for this call's user. */
  ghost predicate Mails(s: State, l: Label, t: Id) {
    && l.MailToken? && l.t == t && MayMail(s, l.k) && s.calls[l.k].email != "" && l.ttl >= 0
    && MayStore(s.db, t, l.hash)
  }

  ghost predicate UsesToken(s: State, l: Label, t: Id) { l.Consume? && MayUse(s, l, t) }

  /** What a step does to one verification token. */
  ghost predicate VTokenMoves(s: State, l: Label, t: Id, s': State) {
    && (t in s'.db.vtokens <==> t in s.db.vtokens || Mails(s, l, t))
    && (Mails(s, l, t) ==>
          && s'.db.vtokens[t].user == s.calls[l.k].user && s'.db.vtokens[t].email == s.calls[l.k].email
          && s'.db.vtokens[t].purpose == (if s.calls[l.k].SignedUp? then EmailVerify else PasswordReset)
          && s'.db.vtokens[t].hash == l.hash && s'.db.vtokens[t].consumed == None
          && Lasts(s'.db.vtokens[t].expires, l.now, l.ttl))
    && (t in s.db.vtokens ==>
          s'.db.vtokens[t] == if UsesToken(s, l, t) then s.db.vtokens[t].(consumed := Some(l.now))
                              else s.db.vtokens[t])
  }

  lemma VTokenStep(s: State, l: Label, s': State, t: Id)
    requires Inv(s) && Next(s, l, s')
    ensures VTokenMoves(s, l, t, s')
  {
    hide Inv, Next, MailTokenOp, ConsumeOp, ExpiresAfter, LeavesDevices;
    WritesLogins(s, l, s');
    if l.MailToken? {
      MailOutcome(s, l);
      ExpiryLasts(l.now, l.ttl);
    } else if l.Consume? {
      OnlyOneUsed(s, l);
      ConsumeOutcome(s, l);
    } else {
      StepLeaves(s, l, s');
    }
  }

  lemma OnlyOneUsed(s: State, l: Label)
    requires Inv(s) && l.Consume?
    ensures forall t, t' :: MayUse(s, l, t) && MayUse(s, l, t') ==> t == t'
  {
    hide EmailsUnique, OneHome, SessionsHome, TokensHome, CodesHome, DevicesHome, AgentsHome, IdentitiesOk;
    hide CodesMatchDevices, TokensMatchDevices, LogOk, CallsOk;
  }

  /** A verification token is there exactly if it was mailed, and used up exactly if a call
      presented it for its purpose while it was live. */
  lemma {:induction false} VTokensExactly(states: seq<State>, labels: seq<Label>, n: nat, t: Id)
    requires Run(states, labels) && n < |states|
    ensures t in states[n].db.vtokens <==> exists i: nat :: i < n && Mails(states[i], labels[i], t)
    ensures t in states[n].db.vtokens && states[n].db.vtokens[t].consumed.Some?
        <==> exists i: nat :: i < n && UsesToken(states[i], labels[i], t)
  {
    hide Inv, Next, Mails, MayUse;
    if n > 0 {
      VTokensExactly(states, labels, n - 1, t);
      RunInv(states, labels, n - 1);
      VTokenStep(states[n - 1], labels[n - 1], states[n], t);
      OnlyThereUsed(states[n - 1], labels[n - 1], t);
    }
  }

  lemma OnlyThereUsed(s: State, l: Label, t: Id)
    ensures UsesToken(s, l, t) ==> t in s.db.vtokens && s.db.vtokens[t].consumed == None
  {}

  // ---------------------------------------------------------------- API tokens, devices, codes, agents

  /** The claim of this step goes through. */
  ghost predicate ClaimPasses(s: State, l: Label) {
    && l.Claim? && LiveCode(s.db, l.code, l.now) && l.d !in s.db.devices && MayAdd(s.db, l.t, l.hash)
  }

  /** The step adds this API token: asked for by a request, or with a claimed device. */
  ghost predicate AddsToken(s: State, l: Label, t: Id) {
    || (l.NewApiToken? && l.t == t && MayAct(s, l.k) && t != "" && s.calls[l.k].account != ""
        && s.calls[l.k].user != "" && MayAdd(s.db, t, l.hash))
    || (ClaimPasses(s, l) && l.t == t)
  }

  ghost predicate RevokesToken(s: State, l: Label, t: Id) { l.RevokeApiToken? && l.t == t && t in s.db.tokens }

  /** What a step does to one API token. */
  ghost predicate TokenMoves(s: State, l: Label, t: Id, s': State) {
    && (t in s'.db.tokens <==> t in s.db.tokens || AddsToken(s, l, t))
    && (AddsToken(s, l, t) ==>
          || (l.Claim? && l.code in s.db.codes && s'.db.tokens[t] ==
                ApiToken(s.db.codes[l.code].account, s.db.codes[l.code].user, Some(l.d), l.hash, None, false))
          || (l.NewApiToken? && MayAct(s, l.k) && s'.db.tokens[t] ==
                ApiToken(s.calls[l.k].account, s.calls[l.k].user, None, l.hash, None, false)))
    && (RevokesToken(s, l, t) ==> t in s.db.tokens)
    && (t in s.db.tokens ==>
          s'.db.tokens[t] == s.db.tokens[t].(revoked := s.db.tokens[t].revoked || RevokesToken(s, l, t)))
  }

  lemma TokenWritten(s: State, l: Label, s': State, t: Id)
    requires Inv(s) && Next(s, l, s') && (l.NewApiToken? || l.Claim? || l.RevokeApiToken?)
    ensures TokenMoves(s, l, t, s')
  {
    hide Inv, Next, NewApiTokenOp, ClaimOp, RevokeApiTokenOp, LeavesLogins;
    WritesDevices(s, l, s');
    if l.NewApiToken? {
      NewTokenOutcome(s, l);
    } else if l.Claim? {
      ClaimOutcome(s, l);
    } else if l.RevokeApiToken? {
      RevokeOutcome(s, l);
    }
  }

  lemma TokenStep(s: State, l: Label, s': State, t: Id)
    requires Inv(s) && Next(s, l, s')
    ensures TokenMoves(s, l, t, s')
  {
    hide Inv, Next;
    if l.NewApiToken? || l.Claim? || l.RevokeApiToken? {
      hide TokenMoves;
      TokenWritten(s, l, s', t);
    } else {
      StepLeaves(s, l, s');
    }
  }

  /** An API token is there exactly if a request asked for it or it came with a claimed
      device, and revoked exactly if a request revoked it. */
  lemma {:induction false} TokensExactly(states: seq<State>, labels: seq<Label>, n: nat, t: Id)
    requires Run(states, labels) && n < |states|
    ensures t in states[n].db.tokens <==> exists i: nat :: i < n && AddsToken(states[i], labels[i], t)
    ensures t in states[n].db.tokens && states[n].db.tokens[t].revoked
        <==> exists i: nat :: i < n && RevokesToken(states[i], labels[i], t)
  {
    hide Inv, Next, AddsToken, RevokesToken;
    if n > 0 {
      TokensExactly(states, labels, n - 1, t);
      RunInv(states, labels, n - 1);
      TokenStep(states[n - 1], labels[n - 1], states[n], t);
    }
  }

  /** Revoking is for good: no request ever again comes in on the token. */
  lemma TokenRevokedForGood(states: seq<State>, labels: seq<Label>, i: nat, j: nat, t: Id)
    requires Run(states, labels) && i < j < |labels| && RevokesToken(states[i], labels[i], t)
    requires labels[j].TokenAuth? && labels[j].hash == states[i].db.tokens[t].hash
    ensures states[j + 1] == Put(states[j], labels[j].k, Failed)
  {
    hide Inv, Next;
    RunInv(states, labels, i);
    TokenStep(states[i], labels[i], states[i + 1], t);
    assert RevokedHash(states[i + 1].db.tokens, labels[j].hash);
    RevokedForever(states, labels, i + 1, j);
  }

  /** The step deletes this device, at the request of its account. */
  ghost predicate Drops(s: State, l: Label, d: Id) {
    l.DropDevice? && l.k in s.calls && s.calls[l.k].Deleting? && s.calls[l.k].deleted == d
  }

  /** What a step does to one device. */
  ghost predicate DeviceMoves(s: State, l: Label, d: Id, s': State) {
    && (d in s'.db.devices <==> d in s.db.devices || (ClaimPasses(s, l) && l.d == d))
    && (ClaimPasses(s, l) && l.d == d ==>
          s'.db.devices[d] == Device(s.db.codes[l.code].account, s.db.codes[l.code].user, false))
    && (Drops(s, l, d) ==> d in s.db.devices && s.db.devices[d].account == s.calls[l.k].account)
    && (d in s.db.devices ==>
          s'.db.devices[d] == s.db.devices[d].(deleted := s.db.devices[d].deleted || Drops(s, l, d)))
  }

  lemma DeviceWritten(s: State, l: Label, s': State, d: Id)
    requires Inv(s) && Next(s, l, s') && (l.Claim? || l.DropDevice?)
    ensures DeviceMoves(s, l, d, s')
  {
    hide Inv, Next, ClaimOp, DropDeviceOp, LeavesLogins;
    WritesDevices(s, l, s');
    if l.Claim? {
      ClaimOutcome(s, l);
    } else if l.DropDevice? {
      DropOutcome(s, l.k);
    }
  }

  lemma DeviceStep(s: State, l: Label, s': State, d: Id)
    requires Inv(s) && Next(s, l, s')
    ensures DeviceMoves(s, l, d, s')
  {
    hide Inv, Next;
    if l.Claim? || l.DropDevice? {
      hide DeviceMoves;
      DeviceWritten(s, l, s', d);
    } else {
      StepLeaves(s, l, s');
    }
  }

  /** A device is there exactly if a claim made it, and deleted exactly if a request of its
      account deleted it. */
  lemma {:induction false} DevicesExactly(states: seq<State>, labels: seq<Label>, n: nat, d: Id)
    requires Run(states, labels) && n < |states|
    ensures d in states[n].db.devices
        <==> exists i: nat :: i < n && ClaimPasses(states[i], labels[i]) && labels[i].d == d
    ensures d in states[n].db.devices && states[n].db.devices[d].deleted
        <==> exists i: nat :: i < n && Drops(states[i], labels[i], d)
  {
    hide Inv, Next, Drops, LiveCode, MayAdd;
    if n > 0 {
      DevicesExactly(states, labels, n - 1, d);
      RunInv(states, labels, n - 1);
      DeviceStep(states[n - 1], labels[n - 1], states[n], d);
    }
  }

  /** The step makes this code for the request's account and user. */
  ghost predicate MakesCode(s: State, l: Label, c: string) {
    && l.NewPairCode? && l.code == c && MayAct(s, l.k) && s.calls[l.k].account != "" && s.calls[l.k].user != ""
    && c !in s.db.codes
  }

  /** What a step does to one pair code. */
  ghost predicate CodeMoves(s: State, l: Label, c: string, s': State) {
    && (c in s'.db.codes <==> c in s.db.codes || MakesCode(s, l, c))
    && (MakesCode(s, l, c) ==>
          s'.db.codes[c] ==
            PairCode(s.calls[l.k].account, s.calls[l.k].user, Stored(l.now + 300_000_000_000), None))
    && (c in s.db.codes ==>
          s'.db.codes[c] ==
            if ClaimPasses(s, l) && l.code == c then s.db.codes[c].(consumed := Some(Consumption(l.d, l.now)))
            else s.db.codes[c])
  }

  lemma CodeStep(s: State, l: Label, s': State, c: string)
    requires Inv(s) && Next(s, l, s')
    ensures CodeMoves(s, l, c, s')
  {
    hide Inv, Next, ClaimOp, NewPairCodeOp, Stored, LeavesLogins;
    WritesDevices(s, l, s');
    WritesOthers(s, l, s');
    if l.Claim? {
      ClaimOutcome(s, l);
    } else if l.NewPairCode? {
      NewCodeOutcome(s, l);
    } else {
      StepLeaves(s, l, s');
    }
  }

  /** A pair code is there exactly if a request made it, and used up exactly if a claim with
      it went through. */
  lemma {:induction false} CodesExactly(states: seq<State>, labels: seq<Label>, n: nat, c: string)
    requires Run(states, labels) && n < |states|
    ensures c in states[n].db.codes <==> exists i: nat :: i < n && MakesCode(states[i], labels[i], c)
    ensures c in states[n].db.codes && states[n].db.codes[c].consumed.Some?
        <==> exists i: nat :: i < n && ClaimPasses(states[i], labels[i]) && labels[i].code == c
  {
    hide Inv, Next, MakesCode, MayAdd, Stored;
    if n > 0 {
      CodesExactly(states, labels, n - 1, c);
      RunInv(states, labels, n - 1);
      CodeStep(states[n - 1], labels[n - 1], states[n], c);
    }
  }

  /** The step starts this agent session on the request's device. */
  ghost predicate Starts(s: State, l: Label, g: Id) {
    && l.NewAgent? && l.g == g && MayAct(s, l.k) && s.calls[l.k].device.Some? && g != ""
    && s.calls[l.k].account != "" && g !in s.db.agents
  }

  ghost predicate Ends(s: State, l: Label, g: Id) {
    l.StopAgent? && l.k in s.calls && s.calls[l.k].Ending? && s.calls[l.k].agent == g
  }

  /** What a step does to one agent session. */
  ghost predicate AgentMoves(s: State, l: Label, g: Id, s': State) {
    && (g in s'.db.agents <==> g in s.db.agents || Starts(s, l, g))
    && (Starts(s, l, g) ==>
          s'.db.agents[g] == AgentSession(s.calls[l.k].account, s.calls[l.k].device.value, true))
    && (Ends(s, l, g) ==> g in s.db.agents && s.calls[l.k].device == Some(s.db.agents[g].device))
    && (g in s.db.agents ==>
          s'.db.agents[g] == s.db.agents[g].(running := s.db.agents[g].running && !Ends(s, l, g)))
  }

  lemma AgentWritten(s: State, l: Label, s': State, g: Id)
    requires Inv(s) && Next(s, l, s') && (l.NewAgent? || l.StopAgent?)
    ensures AgentMoves(s, l, g, s')
  {
    hide Inv, Next, NewAgentOp, StopAgentOp, LeavesLogins;
    WritesOthers(s, l, s');
    if l.NewAgent? {
      NewAgentOutcome(s, l);
    } else if l.StopAgent? {
      StopOutcome(s, l.k);
    }
  }

  lemma AgentStep(s: State, l: Label, s': State, g: Id)
    requires Inv(s) && Next(s, l, s')
    ensures AgentMoves(s, l, g, s')
  {
    hide Inv, Next;
    if l.NewAgent? || l.StopAgent? {
      hide AgentMoves;
      AgentWritten(s, l, s', g);
    } else {
      StepLeaves(s, l, s');
    }
  }

  /** An agent session is there exactly if a device's request started it, and over exactly if
      that device ended it. */
  lemma {:induction false} AgentsExactly(states: seq<State>, labels: seq<Label>, n: nat, g: Id)
    requires Run(states, labels) && n < |states|
    ensures g in states[n].db.agents <==> exists i: nat :: i < n && Starts(states[i], labels[i], g)
    ensures g in states[n].db.agents && !states[n].db.agents[g].running
        <==> exists i: nat :: i < n && Ends(states[i], labels[i], g)
  {
    hide Inv, Next, Starts, Ends;
    if n > 0 {
      AgentsExactly(states, labels, n - 1, g);
      RunInv(states, labels, n - 1);
      AgentStep(states[n - 1], labels[n - 1], states[n], g);
    }
  }

  // ---------------------------------------------------------------- key requests

  /** The step asks for the key of a claim that went through. */
  ghost predicate Mints(s: State, l: Label, a: Id, u: Id) {
    l.Mint? && l.k in s.calls && s.calls[l.k].Claimed? && s.calls[l.k].account == a && s.calls[l.k].user == u
  }

  lemma MintsStep(s: State, l: Label, s': State, a: Id, u: Id)
    requires Inv(s) && Next(s, l, s')
    ensures (a, u) in s'.log.mints <==> (a, u) in s.log.mints || Mints(s, l, a, u)
  {
    hide Inv, Next;
    WritesOthers(s, l, s');
    if !l.Mint? { StepLeaves(s, l, s'); }
  }

  /** Keys are asked for exactly for the account and user of a claim that went through. */
  lemma {:induction false} MintsExactly(states: seq<State>, labels: seq<Label>, n: nat, a: Id, u: Id)
    requires Run(states, labels) && n < |states|
    ensures (a, u) in states[n].log.mints <==> exists i: nat :: i < n && Mints(states[i], labels[i], a, u)
  {
    hide Inv, Next, Mints;
    if n > 0 {
      MintsExactly(states, labels, n - 1, a, u);
      RunInv(states, labels, n - 1);
      MintsStep(states[n - 1], labels[n - 1], states[n], a, u);
    }
  }
}
