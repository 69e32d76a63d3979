/** Signups, logins, token, pair-code, device and agent-session requests of internal/auth,
    internal/devices/pairing.go and internal/api/sessions.go running side by side. Each call
    takes one statement or one transaction at a time; between any two, other calls may run,
    and any call may be cut off. Clocks are read anew at each step and need not agree. */
module AuthSteps {
  import opened Wrappers
  import opened Tables
  import opened Tenancy
  import TimeText

  type CallId = nat

  /** What a login rests on; `created` is the flag FinishLogin reports. */
  datatype Origin = ByPassword | ByProvider(provider: string, subject: string, created: bool)

  /** A signed token. Only what was signed can be presented. */
  datatype Claims = Claims(session: Id, user: Id, account: Id)

  /** Where a call stands, with what it has read. */
  datatype Pc =
    | SignedUp(user: Id, account: Id, email: string)
    | ResetFound(user: Id, email: string)
    | Consumed(token: Id, purpose: Purpose, user: Id, newHash: string)
    | Unknown(provider: string, subject: string, email: string)
    | Unmatched(provider: string, subject: string, email: string)
    | Matching(provider: string, subject: string, email: string, user: Id)
    | Resolving(user: Id, origin: Origin)
    | Entering(user: Id, account: Id, origin: Origin)
    | Signing(session: Id, user: Id, account: Id, origin: Origin)
    | Entered(session: Id, user: Id, account: Id, origin: Origin)
    | Authed(user: Id, account: Id, device: Option<Id>, sessionId: string)
    | Ending(agent: Id, account: Id, device: Option<Id>)
    | Deleting(deleted: Id, account: Id)
    | Claimed(code: string, claimed: Id, token: Id, account: Id, user: Id)
    | Finished
    | Failed

  datatype Made = CreatedBy(k: CallId) | LinkedBy(k: CallId)

  /** What the run has done, beside what the tables say: the tokens signed, the call that
      made each identity, the users OAuth created, the sessions Login opened, the pairs keys
      were asked for. */
  datatype Log = Log(
    issued: set<Claims>,
    made: map<(string, string), Made>,
    bornVerified: set<Id>,
    passwordSessions: set<Id>,
    mints: set<(Id, Id)>)

  datatype State = State(db: Db, calls: map<CallId, Pc>, log: Log)

  const INIT := State(EMPTY, map[], Log({}, map[], {}, {}, {}))

  const PAIR_CODE_TTL := 300 * TimeText.NANOS

  const API_TOKEN_PREFIX := "api-token:"

  datatype Label =
    | Signup(k: CallId, u: Id, email: string, hash: string, a: Id, slug: string, m: Id, now: Time)
    | MailToken(k: CallId, t: Id, hash: string, now: Time, ttl: int)
    | RequestReset(k: CallId, email: string)
    | Consume(k: CallId, hash: string, purpose: Purpose, now: Time, newHash: string)
    | UseConsumed(k: CallId)
    | Login(k: CallId, email: string, passwordOk: bool)
    | OAuth(k: CallId, provider: string, subject: string, email: string)
    | MatchEmail(k: CallId)
    | LinkIdentity(k: CallId, i: Id)
    | CreateUser(k: CallId, u: Id, a: Id, slug: string, m: Id, i: Id, now: Time)
    | Resolve(k: CallId)
    | OpenSession(k: CallId, s: Id, now: Time, ttl: int)
    | Sign(k: CallId)
    | Bearer(k: CallId, claims: Claims, now: Time)
    | TokenAuth(k: CallId, hash: string, now: Time)
    | NewApiToken(k: CallId, t: Id, hash: string)
    | NewPairCode(k: CallId, code: string, now: Time)
    | NewAgent(k: CallId, g: Id)
    | FindAgent(k: CallId, g: Id)
    | StopAgent(k: CallId)
    | FindDevice(k: CallId, d: Id)
    | DropDevice(k: CallId)
    | RevokeApiToken(k: CallId, t: Id)
    | Logout(k: CallId)
    | Claim(k: CallId, code: string, now: Time, d: Id, t: Id, hash: string)
    | Mint(k: CallId)
    | CutOff(k: CallId)

  // ---------------------------------------------------------------- steps

  function Put(s: State, k: CallId, pc: Pc): State { s.(calls := s.calls[k := pc]) }

  /** The call goes on over the new tables, or fails and leaves them. */
  function Written(s: State, k: CallId, r: Option<Db>, pc: Pc): State {
    if r.None? then Put(s, k, Failed) else Put(s.(db := r.value), k, pc)
  }

  /** datetime('now', '+N seconds') for the whole seconds of a duration. */
  function ExpiresAfter(now: Time, ttl: int): Time { Stored(now) + Stored(ttl) }

  function SignupOp(s: State, l: Label): State
    requires l.Signup?
  {
    if l.email == "" || l.hash == "" then Put(s, l.k, Failed)
    else Written(s, l.k, CreateTenant(s.db, l.u, User(l.email, l.hash, false), l.a, l.slug, l.m, Stored(l.now)),
                 SignedUp(l.u, l.a, l.email))
  }

  ghost predicate MayMail(s: State, k: CallId) { k in s.calls && (s.calls[k].SignedUp? || s.calls[k].ResetFound?) }

  function MailTokenOp(s: State, l: Label): State
    requires l.MailToken? && MayMail(s, l.k)
  {
    var pc := s.calls[l.k];
    var purpose := if pc.SignedUp? then EmailVerify else PasswordReset;
    if l.t == "" || pc.email == "" || l.ttl < 0 then Put(s, l.k, Failed)
    else
      var row := VToken(purpose, pc.user, pc.email, l.hash, ExpiresAfter(l.now, l.ttl), None);
      Written(s, l.k, InsertVToken(s.db, l.t, row), Finished)
  }

  ghost function RequestResetOp(s: State, l: Label): State
    requires l.RequestReset?
  {
    var u := FindUser(s.db.users, l.email);
    Put(s, l.k, if u.Some? then ResetFound(u.value, l.email) else Finished)
  }

  ghost function ConsumeOp(s: State, l: Label): State
    requires l.Consume?
  {
    if l.purpose == PasswordReset && l.newHash == "" then Put(s, l.k, Failed)
    else
      var r := ConsumeVToken(s.db, l.hash, l.purpose, l.now);
      if r.Err? then Put(s, l.k, Failed)
      else
        ConsumeRows(s.db, l.hash, l.purpose, l.now);
        Put(s.(db := r.value.0), l.k, Consumed(r.value.1, l.purpose, s.db.vtokens[r.value.1].user, l.newHash))
  }

  function UseConsumedOp(s: State, k: CallId): State
    requires k in s.calls && s.calls[k].Consumed?
  {
    var pc := s.calls[k];
    var db := if pc.purpose == EmailVerify then MarkVerified(s.db, pc.user) else SetPassword(s.db, pc.user, pc.newHash);
    Put(s.(db := db), k, Finished)
  }

  ghost function LoginOp(s: State, l: Label): State
    requires l.Login?
  {
    var u := FindUser(s.db.users, l.email);
    if u.None? || s.db.users[u.value].passwordHash == "" || !l.passwordOk || !s.db.users[u.value].verified then
      Put(s, l.k, Failed)
    else Put(s, l.k, Resolving(u.value, ByPassword))
  }

  ghost function OAuthOp(s: State, l: Label): State
    requires l.OAuth?
  {
    var i := FindIdentity(s.db.identities, l.provider, l.subject);
    if l.email == "" || l.subject == "" then Put(s, l.k, Failed)
    else if i.None? then Put(s, l.k, Unknown(l.provider, l.subject, l.email))
    else Put(s, l.k, Resolving(s.db.identities[i.value].user, ByProvider(l.provider, l.subject, false)))
  }

  ghost function MatchEmailOp(s: State, k: CallId): State
    requires k in s.calls && s.calls[k].Unknown?
  {
    var pc := s.calls[k];
    var u := FindUser(s.db.users, pc.email);
    Put(s, k, if u.Some? then Matching(pc.provider, pc.subject, pc.email, u.value)
              else Unmatched(pc.provider, pc.subject, pc.email))
  }

  function LinkIdentityOp(s: State, l: Label): State
    requires l.LinkIdentity? && l.k in s.calls && s.calls[l.k].Matching?
  {
    var pc := s.calls[l.k];
    var r := InsertIdentity(s.db, l.i, Identity(pc.user, pc.provider, pc.subject, pc.email));
    if r.None? then Put(s, l.k, Failed)
    else Put(s.(db := r.value, log := s.log.(made := s.log.made[(pc.provider, pc.subject) := LinkedBy(l.k)])), l.k,
             Resolving(pc.user, ByProvider(pc.provider, pc.subject, false)))
  }

  function CreateUserOp(s: State, l: Label): State
    requires l.CreateUser? && l.k in s.calls && s.calls[l.k].Unmatched?
  {
    var pc := s.calls[l.k];
    var r := CreateByOAuth(s.db, l.u, l.a, l.slug, l.m, Stored(l.now), l.i, pc.provider, pc.subject, pc.email);
    if r.None? then Put(s, l.k, Failed)
    else Put(s.(db := r.value,
                log := s.log.(made := s.log.made[(pc.provider, pc.subject) := CreatedBy(l.k)],
                              bornVerified := s.log.bornVerified + {l.u})), l.k,
             Entering(l.u, l.a, ByProvider(pc.provider, pc.subject, true)))
  }

  ghost function ResolveOp(s: State, k: CallId): State
    requires k in s.calls && s.calls[k].Resolving?
  {
    var pc := s.calls[k];
    var a := AccountOf(s.db.memberships, pc.user);
    Put(s, k, if a.Some? then Entering(pc.user, a.value, pc.origin) else Failed)
  }

  function OpenSessionOp(s: State, l: Label): State
    requires l.OpenSession? && l.k in s.calls && s.calls[l.k].Entering?
  {
    var pc := s.calls[l.k];
    var r := InsertSession(s.db, l.s, Session(pc.user, pc.account, ExpiresAfter(l.now, l.ttl), false));
    if l.ttl <= 0 || r.None? then Put(s, l.k, Failed)
    else
      var marked := if pc.origin == ByPassword then {l.s} else {};
      Put(s.(db := r.value, log := s.log.(passwordSessions := s.log.passwordSessions + marked)), l.k,
          Signing(l.s, pc.user, pc.account, pc.origin))
  }

  function SignOp(s: State, k: CallId): State
    requires k in s.calls && s.calls[k].Signing?
  {
    var pc := s.calls[k];
    if pc.session == "" || pc.user == "" || pc.account == "" then Put(s, k, Failed)
    else Put(s.(log := s.log.(issued := s.log.issued + {Claims(pc.session, pc.user, pc.account)})), k,
             Entered(pc.session, pc.user, pc.account, pc.origin))
  }

  function BearerOp(s: State, l: Label): State
    requires l.Bearer?
  {
    if CheckSessionActive(s.db, l.claims.session, l.now).Err? then Put(s, l.k, Failed)
    else Put(s, l.k, Authed(l.claims.user, l.claims.account, None, l.claims.session))
  }

  ghost function TokenAuthOp(s: State, l: Label): State
    requires l.TokenAuth?
  {
    var t := LookupToken(s.db, l.hash, l.now);
    if t.Err? then Put(s, l.k, Failed)
    else
      var row := s.db.tokens[t.value];
      Put(s, l.k, Authed(row.user, row.account, if row.device == Some("") then None else row.device,
                         API_TOKEN_PREFIX + t.value))
  }

  ghost predicate MayAct(s: State, k: CallId) { k in s.calls && s.calls[k].Authed? }

  function NewApiTokenOp(s: State, l: Label): State
    requires l.NewApiToken? && MayAct(s, l.k)
  {
    var pc := s.calls[l.k];
    if l.t == "" || pc.account == "" || pc.user == "" then Put(s, l.k, Failed)
    else Written(s, l.k, InsertToken(s.db, l.t, ApiToken(pc.account, pc.user, None, l.hash, None, false)), Finished)
  }

  function NewPairCodeOp(s: State, l: Label): State
    requires l.NewPairCode? && MayAct(s, l.k)
  {
    var pc := s.calls[l.k];
    if pc.account == "" || pc.user == "" then Put(s, l.k, Failed)
    else
      var row := PairCode(pc.account, pc.user, Stored(l.now + PAIR_CODE_TTL), None);
      Written(s, l.k, InsertCode(s.db, l.code, row), Finished)
  }

  function NewAgentOp(s: State, l: Label): State
    requires l.NewAgent? && MayAct(s, l.k)
  {
    var pc := s.calls[l.k];
    if pc.device.None? || l.g == "" || pc.account == "" then Put(s, l.k, Failed)
    else Written(s, l.k, InsertAgent(s.db, l.g, AgentSession(pc.account, pc.device.value, true)), Finished)
  }

  function FindAgentOp(s: State, l: Label): State
    requires l.FindAgent? && MayAct(s, l.k)
  {
    var pc := s.calls[l.k];
    if pc.device.None? || l.g !in s.db.agents || s.db.agents[l.g].account != pc.account
       || s.db.agents[l.g].device != pc.device.value
    then Put(s, l.k, Failed)
    else Put(s, l.k, Ending(l.g, pc.account, pc.device))
  }

  function StopAgentOp(s: State, k: CallId): State
    requires k in s.calls && s.calls[k].Ending?
  {
    Put(s.(db := EndAgent(s.db, s.calls[k].agent)), k, Finished)
  }

  function FindDeviceOp(s: State, l: Label): State
    requires l.FindDevice? && MayAct(s, l.k)
  {
    var pc := s.calls[l.k];
    if l.d !in s.db.devices || s.db.devices[l.d].deleted || s.db.devices[l.d].account != pc.account then
      Put(s, l.k, Failed)
    else Put(s, l.k, Deleting(l.d, pc.account))
  }

  function DropDeviceOp(s: State, k: CallId): State
    requires k in s.calls && s.calls[k].Deleting?
  {
    Put(s.(db := DeleteDevice(s.db, s.calls[k].deleted)), k, Finished)
  }

  function RevokeApiTokenOp(s: State, l: Label): State
    requires l.RevokeApiToken?
  {
    Put(s.(db := RevokeToken(s.db, l.t)), l.k, Finished)
  }

  function LogoutOp(s: State, k: CallId): State
    requires MayAct(s, k)
  {
    Put(s.(db := RevokeSession(s.db, s.calls[k].sessionId)), k, Finished)
  }

  function ClaimOp(s: State, l: Label): State
    requires l.Claim?
  {
    var r := ClaimDevice(s.db, l.code, l.now, l.d, l.t, l.hash);
    if r.Err? then Put(s, l.k, Failed)
    else Put(s.(db := r.value), l.k, Claimed(l.code, l.d, l.t, s.db.codes[l.code].account, s.db.codes[l.code].user))
  }

  function MintOp(s: State, k: CallId): State
    requires k in s.calls && s.calls[k].Claimed?
  {
    Put(s.(log := s.log.(mints := s.log.mints + {(s.calls[k].account, s.calls[k].user)})), k, Finished)
  }

  ghost predicate Enabled(s: State, l: Label) {
    match l
    case Signup(k, _, _, _, _, _, _, _) => k !in s.calls
    case RequestReset(k, _) => k !in s.calls
    case Consume(k, _, _, _, _) => k !in s.calls
    case Login(k, _, _) => k !in s.calls
    case OAuth(k, _, _, _) => k !in s.calls
    case Bearer(k, claims, _) => k !in s.calls && claims in s.log.issued
    case TokenAuth(k, _, _) => k !in s.calls
    case Claim(k, _, _, _, _, _) => k !in s.calls
    case MailToken(k, _, _, _, _) => MayMail(s, k)
    case UseConsumed(k) => k in s.calls && s.calls[k].Consumed?
    case MatchEmail(k) => k in s.calls && s.calls[k].Unknown?
    case LinkIdentity(k, _) => k in s.calls && s.calls[k].Matching?
    case CreateUser(k, _, _, _, _, _, _) => k in s.calls && s.calls[k].Unmatched?
    case Resolve(k) => k in s.calls && s.calls[k].Resolving?
    case OpenSession(k, _, _, _) => k in s.calls && s.calls[k].Entering?
    case Sign(k) => k in s.calls && s.calls[k].Signing?
    case StopAgent(k) => k in s.calls && s.calls[k].Ending?
    case DropDevice(k) => k in s.calls && s.calls[k].Deleting?
    case Mint(k) => k in s.calls && s.calls[k].Claimed?
    case CutOff(k) => k in s.calls
    case NewApiToken(k, _, _) => MayAct(s, k)
    case NewPairCode(k, _, _) => MayAct(s, k)
    case NewAgent(k, _) => MayAct(s, k)
    case FindAgent(k, _) => MayAct(s, k)
    case FindDevice(k, _) => MayAct(s, k)
    case RevokeApiToken(k, _) => MayAct(s, k)
    case Logout(k) => MayAct(s, k)
  }

  ghost function Apply(s: State, l: Label): State
    requires Enabled(s, l)
  {
    match l
    case Signup(_, _, _, _, _, _, _, _) => SignupOp(s, l)
    case MailToken(_, _, _, _, _) => MailTokenOp(s, l)
    case RequestReset(_, _) => RequestResetOp(s, l)
    case Consume(_, _, _, _, _) => ConsumeOp(s, l)
    case UseConsumed(k) => UseConsumedOp(s, k)
    case Login(_, _, _) => LoginOp(s, l)
    case OAuth(_, _, _, _) => OAuthOp(s, l)
    case MatchEmail(k) => MatchEmailOp(s, k)
    case LinkIdentity(_, _) => LinkIdentityOp(s, l)
    case CreateUser(_, _, _, _, _, _, _) => CreateUserOp(s, l)
    case Resolve(k) => ResolveOp(s, k)
    case OpenSession(_, _, _, _) => OpenSessionOp(s, l)
    case Sign(k) => SignOp(s, k)
    case Bearer(_, _, _) => BearerOp(s, l)
    case TokenAuth(_, _, _) => TokenAuthOp(s, l)
    case NewApiToken(_, _, _) => NewApiTokenOp(s, l)
    case NewPairCode(_, _, _) => NewPairCodeOp(s, l)
    case NewAgent(_, _) => NewAgentOp(s, l)
    case FindAgent(_, _) => FindAgentOp(s, l)
    case StopAgent(k) => StopAgentOp(s, k)
    case FindDevice(_, _) => FindDeviceOp(s, l)
    case DropDevice(k) => DropDeviceOp(s, k)
    case RevokeApiToken(_, _) => RevokeApiTokenOp(s, l)
    case Logout(k) => LogoutOp(s, k)
    case Claim(_, _, _, _, _, _) => ClaimOp(s, l)
    case Mint(k) => MintOp(s, k)
    case CutOff(k) => Put(s, k, Failed)
  }

  /** The step l leads from s to s'. */
  ghost predicate Next(s: State, l: Label, s': State) { Enabled(s, l) && s' == Apply(s, l) }

  /** A step that begins a call is the operation of its kind. */
  lemma BeginDoes(s: State, l: Label, s': State)
    requires Next(s, l, s') && l.k !in s.calls
    ensures l.Signup? || l.RequestReset? || l.Consume? || l.Login? || l.OAuth? || l.Bearer? || l.TokenAuth? || l.Claim?
    ensures l.Signup? ==> s' == SignupOp(s, l)
    ensures l.RequestReset? ==> s' == RequestResetOp(s, l)
    ensures l.Consume? ==> s' == ConsumeOp(s, l)
    ensures l.Login? ==> s' == LoginOp(s, l)
    ensures l.OAuth? ==> s' == OAuthOp(s, l)
    ensures l.Bearer? ==> l.claims in s.log.issued && s' == BearerOp(s, l)
    ensures l.TokenAuth? ==> s' == TokenAuthOp(s, l)
    ensures l.Claim? ==> s' == ClaimOp(s, l)
  {
    hide SignupOp, RequestResetOp, ConsumeOp, LoginOp, OAuthOp, BearerOp, TokenAuthOp, ClaimOp;
  }

  /** So is a step of a request that was let in. */
  lemma RequestDoes(s: State, l: Label, s': State)
    requires Next(s, l, s') && MayAct(s, l.k)
    ensures l.NewApiToken? || l.NewPairCode? || l.NewAgent? || l.FindAgent? || l.FindDevice? || l.RevokeApiToken?
            || l.Logout? || l.CutOff?
    ensures l.NewApiToken? ==> s' == NewApiTokenOp(s, l)
    ensures l.NewPairCode? ==> s' == NewPairCodeOp(s, l)
    ensures l.NewAgent? ==> s' == NewAgentOp(s, l)
    ensures l.FindAgent? ==> s' == FindAgentOp(s, l)
    ensures l.FindDevice? ==> s' == FindDeviceOp(s, l)
    ensures l.RevokeApiToken? ==> s' == RevokeApiTokenOp(s, l)
    ensures l.Logout? ==> s' == LogoutOp(s, l.k)
    ensures l.CutOff? ==> s' == Put(s, l.k, Failed)
  {
    hide Put, NewApiTokenOp, NewPairCodeOp, NewAgentOp, FindAgentOp, FindDeviceOp, RevokeApiTokenOp, LogoutOp;
  }

  /** And a step of any other call under way. */
  lemma GoOnDoes(s: State, l: Label, s': State)
    requires Next(s, l, s') && l.k in s.calls && !MayAct(s, l.k)
    ensures l.MailToken? || l.UseConsumed? || l.MatchEmail? || l.LinkIdentity? || l.CreateUser? || l.Resolve?
            || l.OpenSession? || l.Sign? || l.StopAgent? || l.DropDevice? || l.Mint? || l.CutOff?
    ensures l.MailToken? ==> MayMail(s, l.k) && s' == MailTokenOp(s, l)
    ensures l.UseConsumed? ==> s.calls[l.k].Consumed? && s' == UseConsumedOp(s, l.k)
    ensures l.MatchEmail? ==> s.calls[l.k].Unknown? && s' == MatchEmailOp(s, l.k)
    ensures l.LinkIdentity? ==> s.calls[l.k].Matching? && s' == LinkIdentityOp(s, l)
    ensures l.CreateUser? ==> s.calls[l.k].Unmatched? && s' == CreateUserOp(s, l)
    ensures l.Resolve? ==> s.calls[l.k].Resolving? && s' == ResolveOp(s, l.k)
    ensures l.OpenSession? ==> s.calls[l.k].Entering? && s' == OpenSessionOp(s, l)
    ensures l.Sign? ==> s.calls[l.k].Signing? && s' == SignOp(s, l.k)
    ensures l.StopAgent? ==> s.calls[l.k].Ending? && s' == StopAgentOp(s, l.k)
    ensures l.DropDevice? ==> s.calls[l.k].Deleting? && s' == DropDeviceOp(s, l.k)
    ensures l.Mint? ==> s.calls[l.k].Claimed? && s' == MintOp(s, l.k)
    ensures l.CutOff? ==> s' == Put(s, l.k, Failed)
  {
    hide Put, MailTokenOp, UseConsumedOp, MatchEmailOp, LinkIdentityOp, CreateUserOp, ResolveOp, OpenSessionOp, SignOp;
    hide StopAgentOp, DropDeviceOp, MintOp;
  }

  /** A new call can begin. */
  lemma BeginFires(s: State, l: Label)
    requires l.k !in s.calls && (l.Bearer? ==> l.claims in s.log.issued)
    ensures l.Signup? ==> Next(s, l, SignupOp(s, l))
    ensures l.Consume? ==> Next(s, l, ConsumeOp(s, l))
    ensures l.Login? ==> Next(s, l, LoginOp(s, l))
    ensures l.OAuth? ==> Next(s, l, OAuthOp(s, l))
    ensures l.Bearer? ==> Next(s, l, BearerOp(s, l))
    ensures l.TokenAuth? ==> Next(s, l, TokenAuthOp(s, l))
    ensures l.Claim? ==> Next(s, l, ClaimOp(s, l))
  {
    hide SignupOp, ConsumeOp, LoginOp, OAuthOp, BearerOp, TokenAuthOp, ClaimOp;
  }

  /** A call under way can take the step it has come to. */
  lemma GoOnFires(s: State, l: Label)
    requires l.k in s.calls
    ensures l.MailToken? && MayMail(s, l.k) ==> Next(s, l, MailTokenOp(s, l))
    ensures l.UseConsumed? && s.calls[l.k].Consumed? ==> Next(s, l, UseConsumedOp(s, l.k))
    ensures l.MatchEmail? && s.calls[l.k].Unknown? ==> Next(s, l, MatchEmailOp(s, l.k))
    ensures l.LinkIdentity? && s.calls[l.k].Matching? ==> Next(s, l, LinkIdentityOp(s, l))
    ensures l.CreateUser? && s.calls[l.k].Unmatched? ==> Next(s, l, CreateUserOp(s, l))
    ensures l.Resolve? && s.calls[l.k].Resolving? ==> Next(s, l, ResolveOp(s, l.k))
    ensures l.OpenSession? && s.calls[l.k].Entering? ==> Next(s, l, OpenSessionOp(s, l))
    ensures l.Sign? && s.calls[l.k].Signing? ==> Next(s, l, SignOp(s, l.k))
    ensures l.NewPairCode? && MayAct(s, l.k) ==> Next(s, l, NewPairCodeOp(s, l))
    ensures l.NewAgent? && MayAct(s, l.k) ==> Next(s, l, NewAgentOp(s, l))
  {
    hide Put, MailTokenOp, UseConsumedOp, MatchEmailOp, LinkIdentityOp, CreateUserOp, ResolveOp, OpenSessionOp, SignOp;
    hide NewPairCodeOp, NewAgentOp;
  }
}
