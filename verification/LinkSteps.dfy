/** The two-store protocol of internal/headscale/service.go: find or create a Headscale
    user for one of our users, record the link in our table, mint a pre-auth key for it.

    There is no transaction across the two stores. Calls of MintPreAuthKey run side by
    side, each one store access at a time; any access may fail, with or without having
    taken effect, and a call may be cut off between any two. Headscale refuses a second
    user of the same name and hands out non-zero ids; it never deletes a user, and others
    may create users in it too. */
module LinkSteps {
  import opened Wrappers

  type Id = string
  type CallId = nat

  datatype Link = Link(hsId: nat, hsName: string)

  /** The account and user rows a link may refer to, our link table, Headscale's users. */
  datatype Store = Store(accounts: set<Id>, users: set<Id>, links: map<(Id, Id), Link>, remote: map<nat, string>)

  /** A pre-auth key, by whom it was minted for and what it is bound to. */
  datatype Key = Key(account: Id, user: Id, hsId: nat)

  datatype Pc =
    | Looking
    | Finding
    | Creating
    | Linking(hsId: nat, hsName: string)
    | Minting(hsId: nat)
    | Minted(hsId: nat)
    | Failed

  datatype Call = Call(account: Id, user: Id, pc: Pc)

  datatype State = State(store: Store, calls: map<CallId, Call>, keys: set<Key>)

  const INIT := State(Store({}, {}, map[], map[]), map[], {})

  // ---------------------------------------------------------------- store accesses

  function GetLink(store: Store, account: Id, user: Id): Option<Link> {
    if (account, user) in store.links then Some(store.links[(account, user)]) else None
  }

  ghost function FindUserByName(remote: map<nat, string>, name: string): Option<nat> {
    if exists id :: id in remote && remote[id] == name then
      var id :| id in remote && remote[id] == name;
      Some(id)
    else None
  }

  /** CreateLink: the checks on the row, then the primary key, the unique index on the
      Headscale id and the two foreign keys. */
  ghost predicate LinkInsertable(store: Store, account: Id, user: Id, link: Link) {
    && account != "" && user != "" && link.hsId != 0 && link.hsName != ""
    && (account, user) !in store.links
    && (forall k :: k in store.links ==> store.links[k].hsId != link.hsId)
    && account in store.accounts && user in store.users
  }

  function InsertLink(store: Store, account: Id, user: Id, link: Link): Store {
    store.(links := store.links[(account, user) := link])
  }

  // ---------------------------------------------------------------- steps

  /** How a store access ends for its caller. */
  datatype Reply = Answered | Lost | Refused

  datatype Label =
    | Begin(k: CallId, account: Id, user: Id)
    | LookUp(k: CallId)
    | Find(k: CallId)
    | Create(k: CallId, id: nat, reply: Reply)
    | Insert(k: CallId, reply: Reply)
    | Mint(k: CallId, reply: Reply)
    | CutOff(k: CallId)
    | OtherUser(id: nat, name: string)
    | NewAccount(account: Id)
    | NewUser(user: Id)

  ghost predicate At(s: State, k: CallId) { k in s.calls }

  ghost predicate Named(remote: map<nat, string>, name: string) {
    exists id :: id in remote && remote[id] == name
  }

  ghost predicate Enabled(s: State, l: Label) {
    match l
    case Begin(k, _, _) => k !in s.calls
    case LookUp(k) => At(s, k) && s.calls[k].pc == Looking
    case Find(k) => At(s, k) && s.calls[k].pc == Finding
    case Create(k, id, _) => At(s, k) && s.calls[k].pc == Creating && id != 0 && id !in s.store.remote
    case Insert(k, _) => At(s, k) && s.calls[k].pc.Linking?
    case Mint(k, _) => At(s, k) && s.calls[k].pc.Minting?
    case CutOff(k) => At(s, k)
    case OtherUser(id, name) => id != 0 && id !in s.store.remote && !Named(s.store.remote, name)
    case NewAccount(_) => true
    case NewUser(_) => true
  }

  function Move(s: State, k: CallId, pc: Pc): State
    requires k in s.calls
  {
    s.(calls := s.calls[k := s.calls[k].(pc := pc)])
  }

  ghost function Apply(prefix: string, s: State, l: Label): State
    requires Enabled(s, l)
  {
    match l
    case Begin(k, account, user) => s.(calls := s.calls[k := Call(account, user, Looking)])
    case LookUp(k) =>
      var link := GetLink(s.store, s.calls[k].account, s.calls[k].user);
      Move(s, k, if link.Some? then Minting(link.value.hsId) else Finding)
    case Find(k) =>
      var name := prefix + s.calls[k].user;
      var found := FindUserByName(s.store.remote, name);
      Move(s, k, if found.Some? then Linking(found.value, name) else Creating)
    case Create(k, id, reply) =>
      var name := prefix + s.calls[k].user;
      if reply == Refused || Named(s.store.remote, name) then Move(s, k, Failed)
      else
        Move(s.(store := s.store.(remote := s.store.remote[id := name])), k,
             if reply == Lost then Failed else Linking(id, name))
    case Insert(k, reply) =>
      var call := s.calls[k];
      var link := Link(call.pc.hsId, call.pc.hsName);
      if reply == Refused || !LinkInsertable(s.store, call.account, call.user, link) then Move(s, k, Failed)
      else
        Move(s.(store := InsertLink(s.store, call.account, call.user, link)), k,
             if reply == Lost then Failed else Minting(link.hsId))
    case Mint(k, reply) =>
      var call := s.calls[k];
      if reply == Refused then Move(s, k, Failed)
      else
        Move(s.(keys := s.keys + {Key(call.account, call.user, call.pc.hsId)}), k,
             if reply == Lost then Failed else Minted(call.pc.hsId))
    case CutOff(k) => Move(s, k, Failed)
    case OtherUser(id, name) => s.(store := s.store.(remote := s.store.remote[id := name]))
    case NewAccount(account) => s.(store := s.store.(accounts := s.store.accounts + {account}))
    case NewUser(user) => s.(store := s.store.(users := s.store.users + {user}))
  }

  ghost predicate Steps(prefix: string, states: seq<State>, labels: seq<Label>) {
    && |states| == |labels| + 1
    && forall i :: 0 <= i < |labels| ==>
         Enabled(states[i], labels[i]) && states[i + 1] == Apply(prefix, states[i], labels[i])
  }

  ghost predicate Run(prefix: string, states: seq<State>, labels: seq<Label>) {
    Steps(prefix, states, labels) && states[0] == INIT
  }

  // ---------------------------------------------------------------- what every step keeps

  ghost predicate RemoteOk(remote: map<nat, string>) {
    && 0 !in remote
    && forall i, j :: i in remote && j in remote && remote[i] == remote[j] ==> i == j
  }

  ghost predicate StoreOk(prefix: string, store: Store) {
    && RemoteOk(store.remote)
    && (forall k :: k in store.links ==>
          var link := store.links[k];
          && k.0 != "" && k.1 != "" && k.0 in store.accounts && k.1 in store.users
          && link.hsName == prefix + k.1
          && link.hsId in store.remote && store.remote[link.hsId] == link.hsName)
    && (forall k, k' :: k in store.links && k' in store.links ==>
          (store.links[k].hsId == store.links[k'].hsId ==> k == k'))
  }

  ghost predicate CallOk(prefix: string, store: Store, call: Call) {
    match call.pc
    case Linking(id, name) => name == prefix + call.user && id in store.remote && store.remote[id] == name
    case Minting(id) => (call.account, call.user) in store.links && store.links[(call.account, call.user)].hsId == id
    case Minted(id) => (call.account, call.user) in store.links && store.links[(call.account, call.user)].hsId == id
    case _ => true
  }

  ghost predicate KeyOk(store: Store, key: Key) {
    (key.account, key.user) in store.links && store.links[(key.account, key.user)].hsId == key.hsId
  }

  ghost predicate Inv(prefix: string, s: State) {
    && StoreOk(prefix, s.store)
    && (forall k :: k in s.calls ==> CallOk(prefix, s.store, s.calls[k]))
    && (forall key :: key in s.keys ==> KeyOk(s.store, key))
  }

  /** Neither store forgets or rewrites anything. */
  ghost predicate StoreGrows(store: Store, store': Store) {
    && store.accounts <= store'.accounts && store.users <= store'.users
    && (forall k :: k in store.links ==> k in store'.links && store'.links[k] == store.links[k])
    && (forall id :: id in store.remote ==> id in store'.remote && store'.remote[id] == store.remote[id])
  }

  lemma AddRemoteOk(prefix: string, store: Store, id: nat, name: string)
    requires StoreOk(prefix, store) && id != 0 && id !in store.remote && !Named(store.remote, name)
    ensures var store' := store.(remote := store.remote[id := name]);
            StoreOk(prefix, store') && StoreGrows(store, store')
  {}

  lemma InsertLinkOk(prefix: string, store: Store, account: Id, user: Id, link: Link)
    requires StoreOk(prefix, store) && LinkInsertable(store, account, user, link)
    requires link.hsName == prefix + user && link.hsId in store.remote && store.remote[link.hsId] == link.hsName
    ensures StoreOk(prefix, InsertLink(store, account, user, link))
    ensures StoreGrows(store, InsertLink(store, account, user, link))
  {}

  /** No step breaks a table, and none rewrites a row. */
  lemma StoreStep(prefix: string, s: State, l: Label)
    requires Inv(prefix, s) && Enabled(s, l)
    ensures StoreOk(prefix, Apply(prefix, s, l).store)
    ensures StoreGrows(s.store, Apply(prefix, s, l).store)
  {
    match l
    case Create(k, id, reply) =>
      var name := prefix + s.calls[k].user;
      if reply != Refused && !Named(s.store.remote, name) { AddRemoteOk(prefix, s.store, id, name); }
    case OtherUser(id, name) => AddRemoteOk(prefix, s.store, id, name);
    case Insert(k, reply) =>
      var call := s.calls[k];
      var link := Link(call.pc.hsId, call.pc.hsName);
      if reply != Refused && LinkInsertable(s.store, call.account, call.user, link) {
        assert CallOk(prefix, s.store, call);
        InsertLinkOk(prefix, s.store, call.account, call.user, link);
      }
    case _ =>
  }

  lemma CallStays(prefix: string, store: Store, store': Store, call: Call)
    requires CallOk(prefix, store, call) && StoreGrows(store, store')
    ensures CallOk(prefix, store', call)
  {}

  /** Where a step leaves the call that takes it. */
  lemma OwnCall(prefix: string, s: State, l: Label, k: CallId)
    requires Inv(prefix, s) && Enabled(s, l) && k in Apply(prefix, s, l).calls
    ensures k !in s.calls || Apply(prefix, s, l).calls[k] != s.calls[k] ==>
              CallOk(prefix, Apply(prefix, s, l).store, Apply(prefix, s, l).calls[k])
  {
    if k in s.calls { assert CallOk(prefix, s.store, s.calls[k]); }
  }

  lemma NewKey(prefix: string, s: State, l: Label, key: Key)
    requires Inv(prefix, s) && Enabled(s, l) && key in Apply(prefix, s, l).keys && key !in s.keys
    ensures KeyOk(Apply(prefix, s, l).store, key)
  {
    assert CallOk(prefix, s.store, s.calls[l.k]);
  }

  /** Every step keeps the invariant. */
  lemma InvStep(prefix: string, s: State, l: Label)
    requires Inv(prefix, s) && Enabled(s, l)
    ensures Inv(prefix, Apply(prefix, s, l))
  {
    StoreStep(prefix, s, l);
    hide Enabled, Apply, StoreOk, CallOk;
    var s' := Apply(prefix, s, l);
    forall k | k in s'.calls ensures CallOk(prefix, s'.store, s'.calls[k]) {
      OwnCall(prefix, s, l, k);
      if k in s.calls && s'.calls[k] == s.calls[k] { CallStays(prefix, s.store, s'.store, s.calls[k]); }
    }
    forall key | key in s'.keys ensures KeyOk(s'.store, key) {
      if key !in s.keys { NewKey(prefix, s, l, key); }
    }
  }
}
