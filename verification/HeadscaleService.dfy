/** The service object of internal/headscale/service.go over its two stores, with the
    bridge table of internal/headscale/bridge.go and the client of
    internal/headscale/client.go. */
module HeadscaleService {
  import opened Wrappers
  import L = LinkSteps
  import T = LinkTheorems

  type Id = L.Id

  datatype RemoteUser = RemoteUser(id: nat, name: string)

  datatype PreAuthKey = PreAuthKey(boundTo: nat, controlURL: string, derpMapJSON: string)

  /** The list Headscale answers with and its users by id are the same. */
  ghost predicate Listed(remote: seq<RemoteUser>, table: map<nat, string>) {
    && (forall u :: u in remote ==> u.id in table && table[u.id] == u.name)
    && (forall id :: id in table ==> RemoteUser(id, table[id]) in remote)
  }

  ghost predicate KeysOk(store: L.Store, keys: set<L.Key>) { forall key :: key in keys ==> L.KeyOk(store, key) }

  lemma KeysStay(store: L.Store, store': L.Store, keys: set<L.Key>)
    requires KeysOk(store, keys) && L.StoreGrows(store, store')
    ensures KeysOk(store', keys)
  {}

  class Service {
    const userPrefix: string
    const serverURL: string
    const derpMapJSON: string
    var accounts: set<Id>
    var users: set<Id>
    var links: map<(Id, Id), L.Link>
    var remote: seq<RemoteUser>
    ghost var table: map<nat, string>  // the same users, by id
    ghost var keys: set<L.Key>

    ghost function Store(): L.Store
      reads this
    {
      L.Store(accounts, users, links, table)
    }

    ghost predicate Valid()
      reads this
    {
      Listed(remote, table) && L.StoreOk(userPrefix, Store()) && KeysOk(Store(), keys)
    }

    constructor (userPrefix: string, serverURL: string, derpMapJSON: string, accounts: set<Id>, users: set<Id>)
      ensures Valid() && Store() == L.Store(accounts, users, map[], map[]) && keys == {}
    {
      this.userPrefix, this.serverURL, this.derpMapJSON := userPrefix, serverURL, derpMapJSON;
      this.accounts, this.users := accounts, users;
      links, remote, table, keys := map[], [], map[], {};
    }

    /** The scan over the listed users: the one of that name, if there is one. */
    method FindUserByName(name: string) returns (found: Option<RemoteUser>)
      requires Valid()
      ensures found.Some? ==> found.value in remote && found.value.name == name
      ensures found.None? ==> !L.Named(table, name)
      ensures L.FindUserByName(table, name) == if found.Some? then Some(found.value.id) else None
    {
      var i := 0;
      while i < |remote|
        invariant 0 <= i <= |remote|
        invariant forall k :: 0 <= k < i ==> remote[k].name != name
      {
        if remote[i].name == name {
          assert remote[i] in remote;
          T.FindsTheOne(table, remote[i].id, name);
          return Some(remote[i]);
        }
        i := i + 1;
      }
      found := None;
      forall id | id in table ensures table[id] != name {
        assert RemoteUser(id, table[id]) in remote;
      }
    }

    /** Headscale's CreateUser: refuses a duplicate name, otherwise adds the user under the
        id it chose. */
    method CreateUser(name: string, newId: nat, reply: L.Reply) returns (created: Option<RemoteUser>)
      requires Valid() && newId != 0 && newId !in table
      modifies this`remote, this`table
      ensures reply == L.Refused || L.Named(old(table), name) ==> created == None && table == old(table)
      ensures reply != L.Refused && !L.Named(old(table), name) ==>
                && table == old(table)[newId := name]
                && created == if reply == L.Lost then None else Some(RemoteUser(newId, name))
      ensures Valid()
    {
      var taken := FindUserByName(name);
      if reply == L.Refused || taken.Some? {
        return None;
      }
      remote := remote + [RemoteUser(newId, name)];
      table := table[newId := name];
      assert remote[|remote| - 1] == RemoteUser(newId, name);
      created := if reply == L.Lost then None else Some(RemoteUser(newId, name));
    }

    /** The pair's row if it has one. It names the user's Headscale user, which exists. */
    method GetLink(account: Id, user: Id) returns (link: Option<L.Link>)
      requires Valid()
      ensures link.Some? <==> (account, user) in links
      ensures link.Some? ==>
                && link.value == links[(account, user)] && link.value.hsName == userPrefix + user
                && RemoteUser(link.value.hsId, userPrefix + user) in remote
    {
      link := if (account, user) in links then Some(links[(account, user)]) else None;
    }

    /** The link is of the user's own Headscale user. */
    ghost predicate Own(user: Id, link: L.Link)
      reads this
    {
      link.hsName == userPrefix + user && link.hsId in table && table[link.hsId] == link.hsName
    }

    /** The insert into the link table; `ok` only if the row is in and the caller knows. The
        table takes any link its checks and indexes let through; the stores stay consistent
        exactly if it is the user's own. */
    method CreateLink(account: Id, user: Id, link: L.Link, reply: L.Reply) returns (ok: bool)
      requires Valid()
      modifies this`links
      ensures Valid() <==> Own(user, link) || links == old(links)
      ensures (Store(), if ok then Some(link) else None) == T.WriteLink(old(Store()), account, user, link, reply)
    {
      if account == "" || user == "" || link.hsId == 0 || link.hsName == "" {
        return false;
      }
      if reply == L.Refused || (account, user) in links || account !in accounts || user !in users {
        return false;
      }
      if exists k :: k in links && links[k].hsId == link.hsId {
        return false;
      }
      ghost var before := Store();
      assert L.LinkInsertable(before, account, user, link);
      if Own(user, link) {
        L.InsertLinkOk(userPrefix, before, account, user, link);
        KeysStay(before, L.InsertLink(before, account, user, link), keys);
      }
      hide L.StoreOk, L.StoreGrows, L.LinkInsertable, L.KeyOk, KeysOk, Listed;
      links := links[(account, user) := link];
      ok := reply != L.Lost;
    }

    /** ensureLink leaves the two stores and returns the link that its specification says,
        whichever of its accesses fail. */
    method EnsureLink(account: Id, user: Id, newId: nat, f: T.Faults) returns (link: Option<L.Link>)
      requires Valid() && newId != 0 && newId !in table
      modifies this`links, this`remote, this`table
      ensures Valid()
      ensures (Store(), link) == T.EnsureLink(userPrefix, old(Store()), account, user, newId, f)
      ensures link.Some? ==> (account, user) in links && links[(account, user)] == link.value
    {
      if f.lookUpFails {
        return None;
      }
      var existing := GetLink(account, user);
      if existing.Some? {
        return existing;
      }
      if f.findFails {
        return None;
      }
      var name := userPrefix + user;
      var hsUser := FindUserByName(name);
      if hsUser.None? {
        hsUser := CreateUser(name, newId, f.create);
        if hsUser.None? {
          return None;
        }
      } else {
        assert hsUser.value in remote;
      }
      var row := L.Link(hsUser.value.id, hsUser.value.name);
      var ok := CreateLink(account, user, row, f.insert);
      link := if ok then Some(row) else None;
    }

    /** A key is minted only after a link is in hand, and is bound to that link's id; a
        call whose last access is refused leaves no key. */
    method MintPreAuthKey(account: Id, user: Id, newId: nat, f: T.Faults, reply: L.Reply)
      returns (key: Option<PreAuthKey>)
      requires Valid() && newId != 0 && newId !in table
      modifies this`links, this`remote, this`table, this`keys
      ensures Valid()
      ensures var (store', link) := T.EnsureLink(userPrefix, old(Store()), account, user, newId, f);
              && Store() == store'
              && keys == old(keys) +
                   (if link.Some? && reply != L.Refused then {L.Key(account, user, link.value.hsId)} else {})
              && (key.Some? <==> link.Some? && reply == L.Answered)
              && (key.Some? ==>
                    key.value == PreAuthKey(link.value.hsId, serverURL,
                                            if derpMapJSON == "" then "{\"Regions\":{}}" else derpMapJSON))
    {
      hide T.EnsureLink, L.StoreOk, Listed;
      var link := EnsureLink(account, user, newId, f);
      if link.None? || reply == L.Refused {
        return None;
      }
      keys := keys + {L.Key(account, user, link.value.hsId)};
      if reply == L.Lost {
        return None;
      }
      var derpMap := derpMapJSON;
      if derpMap == "" {
        derpMap := "{\"Regions\":{}}";
      }
      key := Some(PreAuthKey(link.value.hsId, serverURL, derpMap));
    }
  }
}
