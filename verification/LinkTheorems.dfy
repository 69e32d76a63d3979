/** What the linking protocol promises under every interleaving and interruption. */
module LinkTheorems {
  import opened Wrappers
  import opened LinkSteps

  lemma {:induction false} InvSteps(prefix: string, states: seq<State>, labels: seq<Label>, n: nat)
    requires Steps(prefix, states, labels) && Inv(prefix, states[0]) && n < |states|
    ensures Inv(prefix, states[n])
  {
    if n > 0 {
      InvSteps(prefix, states, labels, n - 1);
      InvStep(prefix, states[n - 1], labels[n - 1]);
    }
  }

  lemma RunInv(prefix: string, states: seq<State>, labels: seq<Label>, n: nat)
    requires Run(prefix, states, labels) && n < |states|
    ensures Inv(prefix, states[n])
  {
    InvSteps(prefix, states, labels, n);
  }

  lemma {:induction false} LinkStays(prefix: string, states: seq<State>, labels: seq<Label>, m: nat, n: nat,
                                     k: (Id, Id))
    requires Run(prefix, states, labels) && m <= n < |states| && k in states[m].store.links
    ensures k in states[n].store.links && states[n].store.links[k] == states[m].store.links[k]
  {
    hide Enabled, Apply, Inv;
    if m < n {
      LinkStays(prefix, states, labels, m, n - 1, k);
      RunInv(prefix, states, labels, n - 1);
      StoreStep(prefix, states[n - 1], labels[n - 1]);
    }
  }

  /** A link once written never changes: from step m on, it reads the same at every step,
      and it names the prefix followed by the user's id, as does its Headscale user. */
  lemma LinkForever(prefix: string, states: seq<State>, labels: seq<Label>, m: nat, n: nat, account: Id, user: Id)
    requires Run(prefix, states, labels) && m <= n < |states| && (account, user) in states[m].store.links
    ensures (account, user) in states[n].store.links
    ensures states[n].store.links[(account, user)] == states[m].store.links[(account, user)]
    ensures var link := states[n].store.links[(account, user)];
            && link.hsName == prefix + user && link.hsId in states[n].store.remote
            && states[n].store.remote[link.hsId] == prefix + user
  {
    LinkStays(prefix, states, labels, m, n, (account, user));
    RunInv(prefix, states, labels, n);
  }

  lemma PrefixCancels(prefix: string, u: string, v: string)
    requires prefix + u == prefix + v
    ensures u == v
  {
    assert u == (prefix + u)[|prefix|..] == (prefix + v)[|prefix|..] == v;
  }

  /** Each of our users has at most one Headscale user, and at most one link whatever the
      account; different users never share a Headscale id. */
  lemma OneHeadscaleUser(prefix: string, states: seq<State>, labels: seq<Label>, n: nat)
    requires Run(prefix, states, labels) && n < |states|
    ensures forall u, i, j ::
              (i in states[n].store.remote && j in states[n].store.remote
               && states[n].store.remote[i] == states[n].store.remote[j] == prefix + u) ==> i == j
    ensures forall k, k' :: k in states[n].store.links && k' in states[n].store.links ==>
              && (k.1 == k'.1 <==> k == k')
              && (states[n].store.links[k].hsId == states[n].store.links[k'].hsId <==> k == k')
  {
    RunInv(prefix, states, labels, n);
  }

  /** Every key minted for a user, by whichever call, is bound to the same Headscale id,
      the one of the user's link; and no two users' keys share an id. */
  lemma KeysAgree(prefix: string, states: seq<State>, labels: seq<Label>, n: nat, key: Key, key': Key)
    requires Run(prefix, states, labels) && n < |states| && key in states[n].keys && key' in states[n].keys
    ensures key.user == key'.user <==> key.hsId == key'.hsId
    ensures (key.account, key.user) in states[n].store.links
    ensures states[n].store.links[(key.account, key.user)] == Link(key.hsId, prefix + key.user)
  {
    RunInv(prefix, states, labels, n);
    OneHeadscaleUser(prefix, states, labels, n);
    assert KeyOk(states[n].store, key) && KeyOk(states[n].store, key');
  }

  // ---------------------------------------------------------------- one call on its own

  /** How the store accesses of one call end. */
  datatype Faults = Faults(lookUpFails: bool, findFails: bool, create: Reply, insert: Reply)

  const NO_FAULTS := Faults(false, false, Answered, Answered)

  /** ensureLink run without another call in between: the store it leaves and the link it
      returns, if it returns one. */
  ghost function EnsureLink(prefix: string, store: Store, account: Id, user: Id, newId: nat, f: Faults)
    : (Store, Option<Link>)
  {
    if f.lookUpFails then (store, None)
    else if GetLink(store, account, user).Some? then (store, GetLink(store, account, user))
    else if f.findFails then (store, None)
    else
      var name := prefix + user;
      var found := FindUserByName(store.remote, name);
      if found.Some? then WriteLink(store, account, user, Link(found.value, name), f.insert)
      else if f.create == Refused then (store, None)
      else
        var store' := store.(remote := store.remote[newId := name]);
        if f.create == Lost then (store', None)
        else WriteLink(store', account, user, Link(newId, name), f.insert)
  }

  ghost function WriteLink(store: Store, account: Id, user: Id, link: Link, reply: Reply): (Store, Option<Link>) {
    if reply == Refused || !LinkInsertable(store, account, user, link) then (store, None)
    else (InsertLink(store, account, user, link), if reply == Lost then None else Some(link))
  }

  /** The pair can be linked: it has its rows, and the user has no link under another
      account. */
  ghost predicate Linkable(store: Store, account: Id, user: Id) {
    && account != "" && user != "" && account in store.accounts && user in store.users
    && forall a :: (a, user) in store.links ==> a == account
  }

  lemma FindsTheOne(remote: map<nat, string>, id: nat, name: string)
    requires RemoteOk(remote) && id in remote && remote[id] == name
    ensures FindUserByName(remote, name) == Some(id)
  {}

  /** With the id of the user's Headscale user, found or new, the row gets in exactly if the
      pair can be linked. */
  lemma InsertableIffLinkable(prefix: string, store: Store, account: Id, user: Id, id: nat)
    requires StoreOk(prefix, store) && (account, user) !in store.links && id != 0
    requires if id in store.remote then store.remote[id] == prefix + user else !Named(store.remote, prefix + user)
    ensures LinkInsertable(store, account, user, Link(id, prefix + user)) <==> Linkable(store, account, user)
  {
    forall k | k in store.links ensures store.links[k].hsId == id <==> k.1 == user {
      var other := store.links[k].hsId;
      if other == id { PrefixCancels(prefix, k.1, user); }
      if k.1 == user {
        assert Named(store.remote, prefix + user);
        assert RemoteOk(store.remote);
      }
    }
    hide StoreOk, RemoteOk;
    if !Linkable(store, account, user)
       && account != "" && user != "" && account in store.accounts && user in store.users
    {
      var a :| (a, user) in store.links && a != account;
      assert store.links[(a, user)].hsId == id;
    }
    assert user != "" ==> prefix + user != "";
  }

  /** Whatever store the crashes and failures of earlier calls left, one undisturbed call
      succeeds exactly if the pair is linked already or can be; it then leaves the link in
      place, reuses a Headscale user of that name if there is one, creates one otherwise,
      and trips neither the primary key nor the unique index. */
  lemma Recovery(prefix: string, store: Store, account: Id, user: Id, newId: nat)
    requires StoreOk(prefix, store) && newId != 0 && newId !in store.remote
    ensures var (store', link) := EnsureLink(prefix, store, account, user, newId, NO_FAULTS);
            && (link.Some? <==> (account, user) in store.links || Linkable(store, account, user))
            && StoreOk(prefix, store') && StoreGrows(store, store')
            && (link.Some? ==> (account, user) in store'.links && store'.links[(account, user)] == link.value)
            && store'.remote ==
                 (if (account, user) in store.links || Named(store.remote, prefix + user) then store.remote
                  else store.remote[newId := prefix + user])
  {
    var name := prefix + user;
    if (account, user) in store.links {
      return;
    }
    var found := FindUserByName(store.remote, name);
    var id := if found.Some? then found.value else newId;
    assert id != 0 by { assert RemoteOk(store.remote); }
    InsertableIffLinkable(prefix, store, account, user, id);
    var store1 := if found.Some? then store else store.(remote := store.remote[newId := name]);
    if found.None? { AddRemoteOk(prefix, store, newId, name); }
    assert LinkInsertable(store1, account, user, Link(id, name)) <==> Linkable(store, account, user);
    if LinkInsertable(store1, account, user, Link(id, name)) {
      InsertLinkOk(prefix, store1, account, user, Link(id, name));
      GrowsThrough(store, store1, InsertLink(store1, account, user, Link(id, name)));
    }
    hide StoreOk, StoreGrows, LinkInsertable, Linkable, RemoteOk;
    assert EnsureLink(prefix, store, account, user, newId, NO_FAULTS)
        == WriteLink(store1, account, user, Link(id, name), Answered);
  }

  lemma GrowsThrough(a: Store, b: Store, c: Store)
    requires StoreGrows(a, b) && StoreGrows(b, c)
    ensures StoreGrows(a, c)
  {}

  /** The same with any of its accesses failing, in any way: when the call gets its link, and
      exactly what it leaves behind in either store. */
  lemma FaultsExactly(prefix: string, store: Store, account: Id, user: Id, newId: nat, f: Faults)
    requires StoreOk(prefix, store) && newId != 0 && newId !in store.remote
    ensures var (store', link) := EnsureLink(prefix, store, account, user, newId, f);
            var name, k := prefix + user, (account, user);
            var linked, named := k in store.links, Named(store.remote, name);
            var stops := f.lookUpFails || linked || f.findFails;
            var writes := !stops && (named || f.create == Answered) && f.insert != Refused
                          && Linkable(store, account, user);
            && (link.Some? <==> (linked && !f.lookUpFails) || (writes && f.insert == Answered))
            && (link.Some? ==> k in store'.links && link.value == store'.links[k])
            && store'.accounts == store.accounts && store'.users == store.users
            && store'.remote == (if stops || named || f.create == Refused then store.remote
                                 else store.remote[newId := name])
            && (!writes ==> store'.links == store.links)
            && (writes ==>
                  && k in store'.links && store'.links == store.links[k := store'.links[k]]
                  && store'.links[k].hsName == name && store'.links[k].hsId in store'.remote
                  && store'.remote[store'.links[k].hsId] == name)
  {
    var name := prefix + user;
    if f.lookUpFails || (account, user) in store.links || f.findFails {
      return;
    }
    var found := FindUserByName(store.remote, name);
    var id := if found.Some? then found.value else newId;
    assert id != 0 by { assert RemoteOk(store.remote); }
    InsertableIffLinkable(prefix, store, account, user, id);
    var store1 := if found.Some? then store else store.(remote := store.remote[newId := name]);
    assert LinkInsertable(store1, account, user, Link(id, name)) <==> Linkable(store, account, user);
    hide StoreOk, LinkInsertable, Linkable, RemoteOk;
  }

  /** The same call in the step system: begun in any reachable state and left alone, its
      steps end in exactly that store, with a minted key if and only if it got a link. */
  lemma UndisturbedCall(prefix: string, s: State, k: CallId, account: Id, user: Id, newId: nat)
    returns (states: seq<State>, labels: seq<Label>)
    requires Inv(prefix, s) && k !in s.calls && newId != 0 && newId !in s.store.remote
    ensures Steps(prefix, states, labels) && states[0] == s
    ensures var (store', link) := EnsureLink(prefix, s.store, account, user, newId, NO_FAULTS);
            var end := states[|labels|];
            && end.store == store'
            && k in end.calls
            && end.calls[k] == Call(account, user, if link.Some? then Minted(link.value.hsId) else Failed)
            && end.keys == s.keys + (if link.Some? then {Key(account, user, link.value.hsId)} else {})
  {
    states, labels := [s], [];
    states, labels := Extend(prefix, states, labels, Begin(k, account, user));
    states, labels := Extend(prefix, states, labels, LookUp(k));
    if (account, user) in s.store.links {
      states, labels := MintAlone(prefix, states, labels, k);
    } else {
      states, labels := Extend(prefix, states, labels, Find(k));
      if FindUserByName(s.store.remote, prefix + user).None? {
        states, labels := Extend(prefix, states, labels, Create(k, newId, Answered));
      }
      hide Enabled, Apply, Inv;
      states, labels := InsertAlone(prefix, states, labels, k);
    }
  }

  /** A call about to insert its link, left alone. */
  lemma InsertAlone(prefix: string, states: seq<State>, labels: seq<Label>, k: CallId)
    returns (states': seq<State>, labels': seq<Label>)
    requires Steps(prefix, states, labels) && k in states[|labels|].calls && states[|labels|].calls[k].pc.Linking?
    ensures Steps(prefix, states', labels') && states'[0] == states[0]
    ensures var before, call := states[|labels|], states[|labels|].calls[k];
            var row := Link(call.pc.hsId, call.pc.hsName);
            var (store', link) := WriteLink(before.store, call.account, call.user, row, Answered);
            EndsMinted(before, states'[|labels'|], k, store', link)
  {
    hide LinkInsertable;
    states', labels' := Extend(prefix, states, labels, Insert(k, Answered));
    if states'[|labels'|].calls[k].pc.Minting? {
      states', labels' := MintAlone(prefix, states', labels', k);
    }
  }

  ghost predicate EndsMinted(before: State, end: State, k: CallId, store: Store, link: Option<Link>)
    requires k in before.calls
  {
    && end.store == store && k in end.calls
    && end.calls[k] == before.calls[k].(pc := if link.Some? then Minted(link.value.hsId) else Failed)
    && end.keys == before.keys +
         (if link.Some? then {Key(before.calls[k].account, before.calls[k].user, link.value.hsId)} else {})
  }

  lemma MintAlone(prefix: string, states: seq<State>, labels: seq<Label>, k: CallId)
    returns (states': seq<State>, labels': seq<Label>)
    requires Steps(prefix, states, labels) && k in states[|labels|].calls && states[|labels|].calls[k].pc.Minting?
    ensures Steps(prefix, states', labels') && states'[0] == states[0]
    ensures var before, end, call := states[|labels|], states'[|labels'|], states[|labels|].calls[k];
            && end.store == before.store && k in end.calls && end.calls[k] == call.(pc := Minted(call.pc.hsId))
            && end.keys == before.keys + {Key(call.account, call.user, call.pc.hsId)}
  {
    states', labels' := Extend(prefix, states, labels, Mint(k, Answered));
  }

  lemma Extend(prefix: string, states: seq<State>, labels: seq<Label>, l: Label)
    returns (states': seq<State>, labels': seq<Label>)
    requires Steps(prefix, states, labels) && Enabled(states[|labels|], l)
    ensures Steps(prefix, states', labels') && labels' == labels + [l]
    ensures states'[0] == states[0] && states'[|labels'|] == Apply(prefix, states[|labels|], l)
  {
    labels' := labels + [l];
    states' := states + [Apply(prefix, states[|labels|], l)];
    forall i | 0 <= i < |labels'|
      ensures Enabled(states'[i], labels'[i]) && states'[i + 1] == Apply(prefix, states'[i], labels'[i])
    {
      if i < |labels| { assert states'[i] == states[i] && states'[i + 1] == states[i + 1]; }
    }
  }

  // ---------------------------------------------------------------- one account per user

  /** Every call ever begun for a user is under that user's one account. */
  ghost predicate FollowsHome(labels: seq<Label>, home: map<Id, Id>) {
    forall i :: 0 <= i < |labels| && labels[i].Begin? ==>
      labels[i].user in home && home[labels[i].user] == labels[i].account
  }

  ghost predicate AtHome(s: State, home: map<Id, Id>) {
    && (forall k :: k in s.calls ==> s.calls[k].user in home && home[s.calls[k].user] == s.calls[k].account)
    && (forall k :: k in s.store.links ==> k.1 in home && home[k.1] == k.0)
  }

  lemma HomeStep(prefix: string, s: State, l: Label, home: map<Id, Id>)
    requires Enabled(s, l) && AtHome(s, home)
    requires l.Begin? ==> l.user in home && home[l.user] == l.account
    ensures AtHome(Apply(prefix, s, l), home)
  {}

  lemma {:induction false} HomeRun(prefix: string, states: seq<State>, labels: seq<Label>, n: nat, home: map<Id, Id>)
    requires Run(prefix, states, labels) && n < |states| && FollowsHome(labels, home)
    ensures AtHome(states[n], home)
  {
    if n > 0 {
      HomeRun(prefix, states, labels, n - 1, home);
      HomeStep(prefix, states[n - 1], labels[n - 1], home);
    }
  }

  /** With one account per user, every state any run reaches, through crashes and
      concurrent calls alike, is one from which an undisturbed call for a user whose rows
      exist succeeds. */
  lemma RecoveryAtHome(prefix: string, states: seq<State>, labels: seq<Label>, n: nat, home: map<Id, Id>,
                       user: Id, newId: nat)
    requires Run(prefix, states, labels) && n < |states| && FollowsHome(labels, home)
    requires user in home && user != "" && home[user] != ""
    requires user in states[n].store.users && home[user] in states[n].store.accounts
    requires newId != 0 && newId !in states[n].store.remote
    ensures EnsureLink(prefix, states[n].store, home[user], user, newId, NO_FAULTS).1.Some?
  {
    RunInv(prefix, states, labels, n);
    HomeRun(prefix, states, labels, n, home);
    Recovery(prefix, states[n].store, home[user], user, newId);
  }

  /** Without it the protocol gets stuck: once a user is linked under one account, no call
      under another account ever succeeds again, in any continuation of any run. */
  lemma SecondAccountRefused(prefix: string, states: seq<State>, labels: seq<Label>, m: nat, n: nat,
                             account: Id, other: Id, user: Id, k: CallId)
    requires Run(prefix, states, labels) && m <= n < |states|
    requires (account, user) in states[m].store.links && other != account
    requires k in states[n].calls && states[n].calls[k].account == other && states[n].calls[k].user == user
    ensures !states[n].calls[k].pc.Minting? && !states[n].calls[k].pc.Minted?
  {
    LinkForever(prefix, states, labels, m, n, account, user);
    OneHeadscaleUser(prefix, states, labels, n);
    RunInv(prefix, states, labels, n);
    assert CallOk(prefix, states[n].store, states[n].calls[k]);
  }
}
