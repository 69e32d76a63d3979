/** The hub object itself: the locked sections and loops of internal/realtime/inmem.go, each
    run without another goroutine in between. Its index is updated by the functions of
    HubSteps, which takes the same methods apart into interleaved steps. */
module Hub {
  import opened HubSteps

  class Connection {
    const account: Account
    var queue: seq<Frame>  // what the send channel holds
    var done: bool         // its done channel is closed
    var open: bool         // its socket is open
    var reconnects: nat    // reconnect events tried past the queue

    constructor (account: Account)
      ensures this.account == account && queue == [] && !done && open && reconnects == 0
    {
      this.account, queue, done, open, reconnects := account, [], false, true, 0;
    }
  }

  /** What a shutdown does, in order. */
  datatype Act = ClosedDone | ClosedSocket(c: Connection)

  ghost function ClosedSockets(all: seq<Connection>): seq<Act> {
    seq(|all|, i requires 0 <= i < |all| => ClosedSocket(all[i]))
  }

  class InMemoryHub {
    const sendBuffer: nat
    var latched: bool
    var done: bool
    var conns: map<Account, set<Connection>>
    ghost var trace: seq<Act>

    /** Groups hold the connections of their own account and are never empty. */
    ghost predicate Valid()
      reads this
    {
      && (forall a, c :: a in conns && c in conns[a] ==> c.account == a)
      && (forall a :: a in conns ==> conns[a] != {})
      && done == latched
    }

    ghost function All(): set<Connection>
      reads this
    {
      set a, c | a in conns && c in conns[a] :: c
    }

    constructor (sendBuffer: nat)
      ensures Valid() && conns == map[] && !done && trace == []
      ensures this.sendBuffer == if sendBuffer == 0 then 32 else sendBuffer
    {
      this.sendBuffer := if sendBuffer == 0 then 32 else sendBuffer;
      latched, done, conns, trace := false, false, map[], [];
    }

    /** The locked section of Register. */
    method Insert(c: Connection)
      requires Valid()
      modifies this`conns
      ensures Valid() && conns == IndexInsert(old(conns), c.account, c)
    {
      var group := {};
      if c.account in conns {
        group := conns[c.account];
      }
      conns := conns[c.account := group + {c}];
    }

    /** Run once for each connection: closing its done channel again would panic. */
    method Deregister(c: Connection)
      requires Valid() && !c.done
      modifies this`conns, c`done
      ensures Valid() && c.done && conns == IndexRemove(old(conns), c.account, c)
      ensures c !in All()
    {
      if c.account in conns {
        conns := conns[c.account := conns[c.account] - {c}];
        if conns[c.account] == {} {
          conns := conns - {c.account};
        }
      }
      c.done := true;
    }

    /** The snapshot of one account's connections, in some order. */
    method Targets(account: Account) returns (targets: seq<Connection>)
      requires Valid()
      ensures forall c :: c in targets <==> c in Members(conns, account)
      ensures forall i, j :: 0 <= i < j < |targets| ==> targets[i] != targets[j]
    {
      targets := [];
      if account in conns {
        var rest := conns[account];
        while rest != {}
          invariant rest <= conns[account]
          invariant forall c :: c in targets <==> c in conns[account] - rest
          invariant forall i, j :: 0 <= i < j < |targets| ==> targets[i] != targets[j]
          decreases rest
        {
          var c :| c in rest;
          assert forall i :: 0 <= i < |targets| ==> targets[i] in targets && targets[i] != c;
          targets, rest := targets + [c], rest - {c};
        }
      }
    }

    /** Every connection of the account with room gets the frame at the end of its queue,
        exactly once; full ones and those of other accounts are left alone. */
    method Publish(account: Account, frame: Frame)
      requires Valid()
      modifies Members(conns, account)`queue
      ensures Valid()
      ensures forall c :: c in Members(conns, account) ==>
                c.queue == if |old(c.queue)| < sendBuffer then old(c.queue) + [frame] else old(c.queue)
    {
      var targets := Targets(account);
      var i := 0;
      while i < |targets|
        invariant 0 <= i <= |targets|
        invariant forall c :: c in Members(conns, account) ==>
                    c.queue == if c in targets[..i] && |old(c.queue)| < sendBuffer then old(c.queue) + [frame]
                               else old(c.queue)
      {
        var c := targets[i];
        assert targets[..i + 1] == targets[..i] + [c] && c !in targets[..i];
        if |c.queue| < sendBuffer {
          c.queue := c.queue + [frame];
        }
        i := i + 1;
      }
      assert targets[..i] == targets;
    }

    /** The snapshot of every connection. */
    method Everybody() returns (all: seq<Connection>)
      requires Valid()
      ensures forall c :: c in all <==> c in All()
      ensures forall i, j :: 0 <= i < j < |all| ==> all[i] != all[j]
    {
      all := [];
      var accounts := conns.Keys;
      while accounts != {}
        invariant accounts <= conns.Keys
        invariant forall c :: c in all <==> c in All() && c.account !in accounts
        invariant forall i, j :: 0 <= i < j < |all| ==> all[i] != all[j]
        decreases accounts
      {
        var a :| a in accounts;
        var group := Targets(a);
        assert forall c :: c in group ==> c in All() && c.account == a;
        assert forall c :: c in All() && c.account == a ==> c in group;
        assert forall i, j :: 0 <= i < |all| && 0 <= j < |group| ==> all[i] in all && group[j] in group;
        all, accounts := all + group, accounts - {a};
      }
    }

    /** Closes the done channel if no earlier call did, and only then the socket of every
        registered connection, each once. */
    method Close() returns (ghost all: seq<Connection>)
      requires Valid()
      modifies this`latched, this`done, this`trace, All()`open
      ensures Valid() && done
      ensures forall c :: c in all <==> c in All()
      ensures forall i, j :: 0 <= i < j < |all| ==> all[i] != all[j]
      ensures trace == old(trace) + (if old(done) then [] else [ClosedDone]) + ClosedSockets(all)
      ensures forall c :: c in All() ==> !c.open
    {
      ghost var registered := All();
      if !latched {
        done := true;
        latched := true;
        trace := trace + [ClosedDone];
      }
      ghost var before := trace;
      var targets := Everybody();
      all := targets;
      assert All() == registered;
      var i := 0;
      while i < |targets|
        invariant 0 <= i <= |targets| && done && latched
        invariant trace == before + ClosedSockets(targets[..i])
        invariant forall k :: 0 <= k < i ==> !targets[k].open
      {
        assert targets[i] in registered;
        targets[i].open := false;
        trace := trace + [ClosedSocket(targets[i])];
        assert ClosedSockets(targets[..i + 1]) == ClosedSockets(targets[..i]) + [ClosedSocket(targets[i])];
        i := i + 1;
      }
      assert targets[..i] == targets;
    }

    /** Tries one reconnect event past the queue of every registered connection, then
        closes its socket; queues are left alone. */
    method BroadcastReconnect()
      requires Valid()
      modifies All()`open, All()`reconnects
      ensures Valid()
      ensures forall c :: c in All() ==> !c.open && c.reconnects == old(c.reconnects) + 1
    {
      var all := Everybody();
      var i := 0;
      while i < |all|
        invariant 0 <= i <= |all|
        invariant forall c :: c in All() ==>
                    if c in all[..i] then !c.open && c.reconnects == old(c.reconnects) + 1
                    else c.reconnects == old(c.reconnects)
      {
        assert all[..i + 1] == all[..i] + [all[i]] && all[i] !in all[..i] && all[i] in All();
        all[i].reconnects := all[i].reconnects + 1;
        all[i].open := false;
        i := i + 1;
      }
      assert all[..i] == all;
    }

    method AccountConnCount(account: Account) returns (n: nat)
      requires Valid()
      ensures n == |Members(conns, account)|
    {
      n := if account in conns then |conns[account]| else 0;
    }
  }
}
