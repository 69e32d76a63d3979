/** What the hub promises, over whole runs. */
module HubTheorems {
  import opened HubSteps
  import opened HubInvariants

  lemma RunInv(cap: nat, states: seq<State>, labels: seq<Label>, n: nat)
    requires Run(cap, states, labels) && n < |states|
    ensures Inv(cap, states[n])
  {
    InvInit(cap);
    InvSteps(cap, states, labels, n);
  }

  // ---------------------------------------------------------------- isolation and the index

  /** In every interleaving, a frame queued for a connection, in its writer's hands or
      handled by its writer was published under the connection's own account. */
  lemma Isolation(cap: nat, states: seq<State>, labels: seq<Label>, n: nat, c: ConnId, f: Frame)
    requires Run(cap, states, labels) && n < |states| && c in states[n].conns
    requires f in states[n].conns[c].queue || f in InFlight(states[n].conns[c].writer)
          || f in Frames(states[n].conns[c].sent)
    ensures f.pub in states[n].pubs && states[n].pubs[f.pub].account == f.account == states[n].conns[c].account
  {
    RunInv(cap, states, labels, n);
    var s := states[n];
    var conn := s.conns[c];
    assert QueueOk(cap, conn) && AcceptedOk(s, c, conn);
    assert f in conn.accepted;
  }

  /** `conns` is exactly the live registrations grouped by account, with no empty group. */
  lemma IndexIsLiveRegistrations(cap: nat, states: seq<State>, labels: seq<Label>, n: nat, a: Account)
    requires Run(cap, states, labels) && n < |states|
    ensures Members(states[n].index, a)
         == set c | c in states[n].conns && states[n].conns[c].account == a && Live(states[n].conns[c].pc)
    ensures a in states[n].index <==> Members(states[n].index, a) != {}
  {
    RunInv(cap, states, labels, n);
  }

  // ---------------------------------------------------------------- queues

  /** Frames handled by the writer, at most one in its hands and the queue are together
      what the connection accepted, in order; the queue never outgrows its buffer; only
      the last frame can have failed, and then nothing more is written. */
  lemma NothingLostOrReordered(cap: nat, states: seq<State>, labels: seq<Label>, n: nat, c: ConnId)
    requires Run(cap, states, labels) && n < |states| && c in states[n].conns
    ensures var conn := states[n].conns[c];
            && conn.accepted == Frames(conn.sent) + InFlight(conn.writer) + conn.queue
            && |InFlight(conn.writer)| <= 1 && |conn.queue| <= cap
            && (forall i :: 0 <= i < |conn.sent| && conn.sent[i].outcome == Failed ==>
                  i == |conn.sent| - 1 && conn.writer == Stopped && !conn.open)
  {
    RunInv(cap, states, labels, n);
  }

  ghost function Count<T>(s: seq<T>, x: T): nat { multiset(s)[x] }

  lemma {:induction false} DistinctCount<T>(s: seq<T>, x: T)
    requires forall i, j :: 0 <= i < j < |s| ==> s[i] != s[j]
    ensures Count(s, x) == if x in s then 1 else 0
  {
    if s != [] {
      DistinctCount(s[1..], x);
      assert s == [s[0]] + s[1..];
    }
  }

  /** Each connection a Publish call has visited either accepted its frame exactly once or
      dropped it, never both; and by its return it has visited all it aimed at. */
  lemma ExactlyAcceptedOrDropped(cap: nat, states: seq<State>, labels: seq<Label>, n: nat, p: PubId, i: nat)
    requires Run(cap, states, labels) && n < |states| && p in states[n].pubs
    requires i < states[n].pubs[p].next <= |states[n].pubs[p].targets|
    ensures var s := states[n];
            var pub := s.pubs[p];
            var c := pub.targets[i];
            && c in s.conns && s.conns[c].account == pub.account
            && (c in pub.took <==> c !in pub.dropped)
            && Count(s.conns[c].accepted, Frame(p, pub.account)) == (if c in pub.dropped then 0 else 1)
    ensures states[n].pubs[p].pc == Returned ==> states[n].pubs[p].next == |states[n].pubs[p].targets|
  {
    RunInv(cap, states, labels, n);
    var s := states[n];
    var pub := s.pubs[p];
    assert PubOk(s, pub);
    var c := pub.targets[i];
    assert c == pub.targets[..pub.next][i];
    assert c in Visited(pub);
    assert AcceptedOk(s, c, s.conns[c]);
    DistinctCount(s.conns[c].accepted, Frame(p, pub.account));
    if Frame(p, pub.account) in s.conns[c].accepted {
      var k :| 0 <= k < |s.conns[c].accepted| && s.conns[c].accepted[k] == Frame(p, pub.account);
    }
  }

  lemma DropsNoneStep(cap: nat, s: State, l: Label, c: ConnId)
    requires Enabled(s, l) && (c in s.conns ==> |s.conns[c].queue| < cap)
    requires forall p :: p in s.pubs ==> c !in s.pubs[p].dropped
    ensures forall p :: p in Apply(cap, s, l).pubs ==> c !in Apply(cap, s, l).pubs[p].dropped
  {
    hide ConnEnabled, ConnApply, StopEnabled, StopApply;
    StepFrame(cap, s, l);
  }

  /** A connection whose queue is never full at the start of a step never drops a frame:
      dropping is for full buffers only. */
  lemma {:induction false} DropsOnlyWhenFull(cap: nat, states: seq<State>, labels: seq<Label>, n: nat, c: ConnId)
    requires Run(cap, states, labels) && n < |states|
    requires forall i :: 0 <= i < n && c in states[i].conns ==> |states[i].conns[c].queue| < cap
    ensures forall p :: p in states[n].pubs ==> c !in states[n].pubs[p].dropped
  {
    if n > 0 {
      DropsOnlyWhenFull(cap, states, labels, n - 1, c);
      DropsNoneStep(cap, states[n - 1], labels[n - 1], c);
    }
  }

  // ---------------------------------------------------------------- order between Publish calls

  /** A Publish that had returned when another began stays recorded as earlier. */
  lemma {:induction false} BeforeStays(cap: nat, states: seq<State>, labels: seq<Label>, n: nat, p: PubId, q: PubId)
    requires Steps(cap, states, labels) && n < |states|
    requires PubAt(states[0], p, Returned) && q !in states[0].pubs
    ensures PubAt(states[n], p, Returned)
    ensures q in states[n].pubs ==> p in states[n].pubs[q].before
  {
    if n > 0 {
      BeforeStays(cap, states, labels, n - 1, p, q);
      var s, l := states[n - 1], labels[n - 1];
      ReturnedStays(cap, s, l, p);
      if q in s.pubs { PubGrows(cap, s, l, q); } else { BeforeAtStart(cap, s, l, p, q); }
    }
  }

  lemma BeforeAtStart(cap: nat, s: State, l: Label, p: PubId, q: PubId)
    requires Enabled(s, l) && PubAt(s, p, Returned) && q !in s.pubs
    ensures q in Apply(cap, s, l).pubs ==> p in Apply(cap, s, l).pubs[q].before
  {
    StepFrame(cap, s, l);
    hide Enabled, Apply;
  }

  /** If one Publish returns before another starts, no connection ever has the second
      one's frame ahead of the first one's. */
  lemma PublishOrder(cap: nat, states: seq<State>, labels: seq<Label>, m: nat, n: nat,
                     p: PubId, q: PubId, c: ConnId, i: nat, j: nat)
    requires Run(cap, states, labels) && m <= n < |states|
    requires PubAt(states[m], p, Returned) && q !in states[m].pubs
    requires c in states[n].conns && i < |states[n].conns[c].accepted| && j < |states[n].conns[c].accepted|
    requires states[n].conns[c].accepted[i].pub == p && states[n].conns[c].accepted[j].pub == q
    ensures i < j
  {
    var s := states[n];
    assert AcceptedOk(s, c, s.conns[c]) && q in s.pubs by { RunInv(cap, states, labels, n); }
    assert p in s.pubs[q].before by {
      BeforeStays(cap, states[m..], labels[m..], n - m, p, q);
      assert states[m..][n - m] == s;
    }
    hide Run, Inv;
  }

  // ---------------------------------------------------------------- channels

  /** No channel is ever closed twice: the hub's and each connection's `done` are closed
      at most once in any run. */
  lemma NoDoubleClose(cap: nat, states: seq<State>, labels: seq<Label>, n: nat)
    requires Run(cap, states, labels) && n < |states|
    ensures states[n].doneCloses <= 1
    ensures forall c :: c in states[n].conns ==> states[n].conns[c].doneCloses <= 1
  {
    RunInv(cap, states, labels, n);
  }

  /** The loops of Publish, Close and BroadcastReconnect always find the connection they
      come to, so no such call is ever stuck on the way through its list. */
  lemma CursorFindsConnection(cap: nat, states: seq<State>, labels: seq<Label>, n: nat)
    requires Run(cap, states, labels) && n < |states|
    ensures forall p :: p in states[n].pubs && states[n].pubs[p].next < |states[n].pubs[p].targets| ==>
              states[n].pubs[p].targets[states[n].pubs[p].next] in states[n].conns
    ensures forall k :: StopAt(states[n], k, Shutting) && states[n].stops[k].next < |states[n].stops[k].targets| ==>
              HasNext(states[n], k)
  {
    RunInv(cap, states, labels, n);
    var s := states[n];
    forall p | p in s.pubs && s.pubs[p].next < |s.pubs[p].targets|
      ensures s.pubs[p].targets[s.pubs[p].next] in s.conns
    {
      assert PubOk(s, s.pubs[p]);
      assert s.pubs[p].targets[s.pubs[p].next] in s.pubs[p].targets;
    }
    forall k | StopAt(s, k, Shutting) && s.stops[k].next < |s.stops[k].targets|
      ensures HasNext(s, k)
    {
      assert StopOk(s, s.stops[k]);
    }
  }

  // ---------------------------------------------------------------- shutdown

  /** The steps a Register call may still take once the hub is done. */
  function Rank(pc: RegPc): nat {
    match pc
    case Inserting => 5
    case Reading => 4
    case Checking => 3
    case Leaving => 2
    case Closing => 1
    case Gone => 0
  }

  ghost function Total(conns: map<ConnId, Conn>): nat
    decreases |conns|
  {
    if conns == map[] then 0
    else
      var c :| c in conns;
      assert |conns - {c}| < |conns| by { assert conns.Keys == (conns - {c}).Keys + {c}; }
      Rank(conns[c].pc) + Total(conns - {c})
  }

  /** Total does not depend on the order in which it is summed. */
  lemma {:induction false} TotalRemove(conns: map<ConnId, Conn>, c: ConnId)
    requires c in conns
    ensures Total(conns) == Rank(conns[c].pc) + Total(conns - {c})
    decreases |conns|
  {
    var d :| d in conns && Total(conns) == Rank(conns[d].pc) + Total(conns - {d});
    if d != c {
      assert conns.Keys == (conns - {d}).Keys + {d};
      assert conns.Keys == (conns - {c}).Keys + {c};
      TotalRemove(conns - {d}, c);
      TotalRemove(conns - {c}, d);
      assert conns - {d} - {c} == conns - {c} - {d};
    }
  }

  lemma TotalUpdate(conns: map<ConnId, Conn>, c: ConnId, conn: Conn)
    ensures Total(conns[c := conn]) + (if c in conns then Rank(conns[c].pc) else 0) == Total(conns) + Rank(conn.pc)
  {
    TotalRemove(conns[c := conn], c);
    assert conns[c := conn] - {c} == conns - {c};
    if c in conns { TotalRemove(conns, c); } else { assert conns - {c} == conns; }
  }

  /** A step of a Register call, as opposed to one of a writer or the world. */
  ghost predicate RegisterStep(l: Label) {
    l.OnConn? && l.cop in {DoInsert, DoCheck, ReadMessage, ReadFailed, DoRemove, DoCloseDone}
  }

  ghost predicate Arrival(l: Label) { l.OnConn? && l.cop.Arrive? }

  ghost function CountSteps(labels: seq<Label>): nat {
    if labels == [] then 0
    else CountSteps(labels[..|labels| - 1]) + (if RegisterStep(labels[|labels| - 1]) then 1 else 0)
  }

  ghost function CountArrivals(labels: seq<Label>): nat {
    if labels == [] then 0
    else CountArrivals(labels[..|labels| - 1]) + (if Arrival(labels[|labels| - 1]) then 1 else 0)
  }

  lemma ConnStepRank(s: State, c: ConnId, op: ConnOp)
    requires ConnEnabled(s, c, op) && s.doneCloses > 0
    ensures c in ConnApply(s, c, op).conns
    ensures var before := if c in s.conns then Rank(s.conns[c].pc) else 0;
            var after := Rank(ConnApply(s, c, op).conns[c].pc);
            if Arrival(OnConn(c, op)) then before == 0 && after == 5
            else if RegisterStep(OnConn(c, op)) then after < before
            else after == before
  {}

  /** After the hub's done channel is closed, every step of a Register call brings the
      measure down, an arrival puts five in, and nothing else moves it. */
  lemma MeasureStep(cap: nat, s: State, l: Label)
    requires Enabled(s, l) && s.doneCloses > 0
    ensures Total(Apply(cap, s, l).conns) + (if RegisterStep(l) then 1 else 0)
         <= Total(s.conns) + (if Arrival(l) then 5 else 0)
  {
    hide ConnEnabled, ConnApply, PubEnabled, PubApply, StopEnabled, StopApply;
    var s' := Apply(cap, s, l);
    StepFrame(cap, s, l);
    match l
    case OnConn(c, op) =>
      ConnStepRank(s, c, op);
      TotalUpdate(s.conns, c, s'.conns[c]);
    case OnPub(p, op) =>
      if op == DoSend {
        var t := s.pubs[p].targets[s.pubs[p].next];
        TotalUpdate(s.conns, t, s'.conns[t]);
      }
    case OnStop(k, op) =>
      if op == DoWriteReconnect || op == DoCloseSocket {
        var t := s.stops[k].targets[s.stops[k].next];
        TotalUpdate(s.conns, t, s'.conns[t]);
      }
  }

  lemma {:induction false} DoneStays(cap: nat, states: seq<State>, labels: seq<Label>, n: nat)
    requires Steps(cap, states, labels) && n < |states| && states[0].doneCloses > 0
    requires Inv(cap, states[0])
    ensures states[n].doneCloses > 0
  {
    if n > 0 {
      DoneStays(cap, states, labels, n - 1);
      InvSteps(cap, states, labels, n - 1);
      DoneCloses(cap, states[n - 1], labels[n - 1]);
    }
  }

  /** Over any stretch after the done channel is closed, the steps all Register calls take
      together are bounded by the measure at its start plus five for each call arriving. */
  lemma {:induction false} ShutdownBound(cap: nat, states: seq<State>, labels: seq<Label>)
    requires Steps(cap, states, labels) && Inv(cap, states[0]) && states[0].doneCloses > 0
    ensures Total(states[|labels|].conns) + CountSteps(labels) <= Total(states[0].conns) + 5 * CountArrivals(labels)
    decreases |labels|
  {
    if labels != [] {
      var n := |labels| - 1;
      ShutdownBound(cap, states[..n + 1], labels[..n]);
      DoneStays(cap, states, labels, n);
      MeasureStep(cap, states[n], labels[n]);
    }
  }

  /** The step a Register call takes next once Close has returned. */
  function NextOp(pc: RegPc): ConnOp
    requires pc != Gone
  {
    match pc
    case Inserting => DoInsert
    case Checking => DoCheck
    case Reading => ReadFailed
    case Leaving => DoRemove
    case Closing => DoCloseDone
  }

  /** Nobody is stuck: once some Close call has returned, every Register call that is not
      gone can take its next step, a call in Read has its Read unblocked and failing, no
      call starts a Read, and each finishes at most one Read after shutdown began. */
  lemma NobodyStuck(cap: nat, states: seq<State>, labels: seq<Label>, n: nat, k: StopId, c: ConnId)
    requires Run(cap, states, labels) && n < |states|
    requires StopAt(states[n], k, Finished) && states[n].stops[k].kind == Close && c in states[n].conns
    ensures states[n].conns[c].lateReads <= 1
    ensures states[n].conns[c].pc != Gone ==>
              && ConnEnabled(states[n], c, NextOp(states[n].conns[c].pc))
              && !ConnEnabled(states[n], c, ReadMessage)
              && Apply(cap, states[n], OnConn(c, NextOp(states[n].conns[c].pc))).conns[c].pc != Reading
  {
    RunInv(cap, states, labels, n);
    var s := states[n];
    assert StopOk(s, s.stops[k]) && ChannelOk(s.doneCloses > 0, s.conns[c]);
  }

  /** Shutdown drains: in any run in which a Close call has returned by step m, if from
      then on no Register step is left to take at step n, every Register call is gone,
      and up to there they took at most the measure plus five per call arriving. */
  lemma ShutdownDrains(cap: nat, states: seq<State>, labels: seq<Label>, m: nat, n: nat, k: StopId)
    requires Run(cap, states, labels) && m <= n < |states|
    requires StopAt(states[m], k, Finished) && states[m].stops[k].kind == Close
    ensures CountSteps(labels[m..n]) <= Total(states[m].conns) + 5 * CountArrivals(labels[m..n])
    ensures (forall c, op :: RegisterStep(OnConn(c, op)) ==> !ConnEnabled(states[n], c, op)) ==>
              forall c :: c in states[n].conns ==> states[n].conns[c].pc == Gone
  {
    RunInv(cap, states, labels, m);
    assert StopOk(states[m], states[m].stops[k]);
    assert Steps(cap, states[m..n + 1], labels[m..n]);
    ShutdownBound(cap, states[m..n + 1], labels[m..n]);
    FinishedStays(cap, states, labels, m, n, k);
    forall c | c in states[n].conns && states[n].conns[c].pc != Gone
      ensures exists c, op :: RegisterStep(OnConn(c, op)) && ConnEnabled(states[n], c, op)
    {
      NobodyStuck(cap, states, labels, n, k, c);
      assert RegisterStep(OnConn(c, NextOp(states[n].conns[c].pc)));
    }
  }

  lemma FinishedKept(cap: nat, s: State, l: Label, k: StopId)
    requires Enabled(s, l) && StopAt(s, k, Finished)
    ensures StopAt(Apply(cap, s, l), k, Finished) && Apply(cap, s, l).stops[k].kind == s.stops[k].kind
  {
    if k in TouchedStop(l) {} else {
      OtherStopsKept(cap, s, l, k);
    }
  }

  lemma {:induction false} FinishedStays(cap: nat, states: seq<State>, labels: seq<Label>, m: nat, n: nat, k: StopId)
    requires Steps(cap, states, labels) && m <= n < |states| && StopAt(states[m], k, Finished)
    ensures StopAt(states[n], k, Finished) && states[n].stops[k].kind == states[m].stops[k].kind
  {
    if m < n {
      FinishedStays(cap, states, labels, m, n - 1, k);
      FinishedKept(cap, states[n - 1], labels[n - 1], k);
    }
  }
}
