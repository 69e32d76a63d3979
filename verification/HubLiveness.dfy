/** How a connection leaves the hub, whether or not the hub shuts down: a Register call
    whose socket is closed or whose context is done ends within five of its own steps,
    its writer stops, and BroadcastReconnect sets all of that off for everyone. */
module HubLiveness {
  import opened HubSteps
  import opened HubInvariants
  import opened HubTheorems

  /** The steps a Register call may still take once its socket is closed: every Read it
      starts fails. (`Rank` counts them once its context is done: no Read is started.) */
  function ClosedRank(pc: RegPc): nat {
    match pc
    case Inserting => 5
    case Checking => 4
    case Reading => 3
    case Leaving => 2
    case Closing => 1
    case Gone => 0
  }

  ghost function StepOf(l: Label, c: ConnId): nat { if RegisterStep(l) && l.c == c then 1 else 0 }

  /** The steps one Register call takes in a stretch. */
  ghost function CountStepsOf(labels: seq<Label>, c: ConnId): nat {
    if labels == [] then 0
    else CountStepsOf(labels[..|labels| - 1], c) + StepOf(labels[|labels| - 1], c)
  }

  /** What Publish, Close and BroadcastReconnect may do to a connection. */
  ghost predicate SeenFromOutside(conn: Conn, conn': Conn) {
    && conn'.pc == conn.pc && conn'.ctxDone == conn.ctxDone
    && conn'.writer == conn.writer && conn'.sent == conn.sent
    && (conn'.open ==> conn.open) && conn'.reconnects >= conn.reconnects
  }

  lemma OutsideStep(cap: nat, s: State, l: Label, c: ConnId)
    requires Enabled(s, l) && c in s.conns && !(l.OnConn? && l.c == c)
    ensures c in Apply(cap, s, l).conns && SeenFromOutside(s.conns[c], Apply(cap, s, l).conns[c])
  {
    StepFrame(cap, s, l);
    hide Enabled, Apply;
  }

  lemma CutOffConn(s: State, c: ConnId, op: ConnOp)
    requires ConnEnabled(s, c, op) && c in s.conns
    ensures c in ConnApply(s, c, op).conns
    ensures var conn, conn' := s.conns[c], ConnApply(s, c, op).conns[c];
            && (!conn.open ==> !conn'.open && ClosedRank(conn'.pc) + StepOf(OnConn(c, op), c) <= ClosedRank(conn.pc))
            && (conn.ctxDone ==> conn'.ctxDone && Rank(conn'.pc) + StepOf(OnConn(c, op), c) <= Rank(conn.pc))
  {}

  lemma CutOffStep(cap: nat, s: State, l: Label, c: ConnId)
    requires Enabled(s, l) && c in s.conns
    ensures c in Apply(cap, s, l).conns
    ensures var conn, conn' := s.conns[c], Apply(cap, s, l).conns[c];
            && (!conn.open ==> !conn'.open && ClosedRank(conn'.pc) + StepOf(l, c) <= ClosedRank(conn.pc))
            && (conn.ctxDone ==> conn'.ctxDone && Rank(conn'.pc) + StepOf(l, c) <= Rank(conn.pc))
  {
    hide Enabled, Apply, ConnEnabled, ConnApply;
    if l.OnConn? && l.c == c {
      ConnStepApplies(cap, s, c, l.cop);
      CutOffConn(s, c, l.cop);
    } else {
      OutsideStep(cap, s, l, c);
    }
  }

  /** The two measures over a stretch. */
  lemma {:induction false} CutOffSteps(cap: nat, states: seq<State>, labels: seq<Label>, c: ConnId)
    requires Steps(cap, states, labels) && c in states[0].conns
    ensures c in states[|labels|].conns
    ensures var conn, conn' := states[0].conns[c], states[|labels|].conns[c];
            && (!conn.open ==> !conn'.open && ClosedRank(conn'.pc) + CountStepsOf(labels, c) <= ClosedRank(conn.pc))
            && (conn.ctxDone ==> conn'.ctxDone && Rank(conn'.pc) + CountStepsOf(labels, c) <= Rank(conn.pc))
    decreases |labels|
  {
    hide Apply, Enabled;
    if labels != [] {
      var n := |labels| - 1;
      CutOffSteps(cap, states[..n + 1], labels[..n], c);
      CutOffStep(cap, states[n], labels[n], c);
    }
  }

  lemma StepsSlice(cap: nat, states: seq<State>, labels: seq<Label>, m: nat, n: nat)
    requires Run(cap, states, labels) && m <= n < |states|
    ensures n <= |labels| && Steps(cap, states[m..n + 1], labels[m..n])
  {
    hide Enabled, Apply;
  }

  /** No step of c's own Register call is left to take. */
  ghost predicate NoStepLeft(s: State, c: ConnId) {
    forall op :: RegisterStep(OnConn(c, op)) ==> !ConnEnabled(s, c, op)
  }

  lemma CutOffNext(cap: nat, s: State, c: ConnId)
    requires Inv(cap, s) && c in s.conns && (!s.conns[c].open || s.conns[c].ctxDone)
    ensures s.conns[c].pc != Gone ==> !NoStepLeft(s, c)
    ensures s.conns[c].pc == Gone ==> forall a :: c !in Members(s.index, a)
  {
    hide QueueInv, ChannelInv, PubInv, AcceptedInv, StopInv;
    if s.conns[c].pc != Gone {
      var op := NextOp(s.conns[c].pc);
      assert RegisterStep(OnConn(c, op)) && ConnEnabled(s, c, op);
    }
  }

  /** In every run, hub open or not: from any step at which a connection's socket is
      closed or its context is done, its Register call takes at most five more steps, and
      if none of them is left to take it is gone and no account's group holds it. */
  lemma CutOffLeaves(cap: nat, states: seq<State>, labels: seq<Label>, m: nat, n: nat, c: ConnId)
    requires Run(cap, states, labels) && m <= n < |states| && c in states[m].conns
    requires !states[m].conns[c].open || states[m].conns[c].ctxDone
    ensures CountStepsOf(labels[m..n], c) <= 5
    ensures NoStepLeft(states[n], c) ==>
              At(states[n], c, Gone) && forall a :: c !in Members(states[n].index, a)
  {
    hide Run, Steps, Inv, NoStepLeft;
    StepsSlice(cap, states, labels, m, n);
    CutOffSteps(cap, states[m..n + 1], labels[m..n], c);
    RunInv(cap, states, labels, n);
    CutOffNext(cap, states[n], c);
  }

  /** A write that failed has closed the socket, so it sends the call on its way too. */
  lemma FailedWriteLeaves(cap: nat, states: seq<State>, labels: seq<Label>, m: nat, n: nat, c: ConnId, i: nat)
    requires Run(cap, states, labels) && m <= n < |states| && c in states[m].conns
    requires i < |states[m].conns[c].sent| && states[m].conns[c].sent[i].outcome == Failed
    ensures CountStepsOf(labels[m..n], c) <= 5
    ensures NoStepLeft(states[n], c) ==>
              At(states[n], c, Gone) && forall a :: c !in Members(states[n].index, a)
  {
    RunInv(cap, states, labels, m);
    assert QueueOk(cap, states[m].conns[c]);
    CutOffLeaves(cap, states, labels, m, n, c);
  }

  // ---------------------------------------------------------------- writers

  ghost predicate WriterStep(op: ConnOp) { op.DoTake? || op.DoWrite? || op.DoStopWriter? }

  lemma StoppedConn(s: State, c: ConnId, op: ConnOp)
    requires ConnEnabled(s, c, op) && c in s.conns && s.conns[c].writer == Stopped && s.conns[c].pc != Inserting
    ensures var s' := ConnApply(s, c, op);
            c in s'.conns && s'.conns[c].writer == Stopped && s'.conns[c].sent == s.conns[c].sent
  {}

  lemma StoppedStep(cap: nat, s: State, l: Label, c: ConnId)
    requires Enabled(s, l) && Inv(cap, s) && c in s.conns && s.conns[c].writer == Stopped
    ensures var s' := Apply(cap, s, l);
            c in s'.conns && s'.conns[c].writer == Stopped && s'.conns[c].sent == s.conns[c].sent
  {
    hide Enabled, Apply, ConnEnabled, ConnApply, IndexInv, ChannelInv, PubInv, AcceptedInv, StopInv;
    assert QueueOk(cap, s.conns[c]);
    if l.OnConn? && l.c == c {
      ConnStepApplies(cap, s, c, l.cop);
      StoppedConn(s, c, l.cop);
    } else {
      OutsideStep(cap, s, l, c);
    }
  }

  lemma {:induction false} StoppedStays(cap: nat, states: seq<State>, labels: seq<Label>, m: nat, n: nat, c: ConnId)
    requires Run(cap, states, labels) && m <= n < |states|
    requires c in states[m].conns && states[m].conns[c].writer == Stopped
    ensures c in states[n].conns && states[n].conns[c].writer == Stopped
    ensures states[n].conns[c].sent == states[m].conns[c].sent
  {
    hide Apply, Enabled, Inv;
    if m < n {
      StoppedStays(cap, states, labels, m, n - 1, c);
      RunInv(cap, states, labels, n - 1);
      StoppedStep(cap, states[n - 1], labels[n - 1], c);
    }
  }

  /** A writer that has taken its stop, or whose write failed, takes no step ever again and
      writes nothing more. */
  lemma WriterEnds(cap: nat, states: seq<State>, labels: seq<Label>, m: nat, n: nat, c: ConnId)
    requires Run(cap, states, labels) && m < n < |states|
    requires labels[m] == OnConn(c, DoStopWriter) || labels[m] == OnConn(c, DoWrite(Failed))
    ensures c in states[n].conns && states[n].conns[c].sent == states[m + 1].conns[c].sent
    ensures forall op :: WriterStep(op) ==> !ConnEnabled(states[n], c, op)
  {
    assert c in states[m + 1].conns && states[m + 1].conns[c].writer == Stopped by {
      ConnStepApplies(cap, states[m], c, labels[m].cop);
    }
    hide Run, Steps;
    StoppedStays(cap, states, labels, m + 1, n, c);
  }

  /** No writer is left behind: one whose Register call is gone, or whose hub is done, has a
      step it can take until it has stopped. */
  lemma WriterNext(cap: nat, states: seq<State>, labels: seq<Label>, n: nat, c: ConnId)
    requires Run(cap, states, labels) && n < |states| && c in states[n].conns
    requires states[n].conns[c].pc == Gone || (Done(states[n]) && states[n].conns[c].pc != Inserting)
    ensures states[n].conns[c].writer == Stopped || exists op :: WriterStep(op) && ConnEnabled(states[n], c, op)
  {
    hide Run, IndexInv, PubInv, AcceptedInv, StopInv;
    RunInv(cap, states, labels, n);
    assert QueueOk(cap, states[n].conns[c]) && ChannelOk(states[n].doneCloses > 0, states[n].conns[c]);
    assert WriterStep(DoStopWriter) && WriterStep(DoWrite(Skipped));
  }

  // ---------------------------------------------------------------- nobody leaves for no reason

  /** The call is on its way out only with its socket closed, its context done or the hub done. */
  ghost predicate HasCause(s: State, conn: Conn) {
    conn.pc in {Leaving, Closing, Gone} ==> !conn.open || conn.ctxDone || s.doneCloses > 0
  }

  lemma HasCauseConn(s: State, c: ConnId, op: ConnOp)
    requires ConnEnabled(s, c, op) && (c in s.conns ==> HasCause(s, s.conns[c]))
    ensures c in ConnApply(s, c, op).conns && HasCause(ConnApply(s, c, op), ConnApply(s, c, op).conns[c])
  {}

  lemma HasCauseStep(cap: nat, s: State, l: Label, c: ConnId)
    requires Enabled(s, l) && Inv(cap, s) && (c in s.conns ==> HasCause(s, s.conns[c]))
    ensures c in Apply(cap, s, l).conns ==> HasCause(Apply(cap, s, l), Apply(cap, s, l).conns[c])
  {
    hide Enabled, Apply, ConnEnabled, ConnApply, Inv;
    if l.OnConn? && l.c == c {
      ConnStepApplies(cap, s, c, l.cop);
      HasCauseConn(s, c, l.cop);
    } else {
      StepFrame(cap, s, l);
      if c in s.conns { OutsideStep(cap, s, l, c); }
      if s.doneCloses > 0 { StillDone(cap, s, l); }
    }
  }

  lemma StillDone(cap: nat, s: State, l: Label)
    requires Enabled(s, l) && Inv(cap, s) && s.doneCloses > 0
    ensures Apply(cap, s, l).doneCloses > 0
  {
    DoneCloses(cap, s, l);
  }

  /** A connection stays registered until there is a reason: while its socket is open, its
      context alive and the hub not done, no step takes its call out of the read loop, and
      once inserted it is in its account's group. */
  lemma {:induction false} LeavesOnlyForCause(cap: nat, states: seq<State>, labels: seq<Label>, n: nat, c: ConnId)
    requires Run(cap, states, labels) && n < |states| && c in states[n].conns
    ensures HasCause(states[n], states[n].conns[c])
    ensures var s := states[n];
            s.conns[c].open && !s.conns[c].ctxDone && s.doneCloses == 0 && s.conns[c].pc != Inserting ==>
              c in Members(s.index, s.conns[c].account)
  {
    hide Apply, Enabled, QueueInv, ChannelInv, PubInv, AcceptedInv, StopInv;
    if n > 0 {
      if c in states[n - 1].conns { LeavesOnlyForCause(cap, states, labels, n - 1, c); }
      RunInv(cap, states, labels, n - 1);
      HasCauseStep(cap, states[n - 1], labels[n - 1], c);
    }
    RunInv(cap, states, labels, n);
  }

  /** Some Close call is past its once.Do. */
  ghost predicate Latched(s: State) {
    exists k :: k in s.stops && s.stops[k].kind == Close && s.stops[k].pc != Latching
  }

  ghost predicate OnlyCloseLatches(s: State) {
    && (s.doneCloses > 0 ==> Latched(s))
    && (forall k :: StopAt(s, k, Latching) ==> s.stops[k].kind == Close)
  }

  lemma LatchedStop(s: State, k: StopId, op: StopOp)
    requires StopEnabled(s, k, op) && OnlyCloseLatches(s)
    ensures OnlyCloseLatches(StopApply(s, k, op))
  {
    var s' := StopApply(s, k, op);
    if s.doneCloses > 0 {
      var j :| j in s.stops && s.stops[j].kind == Close && s.stops[j].pc != Latching;
      assert j in s'.stops && s'.stops[j].kind == Close && s'.stops[j].pc != Latching;
    } else if op == DoLatch {
      assert k in s'.stops && s'.stops[k].kind == Close && s'.stops[k].pc != Latching;
    }
  }

  lemma LatchedStep(cap: nat, s: State, l: Label)
    requires Enabled(s, l) && OnlyCloseLatches(s)
    ensures OnlyCloseLatches(Apply(cap, s, l))
  {
    hide ConnEnabled, ConnApply, PubEnabled, PubApply, StopEnabled, StopApply;
    if l.OnStop? {
      hide OnlyCloseLatches;
      LatchedStop(s, l.k, l.sop);
    } else {
      StepFrame(cap, s, l);
    }
  }

  /** Only a Close call shuts the hub: until one has, its done channel is open. */
  lemma {:induction false} OnlyCloseShuts(cap: nat, states: seq<State>, labels: seq<Label>, n: nat)
    requires Run(cap, states, labels) && n < |states|
    ensures OnlyCloseLatches(states[n])
  {
    if n > 0 {
      OnlyCloseShuts(cap, states, labels, n - 1);
      LatchedStep(cap, states[n - 1], labels[n - 1]);
    }
  }

  // ---------------------------------------------------------------- Publish reaches the whole group

  lemma AimKept(cap: nat, s: State, l: Label, p: PubId)
    requires Enabled(s, l) && p in s.pubs && s.pubs[p].pc != Snapshotting
    ensures var s' := Apply(cap, s, l);
            && p in s'.pubs && s'.pubs[p].pc != Snapshotting
            && s'.pubs[p].account == s.pubs[p].account && s'.pubs[p].targets == s.pubs[p].targets
  {
    hide ConnEnabled, ConnApply, StopEnabled, StopApply;
    if p !in TouchedPub(l) { OtherPubsKept(cap, s, l, p); }
  }

  lemma {:induction false} AimStays(cap: nat, states: seq<State>, labels: seq<Label>, m: nat, n: nat, p: PubId)
    requires Steps(cap, states, labels) && m <= n < |states|
    requires p in states[m].pubs && states[m].pubs[p].pc != Snapshotting
    ensures p in states[n].pubs && states[n].pubs[p].pc != Snapshotting
    ensures states[n].pubs[p].account == states[m].pubs[p].account
    ensures states[n].pubs[p].targets == states[m].pubs[p].targets
  {
    hide Apply, Enabled;
    if m < n {
      AimStays(cap, states, labels, m, n - 1, p);
      AimKept(cap, states[n - 1], labels[n - 1], p);
    }
  }

  /** Publish reaches the whole group: each connection that was in the account's group when
      a Publish call took its snapshot has, when the call returns, accepted the frame
      exactly once or is recorded as having dropped it; and no other connection has either. */
  lemma PublishReachesEveryone(cap: nat, states: seq<State>, labels: seq<Label>, m: nat, n: nat,
                               p: PubId, targets: seq<ConnId>, c: ConnId)
    requires Run(cap, states, labels) && m < n < |states|
    requires labels[m] == OnPub(p, DoSnapshot(targets)) && PubAt(states[n], p, Returned)
    ensures p in states[m].pubs
    ensures var a := states[m].pubs[p].account;
            if c in Members(states[m].index, a) then
              && c in states[n].conns
              && Count(states[n].conns[c].accepted, Frame(p, a)) == (if c in states[n].pubs[p].dropped then 0 else 1)
            else
              && c !in states[n].pubs[p].dropped
              && (c in states[n].conns ==> Frame(p, a) !in states[n].conns[c].accepted)
  {
    var s, s' := states[m], states[n];
    var a := s.pubs[p].account;
    assert PubEnabled(s, p, DoSnapshot(targets)) && states[m + 1] == Snapshot(s, p, targets);
    AimStays(cap, states, labels, m + 1, n, p);
    RunInv(cap, states, labels, n);
    var pub := s'.pubs[p];
    assert PubOk(s', pub) && pub.targets == targets;
    hide Run, PubInv, StopInv, QueueInv;
    if c in Members(s.index, a) {
      assert c in targets;
      var i :| 0 <= i < |targets| && targets[i] == c;
      ExactlyAcceptedOrDropped(cap, states, labels, n, p, i);
    } else {
      assert Visited(pub) == set d | d in targets;
      assert c !in pub.took + pub.dropped;
      if c in s'.conns && Frame(p, a) in s'.conns[c].accepted { assert AcceptedOk(s', c, s'.conns[c]); }
    }
  }

  // ---------------------------------------------------------------- BroadcastReconnect

  /** Behind the cursor every socket is closed, and a broadcast wrote to each first. */
  ghost predicate Shut(s: State, stop: Stop) {
    && (forall i :: 0 <= i < stop.next && i < |stop.targets| ==>
          && stop.targets[i] in s.conns && !s.conns[stop.targets[i]].open
          && (stop.kind == Broadcast ==> s.conns[stop.targets[i]].reconnects > 0))
    && (stop.wrote ==>
          && stop.pc == Shutting && stop.next < |stop.targets|
          && stop.targets[stop.next] in s.conns && s.conns[stop.targets[stop.next]].reconnects > 0)
  }

  lemma ReconnectsConn(s: State, c: ConnId, op: ConnOp)
    requires ConnEnabled(s, c, op) && c in s.conns
    ensures var s' := ConnApply(s, c, op);
            c in s'.conns && s'.conns[c].reconnects == s.conns[c].reconnects && (s'.conns[c].open ==> s.conns[c].open)
  {}

  lemma ReconnectsGrow(cap: nat, s: State, l: Label, c: ConnId)
    requires Enabled(s, l) && c in s.conns
    ensures var s' := Apply(cap, s, l);
            c in s'.conns && s'.conns[c].reconnects >= s.conns[c].reconnects && (s'.conns[c].open ==> s.conns[c].open)
  {
    hide Enabled, Apply, ConnEnabled, ConnApply;
    if l.OnConn? && l.c == c {
      ConnStepApplies(cap, s, c, l.cop);
      ReconnectsConn(s, c, l.cop);
    } else {
      OutsideStep(cap, s, l, c);
    }
  }

  lemma ShutKept(cap: nat, s: State, l: Label, stop: Stop)
    requires Enabled(s, l) && Shut(s, stop)
    ensures Shut(Apply(cap, s, l), stop)
  {
    hide Enabled, Apply;
    forall c | c in s.conns
      ensures var s' := Apply(cap, s, l);
              c in s'.conns && s'.conns[c].reconnects >= s.conns[c].reconnects && (s'.conns[c].open ==> s.conns[c].open)
    {
      ReconnectsGrow(cap, s, l, c);
    }
  }

  lemma ShutTouched(s: State, k: StopId, op: StopOp)
    requires StopEnabled(s, k, op) && StopInv(s) && (k in s.stops ==> Shut(s, s.stops[k]))
    ensures k in StopApply(s, k, op).stops && Shut(StopApply(s, k, op), StopApply(s, k, op).stops[k])
  {
    if k in s.stops { assert StopOk(s, s.stops[k]); }
  }

  lemma ShutStep(cap: nat, s: State, l: Label, k: StopId)
    requires Enabled(s, l) && StopInv(s) && (k in s.stops ==> Shut(s, s.stops[k]))
    ensures var s' := Apply(cap, s, l); k in s'.stops ==> Shut(s', s'.stops[k])
  {
    hide ConnEnabled, ConnApply, PubEnabled, PubApply, StopEnabled, StopApply, Shut, StopOk;
    if k in TouchedStop(l) {
      ShutTouched(s, k, l.sop);
    } else {
      OtherStopsKept(cap, s, l, k);
      if k in s.stops { ShutKept(cap, s, l, s.stops[k]); }
    }
  }

  lemma {:induction false} ShutRun(cap: nat, states: seq<State>, labels: seq<Label>, n: nat, k: StopId)
    requires Run(cap, states, labels) && n < |states| && k in states[n].stops
    ensures Shut(states[n], states[n].stops[k])
  {
    if n > 0 {
      if k in states[n - 1].stops { ShutRun(cap, states, labels, n - 1, k); }
      RunInv(cap, states, labels, n - 1);
      ShutStep(cap, states[n - 1], labels[n - 1], k);
    }
  }

  lemma TargetsKept(cap: nat, s: State, l: Label, k: StopId)
    requires Enabled(s, l) && k in s.stops && s.stops[k].pc in {Shutting, Finished}
    ensures var s' := Apply(cap, s, l);
            && k in s'.stops && s'.stops[k].pc in {Shutting, Finished}
            && s'.stops[k].kind == s.stops[k].kind && s'.stops[k].targets == s.stops[k].targets
  {
    hide ConnEnabled, ConnApply, PubEnabled, PubApply;
    if k !in TouchedStop(l) { OtherStopsKept(cap, s, l, k); }
  }

  lemma {:induction false} TargetsStay(cap: nat, states: seq<State>, labels: seq<Label>, m: nat, n: nat, k: StopId)
    requires Steps(cap, states, labels) && m <= n < |states|
    requires k in states[m].stops && states[m].stops[k].pc in {Shutting, Finished}
    ensures k in states[n].stops && states[n].stops[k].pc in {Shutting, Finished}
    ensures states[n].stops[k].kind == states[m].stops[k].kind
    ensures states[n].stops[k].targets == states[m].stops[k].targets
  {
    hide Apply, Enabled;
    if m < n {
      TargetsStay(cap, states, labels, m, n - 1, k);
      TargetsKept(cap, states[n - 1], labels[n - 1], k);
    }
  }

  /** Everyone is told and everyone leaves: a connection that was in the index when a
      Close or BroadcastReconnect call took its list has its socket closed by the time the
      call returns, after a reconnect event in the second case; from then on its Register
      call takes at most five more steps and, when none is left, is out of the index. */
  lemma StopReachesEveryone(cap: nat, states: seq<State>, labels: seq<Label>, i: nat, m: nat, n: nat,
                            k: StopId, targets: seq<ConnId>, a: Account, c: ConnId)
    requires Run(cap, states, labels) && i < m <= n < |states|
    requires labels[i] == OnStop(k, DoCollect(targets)) && c in Members(states[i].index, a)
    requires StopAt(states[m], k, Finished)
    ensures c in states[m].conns && !states[m].conns[c].open
    ensures states[m].stops[k].kind == Broadcast ==> states[m].conns[c].reconnects > 0
    ensures CountStepsOf(labels[m..n], c) <= 5
    ensures NoStepLeft(states[n], c) ==>
              At(states[n], c, Gone) && forall b :: c !in Members(states[n].index, b)
  {
    assert c in Everyone(states[i].index);
    assert StopEnabled(states[i], k, DoCollect(targets)) && states[i + 1] == Collect(states[i], k, targets);
    TargetsStay(cap, states, labels, i + 1, m, k);
    ShutRun(cap, states, labels, m, k);
    RunInv(cap, states, labels, m);
    assert StopOk(states[m], states[m].stops[k]);
    assert c in states[m].stops[k].targets;
    CutOffLeaves(cap, states, labels, m, n, c);
  }

  // ---------------------------------------------------------------- Publish and the stop calls end

  /** Some order to walk a set in: there is always one. */
  lemma {:induction false} Listing(members: set<ConnId>) returns (targets: seq<ConnId>)
    ensures Lists(targets, members)
  {
    if members == {} {
      targets := [];
    } else {
      var c :| c in members;
      var rest := Listing(members - {c});
      targets := rest + [c];
      assert c !in rest;
    }
  }

  /** The steps a Publish call has left once it has its snapshot. */
  ghost function SendsLeft(pub: Pub): int {
    if pub.pc == Returned then 0 else |pub.targets| - pub.next + 1
  }

  ghost function CountPub(labels: seq<Label>, p: PubId): nat {
    if labels == [] then 0
    else
      var l := labels[|labels| - 1];
      CountPub(labels[..|labels| - 1], p) + (if l.OnPub? && l.p == p then 1 else 0)
  }

  lemma SendsLeftPub(cap: nat, s: State, p: PubId, op: PubOp)
    requires PubEnabled(s, p, op) && p in s.pubs && s.pubs[p].pc != Snapshotting
    ensures var s' := PubApply(cap, s, p, op);
            p in s'.pubs && s'.pubs[p].pc != Snapshotting && SendsLeft(s'.pubs[p]) + 1 == SendsLeft(s.pubs[p])
  {}

  lemma SendsLeftStep(cap: nat, s: State, l: Label, p: PubId)
    requires Enabled(s, l) && p in s.pubs && s.pubs[p].pc != Snapshotting
    ensures var s' := Apply(cap, s, l);
            && p in s'.pubs && s'.pubs[p].pc != Snapshotting
            && SendsLeft(s'.pubs[p]) + (if l.OnPub? && l.p == p then 1 else 0) == SendsLeft(s.pubs[p])
  {
    hide ConnEnabled, ConnApply, PubEnabled, PubApply, StopEnabled, StopApply, SendsLeft;
    if p in TouchedPub(l) { SendsLeftPub(cap, s, p, l.pop); } else { OtherPubsKept(cap, s, l, p); }
  }

  lemma {:induction false} SendsLeftRun(cap: nat, states: seq<State>, labels: seq<Label>, p: PubId)
    requires Steps(cap, states, labels) && p in states[0].pubs && states[0].pubs[p].pc != Snapshotting
    ensures p in states[|labels|].pubs && states[|labels|].pubs[p].pc != Snapshotting
    ensures SendsLeft(states[|labels|].pubs[p]) + CountPub(labels, p) == SendsLeft(states[0].pubs[p])
    decreases |labels|
  {
    hide Enabled, Apply, SendsLeft;
    if labels != [] {
      var n := |labels| - 1;
      SendsLeftRun(cap, states[..n + 1], labels[..n], p);
      SendsLeftStep(cap, states[n], labels[n], p);
    }
  }

  /** Publish ends: from its snapshot on a call takes exactly one step for each connection
      and one to return, and until it has returned it always has a step it can take. */
  lemma PublishEnds(cap: nat, states: seq<State>, labels: seq<Label>, m: nat, n: nat, p: PubId)
    requires Run(cap, states, labels) && m <= n < |states|
    requires p in states[m].pubs && states[m].pubs[p].pc != Snapshotting
    ensures p in states[n].pubs
    ensures CountPub(labels[m..n], p) == SendsLeft(states[m].pubs[p]) - SendsLeft(states[n].pubs[p])
    ensures states[n].pubs[p].pc == Returned || exists op :: PubEnabled(states[n], p, op)
  {
    hide Run, Steps, Inv, SendsLeft;
    StepsSlice(cap, states, labels, m, n);
    SendsLeftRun(cap, states[m..n + 1], labels[m..n], p);
    RunInv(cap, states, labels, n);
    PublishNext(cap, states[n], p);
  }

  lemma PublishNext(cap: nat, s: State, p: PubId)
    requires Inv(cap, s) && p in s.pubs
    ensures s.pubs[p].pc == Returned || exists op :: PubEnabled(s, p, op)
  {
    hide IndexInv, QueueInv, ChannelInv, AcceptedInv, StopInv;
    assert PubOk(s, s.pubs[p]);
    var pub := s.pubs[p];
    if pub.pc == Snapshotting {
      assert PubEnabled(s, p, MarshalFailed);
    } else if pub.pc == Sending {
      if pub.next < |pub.targets| {
        assert pub.targets[pub.next] in pub.targets;
        assert PubEnabled(s, p, DoSend);
      } else {
        assert PubEnabled(s, p, DoReturn);
      }
    }
  }

  /** An event that cannot be encoded reaches nobody, and its call returns at once. */
  lemma MarshalFailureReturns(cap: nat, states: seq<State>, labels: seq<Label>, m: nat, n: nat, p: PubId)
    requires Run(cap, states, labels) && m < n < |states| && labels[m] == OnPub(p, MarshalFailed)
    ensures PubAt(states[n], p, Returned) && states[n].pubs[p].took == {} && states[n].pubs[p].dropped == {}
  {
    var s := states[m];
    assert PubEnabled(s, p, MarshalFailed) && states[m + 1] == Return(s, p);
    assert s.pubs[p].targets == [] by { RunInv(cap, states, labels, m); assert PubOk(s, s.pubs[p]); }
    ReturnedForGood(cap, states, labels, m + 1, n, p);
    AimStays(cap, states, labels, m + 1, n, p);
    RunInv(cap, states, labels, n);
    assert PubOk(states[n], states[n].pubs[p]);
  }

  lemma {:induction false} ReturnedForGood(cap: nat, states: seq<State>, labels: seq<Label>, m: nat, n: nat, p: PubId)
    requires Steps(cap, states, labels) && m <= n < |states| && PubAt(states[m], p, Returned)
    ensures PubAt(states[n], p, Returned)
  {
    hide Enabled, Apply;
    if m < n {
      ReturnedForGood(cap, states, labels, m, n - 1, p);
      ReturnedStays(cap, states[n - 1], labels[n - 1], p);
    }
  }

  /** The steps a Close or BroadcastReconnect call has left at most, once it has its list. */
  ghost function ShutsLeft(stop: Stop): int {
    if stop.pc == Finished then 0 else 2 * (|stop.targets| - stop.next) + 1 - (if stop.wrote then 1 else 0)
  }

  ghost function CountStop(labels: seq<Label>, k: StopId): nat {
    if labels == [] then 0
    else
      var l := labels[|labels| - 1];
      CountStop(labels[..|labels| - 1], k) + (if l.OnStop? && l.k == k then 1 else 0)
  }

  lemma ShutsLeftStop(s: State, k: StopId, op: StopOp)
    requires StopEnabled(s, k, op) && k in s.stops && s.stops[k].pc in {Shutting, Finished}
    requires s.stops[k].wrote ==> s.stops[k].next < |s.stops[k].targets|
    ensures var s' := StopApply(s, k, op);
            && k in s'.stops && s'.stops[k].pc in {Shutting, Finished}
            && ShutsLeft(s'.stops[k]) + 1 <= ShutsLeft(s.stops[k])
  {}

  lemma ShutsLeftStep(cap: nat, s: State, l: Label, k: StopId)
    requires Enabled(s, l) && k in s.stops && s.stops[k].pc in {Shutting, Finished} && Shut(s, s.stops[k])
    ensures var s' := Apply(cap, s, l);
            && k in s'.stops && s'.stops[k].pc in {Shutting, Finished}
            && ShutsLeft(s'.stops[k]) + (if l.OnStop? && l.k == k then 1 else 0) <= ShutsLeft(s.stops[k])
  {
    hide ConnEnabled, ConnApply, PubEnabled, PubApply, StopEnabled, StopApply, ShutsLeft;
    if k in TouchedStop(l) { ShutsLeftStop(s, k, l.sop); } else { OtherStopsKept(cap, s, l, k); }
  }

  lemma {:induction false} ShutsLeftRun(cap: nat, states: seq<State>, labels: seq<Label>, m: nat, n: nat, k: StopId)
    requires Run(cap, states, labels) && m <= n < |states|
    requires k in states[m].stops && states[m].stops[k].pc in {Shutting, Finished}
    ensures k in states[n].stops && states[n].stops[k].pc in {Shutting, Finished}
    ensures n <= |labels|
    ensures ShutsLeft(states[n].stops[k]) + CountStop(labels[m..n], k) <= ShutsLeft(states[m].stops[k])
  {
    hide Enabled, Apply, ShutsLeft, Shut;
    if m < n {
      ShutsLeftRun(cap, states, labels, m, n - 1, k);
      ShutRun(cap, states, labels, n - 1, k);
      ShutsLeftStep(cap, states[n - 1], labels[n - 1], k);
      assert labels[m..n][..n - 1 - m] == labels[m..n - 1];
    }
  }

  /** Close and BroadcastReconnect end: from its list on a call takes at most two steps for
      each connection and one to return, and until it has returned it always has a step it
      can take. */
  lemma StopEnds(cap: nat, states: seq<State>, labels: seq<Label>, m: nat, n: nat, k: StopId)
    requires Run(cap, states, labels) && m <= n < |states| && k in states[m].stops
    ensures n <= |labels|
    ensures states[m].stops[k].pc in {Shutting, Finished} ==>
              CountStop(labels[m..n], k) <= 2 * |states[m].stops[k].targets| + 1
    ensures k in states[n].stops ==>
              states[n].stops[k].pc == Finished || exists op :: StopEnabled(states[n], k, op)
  {
    RunInv(cap, states, labels, n);
    RunInv(cap, states, labels, m);
    assert StopOk(states[m], states[m].stops[k]);
    if states[m].stops[k].pc in {Shutting, Finished} {
      ShutsLeftRun(cap, states, labels, m, n, k);
    }
    hide Run, Inv;
    if k in states[n].stops { StopNext(cap, states[n], k); }
  }

  lemma StopNext(cap: nat, s: State, k: StopId)
    requires Inv(cap, s) && k in s.stops
    ensures s.stops[k].pc == Finished || exists op :: StopEnabled(s, k, op)
  {
    hide IndexInv, QueueInv, ChannelInv, AcceptedInv, PubInv;
    assert StopOk(s, s.stops[k]);
    var stop := s.stops[k];
    match stop.pc
    case Latching => assert StopEnabled(s, k, DoLatch);
    case Collecting =>
      var targets := Listing(Everyone(s.index));
      assert StopEnabled(s, k, DoCollect(targets));
    case Shutting =>
      if stop.next == |stop.targets| {
        assert StopEnabled(s, k, DoFinish);
      } else if stop.kind == Broadcast && !stop.wrote {
        assert StopEnabled(s, k, DoWriteReconnect);
      } else {
        assert StopEnabled(s, k, DoCloseSocket);
      }
    case Finished =>
  }
}
