/** What every step of the hub keeps, and so what holds in every interleaving. */
module HubInvariants {
  import opened HubSteps

  /** The call has put its connection into the index and not yet taken it out. */
  ghost predicate Live(pc: RegPc) { pc == Checking || pc == Reading || pc == Leaving }

  ghost predicate IndexInv(s: State) {
    && (forall c :: c in s.conns ==> (Live(s.conns[c].pc) <==> c in Members(s.index, s.conns[c].account)))
    && (forall a, c :: a in s.index && c in s.index[a] ==> c in s.conns && s.conns[c].account == a)
    && (forall a :: a in s.index ==> s.index[a] != {})
  }

  function Frames(sent: seq<Sent>): seq<Frame> {
    seq(|sent|, i requires 0 <= i < |sent| => sent[i].frame)
  }

  function InFlight(w: WriterPc): seq<Frame> {
    if w.Writing? then [w.frame] else []
  }

  /** Every frame taken in is accounted for: handled by the writer, in its hands, or queued. */
  ghost predicate QueueOk(cap: nat, conn: Conn) {
    && conn.accepted == Frames(conn.sent) + InFlight(conn.writer) + conn.queue
    && |conn.queue| <= cap
    && (forall i :: 0 <= i < |conn.sent| && conn.sent[i].outcome == Failed ==>
          i == |conn.sent| - 1 && conn.writer == Stopped && !conn.open)
    && (conn.writer == NotStarted <==> conn.pc == Inserting)
  }

  ghost predicate QueueInv(cap: nat, s: State) {
    forall c :: c in s.conns ==> QueueOk(cap, s.conns[c])
  }

  /** No channel is closed twice, and a call that outlives the hub reads at most once more. */
  ghost predicate ChannelOk(done: bool, conn: Conn) {
    && conn.doneCloses == (if conn.pc == Gone then 1 else 0)
    && conn.lateReads <= 1
    && (conn.lateReads == 1 ==> done && conn.pc != Inserting && conn.pc != Reading)
  }

  ghost predicate ChannelInv(s: State) {
    && s.doneCloses == (if s.latched then 1 else 0)
    && (forall c :: c in s.conns ==> ChannelOk(s.doneCloses > 0, s.conns[c]))
  }

  ghost function Visited(pub: Pub): set<ConnId>
    requires pub.next <= |pub.targets|
  {
    set c | c in pub.targets[..pub.next]
  }

  ghost predicate PubOk(s: State, pub: Pub) {
    && pub.next <= |pub.targets|
    && (forall i, j :: 0 <= i < j < |pub.targets| ==> pub.targets[i] != pub.targets[j])
    && (forall c :: c in pub.targets ==> c in s.conns && s.conns[c].account == pub.account)
    && (pub.pc == Snapshotting ==> pub.targets == [])
    && (pub.pc == Returned ==> pub.next == |pub.targets|)
    && pub.took + pub.dropped == Visited(pub)
    && pub.took !! pub.dropped
    && (forall q :: q in pub.before ==> PubAt(s, q, Returned))
  }

  ghost predicate PubInv(s: State) {
    forall p :: p in s.pubs ==> PubOk(s, s.pubs[p])
  }

  /** The frames a connection accepted: published for its account, each by a Publish that
      counts it as taken, none twice, and none behind a frame whose Publish started after
      its own had returned. */
  ghost predicate AcceptedOk(s: State, c: ConnId, conn: Conn) {
    && (forall i :: 0 <= i < |conn.accepted| ==>
          var f := conn.accepted[i];
          f.account == conn.account && f.pub in s.pubs && s.pubs[f.pub].account == f.account && c in s.pubs[f.pub].took)
    && (forall i, j :: 0 <= i < j < |conn.accepted| ==> conn.accepted[i] != conn.accepted[j])
    && (forall i, j :: 0 <= i < j < |conn.accepted| && conn.accepted[i].pub in s.pubs ==>
          conn.accepted[j].pub !in s.pubs[conn.accepted[i].pub].before)
  }

  ghost predicate AcceptedInv(s: State) {
    && (forall c :: c in s.conns ==> AcceptedOk(s, c, s.conns[c]))
    && (forall p, c :: p in s.pubs && c in s.pubs[p].took ==>
          c in s.conns && Frame(p, s.pubs[p].account) in s.conns[c].accepted)
  }

  /** A Close call past its snapshot has every connection still reading on its list, and
      those behind its cursor shut. */
  ghost predicate StopOk(s: State, stop: Stop) {
    && stop.next <= |stop.targets|
    && (forall i :: 0 <= i < |stop.targets| ==> stop.targets[i] in s.conns)
    && (stop.kind == Close && stop.pc != Latching ==> s.latched)
    && (stop.kind == Close && stop.pc == Shutting ==>
          forall c :: At(s, c, Reading) && s.conns[c].open ==> c in stop.targets[stop.next..])
    && (stop.kind == Close && stop.pc == Finished ==>
          forall c :: At(s, c, Reading) ==> !s.conns[c].open)
    && (stop.pc == Latching || stop.pc == Collecting ==> stop.targets == [])
    && (stop.pc == Finished ==> stop.next == |stop.targets|)
  }

  ghost predicate StopInv(s: State) {
    forall k :: k in s.stops ==> StopOk(s, s.stops[k])
  }

  ghost predicate Inv(cap: nat, s: State) {
    && IndexInv(s) && QueueInv(cap, s) && ChannelInv(s)
    && PubInv(s) && AcceptedInv(s) && StopInv(s)
  }

  // ---------------------------------------------------------------- what a step leaves alone

  /** A connection step rewrites one connection, and the index only on the way in or out. */
  ghost predicate ConnFramed(s: State, c: ConnId, op: ConnOp, s': State) {
    && s'.pubs == s.pubs && s'.stops == s.stops && s'.latched == s.latched && s'.doneCloses == s.doneCloses
    && c in s'.conns && s'.conns == s.conns[c := s'.conns[c]]
    && (op.Arrive? <==> c !in s.conns)
    && (op.Arrive? ==> s'.conns[c] == Fresh(op.a))
    && (c in s.conns ==>
          && s'.conns[c].account == s.conns[c].account && s'.conns[c].accepted == s.conns[c].accepted
          && (s'.conns[c].open ==> s.conns[c].open))
    && (op != DoInsert && op != DoRemove ==>
          s'.index == s.index && (c in s.conns ==> Live(s'.conns[c].pc) == Live(s.conns[c].pc)))
    && (s.doneCloses > 0 && s'.conns[c].pc == Reading ==> At(s, c, Reading))
  }

  /** What a send does to its target. */
  ghost predicate SentTo(conn: Conn, conn': Conn, f: Frame) {
    || conn' == conn
    || conn' == conn.(queue := conn.queue + [f], accepted := conn.accepted + [f])
  }

  ghost predicate PubFramed(s: State, p: PubId, op: PubOp, s': State) {
    && s'.index == s.index && s'.stops == s.stops && s'.latched == s.latched && s'.doneCloses == s.doneCloses
    && p in s'.pubs && s'.pubs == s.pubs[p := s'.pubs[p]]
    && (op.DoStart? <==> p !in s.pubs)
    && (op.DoStart? ==> s'.pubs[p].took == {} && forall q :: PubAt(s, q, Returned) ==> q in s'.pubs[p].before)
    && (op == DoSend ==>
          && s.pubs[p].next < |s.pubs[p].targets|
          && var t := s.pubs[p].targets[s.pubs[p].next];
             && t in s.conns && t in s'.conns && s'.conns == s.conns[t := s'.conns[t]]
             && SentTo(s.conns[t], s'.conns[t], Frame(p, s.pubs[p].account))
             && s'.pubs[p].took == s.pubs[p].took + (if s'.conns[t] == s.conns[t] then {} else {t}))
    && (op != DoSend ==> s'.conns == s.conns)
    && (p in s.pubs ==>
          && s.pubs[p].pc != Returned
          && s'.pubs[p].account == s.pubs[p].account && s'.pubs[p].before == s.pubs[p].before
          && (op != DoSend ==> s'.pubs[p].took == s.pubs[p].took))
  }

  ghost predicate StopFramed(s: State, k: StopId, op: StopOp, s': State) {
    && s'.index == s.index && s'.pubs == s.pubs
    && k in s'.stops && s'.stops == s.stops[k := s'.stops[k]]
    && (op == DoWriteReconnect || op == DoCloseSocket ==>
          && HasNext(s, k)
          && var t := s.stops[k].targets[s.stops[k].next];
             s'.conns == s.conns[t := if op == DoCloseSocket then s.conns[t].(open := false)
                                      else s.conns[t].(reconnects := s.conns[t].reconnects + 1)])
    && (op != DoWriteReconnect && op != DoCloseSocket ==> s'.conns == s.conns)
    && (s.latched ==> s'.latched && s'.doneCloses == s.doneCloses)
    && (!s.latched ==> s'.doneCloses == s.doneCloses + (if s'.latched then 1 else 0))
  }

  ghost predicate Framed(s: State, l: Label, s': State) {
    match l
    case OnConn(c, op) => ConnFramed(s, c, op, s')
    case OnPub(p, op) => PubFramed(s, p, op, s')
    case OnStop(k, op) => StopFramed(s, k, op, s')
  }

  lemma ConnFrame(s: State, c: ConnId, op: ConnOp)
    requires ConnEnabled(s, c, op)
    ensures ConnFramed(s, c, op, ConnApply(s, c, op))
  {}

  lemma PubFrame(cap: nat, s: State, p: PubId, op: PubOp)
    requires PubEnabled(s, p, op)
    ensures PubFramed(s, p, op, PubApply(cap, s, p, op))
  {}

  lemma StopFrame(s: State, k: StopId, op: StopOp)
    requires StopEnabled(s, k, op)
    ensures StopFramed(s, k, op, StopApply(s, k, op))
  {}

  lemma StepFrame(cap: nat, s: State, l: Label)
    requires Enabled(s, l)
    ensures Framed(s, l, Apply(cap, s, l))
  {
    hide ConnEnabled, ConnApply, ConnFramed, PubEnabled, PubApply, PubFramed, StopEnabled, StopApply, StopFramed;
    match l
    case OnConn(c, op) => ConnFrame(s, c, op);
    case OnPub(p, op) => PubFrame(cap, s, p, op);
    case OnStop(k, op) => StopFrame(s, k, op);
  }

  /** The one connection a step may change. */
  ghost function Touched(s: State, l: Label): set<ConnId>
    requires Enabled(s, l)
  {
    match l
    case OnConn(c, _) => {c}
    case OnPub(p, DoSend) => {s.pubs[p].targets[s.pubs[p].next]}
    case OnStop(k, DoWriteReconnect) => {s.stops[k].targets[s.stops[k].next]}
    case OnStop(k, DoCloseSocket) => {s.stops[k].targets[s.stops[k].next]}
    case _ => {}
  }

  lemma OthersKept(cap: nat, s: State, l: Label, c: ConnId)
    requires Enabled(s, l) && c !in Touched(s, l)
    ensures c in Apply(cap, s, l).conns <==> c in s.conns
    ensures c in s.conns ==> Apply(cap, s, l).conns[c] == s.conns[c]
  {
    StepFrame(cap, s, l);
    hide Enabled, Apply;
  }

  // ---------------------------------------------------------------- queues

  lemma FramesAppend(sent: seq<Sent>, x: Sent)
    ensures Frames(sent + [x]) == Frames(sent) + [x.frame]
  {}

  lemma QueueConn(cap: nat, s: State, c: ConnId, op: ConnOp)
    requires ConnEnabled(s, c, op)
    requires c in s.conns ==> QueueOk(cap, s.conns[c])
    ensures c in ConnApply(s, c, op).conns && QueueOk(cap, ConnApply(s, c, op).conns[c])
  {
    if op.DoWrite? {
      FramesAppend(s.conns[c].sent, Sent(s.conns[c].writer.frame, op.outcome));
    }
  }

  lemma QueueSend(cap: nat, s: State, p: PubId, c: ConnId)
    requires PubEnabled(s, p, DoSend) && c in s.conns && QueueOk(cap, s.conns[c])
    ensures QueueOk(cap, Send(cap, s, p).conns[c])
  {}

  /** A step is the step of its kind. */
  lemma ConnStepApplies(cap: nat, s: State, c: ConnId, op: ConnOp)
    requires Enabled(s, OnConn(c, op))
    ensures ConnEnabled(s, c, op) && Apply(cap, s, OnConn(c, op)) == ConnApply(s, c, op)
  {
    hide ConnEnabled, ConnApply;
  }

  lemma SendApplies(cap: nat, s: State, p: PubId)
    requires Enabled(s, OnPub(p, DoSend))
    ensures PubEnabled(s, p, DoSend) && Apply(cap, s, OnPub(p, DoSend)) == Send(cap, s, p)
  {
    hide Send;
  }

  lemma QueueTouched(cap: nat, s: State, l: Label, c: ConnId)
    requires Enabled(s, l) && c in Touched(s, l)
    requires c in s.conns ==> QueueOk(cap, s.conns[c])
    ensures c in Apply(cap, s, l).conns && QueueOk(cap, Apply(cap, s, l).conns[c])
  {
    hide Enabled, Apply, ConnEnabled, ConnApply, PubEnabled, Send;
    match l
    case OnConn(_, op) => ConnStepApplies(cap, s, c, op); QueueConn(cap, s, c, op);
    case OnPub(p, DoSend) => SendApplies(cap, s, p); StepFrame(cap, s, l); QueueSend(cap, s, p, c);
    case _ => StepFrame(cap, s, l);
  }

  lemma QueueStep(cap: nat, s: State, l: Label)
    requires QueueInv(cap, s) && Enabled(s, l)
    ensures QueueInv(cap, Apply(cap, s, l))
  {
    hide Enabled, Apply, QueueOk;
    forall c | c in Apply(cap, s, l).conns ensures QueueOk(cap, Apply(cap, s, l).conns[c]) {
      if c in Touched(s, l) { QueueTouched(cap, s, l, c); } else { OthersKept(cap, s, l, c); }
    }
  }

  // ---------------------------------------------------------------- channels

  lemma ChannelConn(s: State, c: ConnId, op: ConnOp)
    requires ConnEnabled(s, c, op)
    requires c in s.conns ==> ChannelOk(s.doneCloses > 0, s.conns[c])
    ensures c in ConnApply(s, c, op).conns && ChannelOk(s.doneCloses > 0, ConnApply(s, c, op).conns[c])
  {}

  lemma ChannelTouched(cap: nat, s: State, l: Label, c: ConnId)
    requires Enabled(s, l) && c in Touched(s, l)
    requires c in s.conns ==> ChannelOk(s.doneCloses > 0, s.conns[c])
    ensures c in Apply(cap, s, l).conns && ChannelOk(s.doneCloses > 0, Apply(cap, s, l).conns[c])
  {
    hide Enabled, Apply, ConnEnabled, ConnApply;
    match l
    case OnConn(_, op) => ConnStepApplies(cap, s, c, op); ChannelConn(s, c, op);
    case _ => StepFrame(cap, s, l);
  }

  lemma DoneCloses(cap: nat, s: State, l: Label)
    requires Enabled(s, l) && s.doneCloses == (if s.latched then 1 else 0)
    ensures var s' := Apply(cap, s, l);
            && s'.doneCloses == (if s'.latched then 1 else 0) && s.doneCloses <= s'.doneCloses
  {
    StepFrame(cap, s, l);
    hide Enabled, Apply;
  }

  lemma ChannelStep(cap: nat, s: State, l: Label)
    requires ChannelInv(s) && Enabled(s, l)
    ensures ChannelInv(Apply(cap, s, l))
  {
    hide Enabled, Apply;
    DoneCloses(cap, s, l);
    forall c | c in Apply(cap, s, l).conns
      ensures ChannelOk(Apply(cap, s, l).doneCloses > 0, Apply(cap, s, l).conns[c])
    {
      if c in Touched(s, l) { ChannelTouched(cap, s, l, c); } else { OthersKept(cap, s, l, c); }
    }
  }

  // ---------------------------------------------------------------- the index

  /** No step but arriving, inserting and removing touches the index or a call's liveness. */
  lemma IndexKept(cap: nat, s: State, l: Label, c: ConnId)
    requires Enabled(s, l) && !(l.OnConn? && l.cop.DoInsert?) && !(l.OnConn? && l.cop.DoRemove?)
    ensures Apply(cap, s, l).index == s.index
    ensures c in s.conns ==>
              && c in Apply(cap, s, l).conns
              && Live(Apply(cap, s, l).conns[c].pc) == Live(s.conns[c].pc)
              && Apply(cap, s, l).conns[c].account == s.conns[c].account
    ensures c !in s.conns && c in Apply(cap, s, l).conns ==> Apply(cap, s, l).conns[c].pc == Inserting
  {
    StepFrame(cap, s, l);
    hide Enabled, Apply;
  }

  lemma IndexInsertOk(s: State, c: ConnId)
    requires IndexInv(s) && At(s, c, Inserting)
    ensures IndexInv(Insert(s, c))
  {}

  lemma IndexRemoveOk(s: State, c: ConnId)
    requires IndexInv(s) && At(s, c, Leaving)
    ensures IndexInv(Remove(s, c))
  {}

  lemma IndexOtherStep(cap: nat, s: State, l: Label)
    requires IndexInv(s) && Enabled(s, l) && !(l.OnConn? && l.cop.DoInsert?) && !(l.OnConn? && l.cop.DoRemove?)
    ensures IndexInv(Apply(cap, s, l))
  {
    hide Enabled, Apply;
    var s' := Apply(cap, s, l);
    IndexKept(cap, s, l, 0);
    forall c | c in s'.conns ensures Live(s'.conns[c].pc) <==> c in Members(s'.index, s'.conns[c].account) {
      IndexKept(cap, s, l, c);
    }
    forall a, c | a in s'.index && c in s'.index[a] ensures c in s'.conns && s'.conns[c].account == a {
      IndexKept(cap, s, l, c);
    }
  }

  lemma IndexStep(cap: nat, s: State, l: Label)
    requires IndexInv(s) && Enabled(s, l)
    ensures IndexInv(Apply(cap, s, l))
  {
    hide IndexInv;
    if l.OnConn? && l.cop.DoInsert? {
      IndexInsertOk(s, l.c);
    } else if l.OnConn? && l.cop.DoRemove? {
      IndexRemoveOk(s, l.c);
    } else {
      IndexOtherStep(cap, s, l);
    }
  }

  // ---------------------------------------------------------------- publishers

  /** The one Publish call a step may change. */
  ghost function TouchedPub(l: Label): set<PubId> {
    if l.OnPub? then {l.p} else {}
  }

  lemma OtherPubsKept(cap: nat, s: State, l: Label, p: PubId)
    requires Enabled(s, l) && p !in TouchedPub(l)
    ensures p in Apply(cap, s, l).pubs <==> p in s.pubs
    ensures p in s.pubs ==> Apply(cap, s, l).pubs[p] == s.pubs[p]
  {
    StepFrame(cap, s, l);
    hide Enabled, Apply;
  }

  lemma ConnsGrow(cap: nat, s: State, l: Label, c: ConnId)
    requires Enabled(s, l) && c in s.conns
    ensures c in Apply(cap, s, l).conns && Apply(cap, s, l).conns[c].account == s.conns[c].account
  {
    StepFrame(cap, s, l);
    hide Enabled, Apply;
  }

  lemma ReturnedStays(cap: nat, s: State, l: Label, p: PubId)
    requires Enabled(s, l) && PubAt(s, p, Returned)
    ensures PubAt(Apply(cap, s, l), p, Returned) && p !in TouchedPub(l)
  {
    StepFrame(cap, s, l);
    hide Enabled, Apply;
  }

  lemma SnapshotTargets(s: State, p: PubId, targets: seq<ConnId>)
    requires IndexInv(s) && PubAt(s, p, Snapshotting) && Lists(targets, Members(s.index, s.pubs[p].account))
    ensures forall c :: c in targets ==> c in s.conns && s.conns[c].account == s.pubs[p].account
  {}

  lemma VisitOne(pub: Pub, pub': Pub)
    requires pub.next < |pub.targets| && pub'.targets == pub.targets && pub'.next == pub.next + 1
    ensures Visited(pub') == Visited(pub) + {pub.targets[pub.next]}
    ensures pub.targets[..pub'.next] == pub.targets[..pub.next] + [pub.targets[pub.next]]
  {
    assert pub.targets[..pub'.next] == pub.targets[..pub.next] + [pub.targets[pub.next]];
  }

  lemma NotYetVisited(pub: Pub, seen: set<ConnId>)
    requires pub.next < |pub.targets| && seen <= Visited(pub)
    requires forall i, j :: 0 <= i < j < |pub.targets| ==> pub.targets[i] != pub.targets[j]
    ensures pub.targets[pub.next] !in seen
  {}

  /** A Publish call on its own, apart from what it says of other calls. */
  ghost predicate PubAlone(conns: map<ConnId, Conn>, pub: Pub) {
    && pub.next <= |pub.targets|
    && (forall i, j :: 0 <= i < j < |pub.targets| ==> pub.targets[i] != pub.targets[j])
    && (forall c :: c in pub.targets ==> c in conns && conns[c].account == pub.account)
    && (pub.pc == Snapshotting ==> pub.targets == [])
    && (pub.pc == Returned ==> pub.next == |pub.targets|)
    && pub.took + pub.dropped == Visited(pub)
    && pub.took !! pub.dropped
  }

  lemma PubSend(cap: nat, s: State, p: PubId)
    requires PubEnabled(s, p, DoSend) && PubAlone(s.conns, s.pubs[p])
    ensures PubAlone(s.conns, Send(cap, s, p).pubs[p])
  {
    var pub := s.pubs[p];
    VisitOne(pub, Send(cap, s, p).pubs[p]);
    NotYetVisited(pub, pub.took);
    NotYetVisited(pub, pub.dropped);
  }

  lemma PubTouched(cap: nat, s: State, p: PubId, op: PubOp)
    requires PubEnabled(s, p, op) && IndexInv(s)
    requires p in s.pubs ==> PubAlone(s.conns, s.pubs[p])
    ensures p in PubApply(cap, s, p, op).pubs && PubAlone(s.conns, PubApply(cap, s, p, op).pubs[p])
    ensures op.DoStart? || p in s.pubs
    ensures PubApply(cap, s, p, op).pubs[p].before
         == if op.DoStart? then (set q | q in s.pubs && s.pubs[q].pc == Returned) else s.pubs[p].before
  {
    if op == DoSend {
      PubSend(cap, s, p);
      hide PubAlone;
    } else {
      PubTouchedElsewhere(cap, s, p, op);
      hide PubAlone, PubApply;
    }
  }

  lemma PubTouchedElsewhere(cap: nat, s: State, p: PubId, op: PubOp)
    requires PubEnabled(s, p, op) && IndexInv(s) && op != DoSend
    requires p in s.pubs ==> PubAlone(s.conns, s.pubs[p])
    ensures p in PubApply(cap, s, p, op).pubs && PubAlone(s.conns, PubApply(cap, s, p, op).pubs[p])
    ensures op.DoStart? || p in s.pubs
    ensures PubApply(cap, s, p, op).pubs[p].before
         == if op.DoStart? then (set q | q in s.pubs && s.pubs[q].pc == Returned) else s.pubs[p].before
  {
    if op.DoSnapshot? {
      SnapshotTargets(s, p, op.targets);
    }
    hide Send, IndexInv;
  }

  lemma PubTouchedStep(cap: nat, s: State, l: Label)
    requires Enabled(s, l) && l.OnPub? && IndexInv(s)
    requires l.p in s.pubs ==> PubAlone(s.conns, s.pubs[l.p])
    ensures l.p in Apply(cap, s, l).pubs && PubAlone(s.conns, Apply(cap, s, l).pubs[l.p])
    ensures l.pop.DoStart? || l.p in s.pubs
    ensures Apply(cap, s, l).pubs[l.p].before
         == if l.pop.DoStart? then (set q | q in s.pubs && s.pubs[q].pc == Returned) else s.pubs[l.p].before
  {
    hide PubEnabled, PubApply, PubAlone, IndexInv;
    PubTouched(cap, s, l.p, l.pop);
  }

  lemma PubStep(cap: nat, s: State, l: Label)
    requires IndexInv(s) && PubInv(s) && Enabled(s, l)
    ensures PubInv(Apply(cap, s, l))
  {
    hide Enabled, Apply, IndexInv, Visited;
    var s' := Apply(cap, s, l);
    forall p | p in s'.pubs ensures PubOk(s', s'.pubs[p]) {
      var pub := s'.pubs[p];
      if p in TouchedPub(l) { PubTouchedStep(cap, s, l); } else { OtherPubsKept(cap, s, l, p); }
      assert PubAlone(s.conns, pub);
      forall c | c in pub.targets ensures c in s'.conns && s'.conns[c].account == pub.account {
        ConnsGrow(cap, s, l, c);
      }
      forall q | q in pub.before ensures PubAt(s', q, Returned) {
        assert PubAt(s, q, Returned);
        ReturnedStays(cap, s, l, q);
      }
    }
  }

  // ---------------------------------------------------------------- accepted frames

  /** Only a send that finds room changes what a connection accepted. */
  lemma AcceptedKept(cap: nat, s: State, l: Label, c: ConnId)
    requires Enabled(s, l) && c in Apply(cap, s, l).conns
    ensures c in s.conns ==>
      var conn, conn' := s.conns[c], Apply(cap, s, l).conns[c];
      || conn'.accepted == conn.accepted
      || (l.OnPub? && l.pop.DoSend? && c == s.pubs[l.p].targets[s.pubs[l.p].next]
          && conn'.accepted == conn.accepted + [Frame(l.p, s.pubs[l.p].account)])
    ensures c !in s.conns ==> Apply(cap, s, l).conns[c].accepted == []
  {
    StepFrame(cap, s, l);
    hide Enabled, Apply;
  }

  /** Publish calls are only added, and keep their account, their `before` and what took
      their frame. */
  ghost predicate PubsGrow(s: State, s': State) {
    forall p :: p in s.pubs ==>
      && p in s'.pubs && s'.pubs[p].account == s.pubs[p].account
      && s'.pubs[p].before == s.pubs[p].before && s.pubs[p].took <= s'.pubs[p].took
  }

  lemma PubGrows(cap: nat, s: State, l: Label, p: PubId)
    requires Enabled(s, l) && p in s.pubs
    ensures var s' := Apply(cap, s, l);
            && p in s'.pubs && s'.pubs[p].account == s.pubs[p].account
            && s'.pubs[p].before == s.pubs[p].before && s.pubs[p].took <= s'.pubs[p].took
  {
    StepFrame(cap, s, l);
    hide Enabled, Apply;
  }

  lemma PubsGrowStep(cap: nat, s: State, l: Label)
    requires Enabled(s, l)
    ensures PubsGrow(s, Apply(cap, s, l))
  {
    hide Enabled, Apply;
    forall p | p in s.pubs
      ensures var s' := Apply(cap, s, l);
            && p in s'.pubs && s'.pubs[p].account == s.pubs[p].account
            && s'.pubs[p].before == s.pubs[p].before && s.pubs[p].took <= s'.pubs[p].took
    {
      PubGrows(cap, s, l, p);
    }
  }

  lemma TookOnlyBySend(cap: nat, s: State, l: Label, p: PubId)
    requires Enabled(s, l) && p in Apply(cap, s, l).pubs
    ensures p in s.pubs && !(l.OnPub? && l.pop.DoSend?) ==> Apply(cap, s, l).pubs[p].took == s.pubs[p].took
    ensures p !in s.pubs ==> Apply(cap, s, l).pubs[p].took == {}
    ensures l.OnPub? && l.pop.DoSend? ==>
              && p in s.pubs && l.p in s.pubs
              && (|| Apply(cap, s, l).pubs[p].took == s.pubs[p].took
                  || (p == l.p
                      && Apply(cap, s, l).pubs[p].took == s.pubs[p].took + {s.pubs[p].targets[s.pubs[p].next]}))
  {
    StepFrame(cap, s, l);
    hide Enabled, Apply;
  }

  lemma AcceptedFrame(s: State, s': State, c: ConnId, conn: Conn, conn': Conn)
    requires AcceptedOk(s, c, conn) && PubsGrow(s, s')
    requires conn'.accepted == conn.accepted && conn'.account == conn.account
    ensures AcceptedOk(s', c, conn')
  {}

  /** A frame goes behind frames of other calls, none of which waited for this one to
      return. */
  lemma AcceptedAppend(s: State, s': State, c: ConnId, conn: Conn, conn': Conn, f: Frame)
    requires AcceptedOk(s, c, conn) && PubsGrow(s, s')
    requires conn'.accepted == conn.accepted + [f] && conn'.account == conn.account == f.account
    requires f.pub in s.pubs && s.pubs[f.pub].account == f.account && c !in s.pubs[f.pub].took
    requires c in s'.pubs[f.pub].took
    requires forall q :: q in s.pubs ==> f.pub !in s.pubs[q].before
    ensures AcceptedOk(s', c, conn')
  {
    forall i | 0 <= i < |conn.accepted|
      ensures conn.accepted[i] != f && f.pub !in s'.pubs[conn.accepted[i].pub].before
    {
      assert c in s.pubs[conn.accepted[i].pub].took;
    }
  }

  lemma SendingIsNoOnesPast(s: State, p: PubId, q: PubId)
    requires PubInv(s) && PubAt(s, p, Sending) && q in s.pubs
    ensures p !in s.pubs[q].before
  {
    assert PubOk(s, s.pubs[q]);
    assert !PubAt(s, p, Returned);
  }

  lemma SendFacts(s: State, p: PubId, c: ConnId)
    requires PubInv(s) && AcceptedInv(s) && PubAt(s, p, Sending) && c in s.conns
    ensures PubOk(s, s.pubs[p]) && AcceptedOk(s, c, s.conns[c])
    ensures forall q :: q in s.pubs ==> p !in s.pubs[q].before
  {
    forall q | q in s.pubs ensures p !in s.pubs[q].before { SendingIsNoOnesPast(s, p, q); }
    hide PubOk, AcceptedOk;
  }

  lemma AcceptedSend(cap: nat, s: State, p: PubId, c: ConnId)
    requires PubInv(s) && AcceptedInv(s) && Enabled(s, OnPub(p, DoSend)) && c in s.conns
    ensures c in Send(cap, s, p).conns && AcceptedOk(Send(cap, s, p), c, Send(cap, s, p).conns[c])
  {
    hide Enabled, Apply, PubInv, AcceptedInv, AcceptedOk, Visited, PubsGrow, Send;
    SendApplies(cap, s, p);
    var s' := Send(cap, s, p);
    PubsGrowStep(cap, s, OnPub(p, DoSend));
    PubFrame(cap, s, p, DoSend);
    SendFacts(s, p, c);
    if s'.conns[c].accepted == s.conns[c].accepted {
      AcceptedFrame(s, s', c, s.conns[c], s'.conns[c]);
    } else {
      NotYetVisited(s.pubs[p], s.pubs[p].took);
      AcceptedAppend(s, s', c, s.conns[c], s'.conns[c], Frame(p, s.pubs[p].account));
    }
  }

  lemma AcceptedConn(cap: nat, s: State, l: Label, c: ConnId)
    requires PubInv(s) && AcceptedInv(s) && Enabled(s, l) && c in Apply(cap, s, l).conns
    ensures AcceptedOk(Apply(cap, s, l), c, Apply(cap, s, l).conns[c])
  {
    if c in s.conns && l.OnPub? && l.pop.DoSend? {
      AcceptedSend(cap, s, l.p, c);
    } else {
      hide Enabled, Apply, PubInv, PubsGrow;
      AcceptedKept(cap, s, l, c);
      if c in s.conns {
        ConnsGrow(cap, s, l, c);
        PubsGrowStep(cap, s, l);
        AcceptedFrame(s, Apply(cap, s, l), c, s.conns[c], Apply(cap, s, l).conns[c]);
      }
    }
  }

  lemma TookConn(cap: nat, s: State, l: Label, p: PubId, c: ConnId)
    requires AcceptedInv(s) && Enabled(s, l)
    requires p in Apply(cap, s, l).pubs && c in Apply(cap, s, l).pubs[p].took
    ensures var s' := Apply(cap, s, l); c in s'.conns && Frame(p, s'.pubs[p].account) in s'.conns[c].accepted
  {
    StepFrame(cap, s, l);
    hide Enabled, Apply;
    TookOnlyBySend(cap, s, l, p);
    if p in s.pubs && c in s.pubs[p].took {
      ConnsGrow(cap, s, l, c);
      AcceptedKept(cap, s, l, c);
      PubGrows(cap, s, l, p);
    } else {
      var old' := s.conns[c].accepted;
      assert Apply(cap, s, l).conns[c].accepted == old' + [Frame(p, s.pubs[p].account)];
      assert Apply(cap, s, l).conns[c].accepted[|old'|] == Frame(p, s.pubs[p].account);
    }
  }

  lemma AcceptedStep(cap: nat, s: State, l: Label)
    requires PubInv(s) && AcceptedInv(s) && Enabled(s, l)
    ensures AcceptedInv(Apply(cap, s, l))
  {
    hide Enabled, Apply, PubInv, AcceptedOk;
    var s' := Apply(cap, s, l);
    forall c | c in s'.conns ensures AcceptedOk(s', c, s'.conns[c]) {
      AcceptedConn(cap, s, l, c);
    }
    forall p, c | p in s'.pubs && c in s'.pubs[p].took
      ensures c in s'.conns && Frame(p, s'.pubs[p].account) in s'.conns[c].accepted
    {
      TookConn(cap, s, l, p, c);
    }
  }

  // ---------------------------------------------------------------- stop calls

  /** The one Close or BroadcastReconnect call a step may change. */
  ghost function TouchedStop(l: Label): set<StopId> {
    if l.OnStop? then {l.k} else {}
  }

  lemma OtherStopsKept(cap: nat, s: State, l: Label, k: StopId)
    requires Enabled(s, l) && k !in TouchedStop(l)
    ensures k in Apply(cap, s, l).stops <==> k in s.stops
    ensures k in s.stops ==> Apply(cap, s, l).stops[k] == s.stops[k]
  {
    StepFrame(cap, s, l);
    hide Enabled, Apply;
  }

  /** Once the hub is latched no call starts to read, and no socket ever reopens. */
  lemma NoNewReaders(cap: nat, s: State, l: Label, c: ConnId)
    requires Enabled(s, l) && s.doneCloses > 0 && At(Apply(cap, s, l), c, Reading)
    ensures At(s, c, Reading) && (Apply(cap, s, l).conns[c].open ==> s.conns[c].open)
  {
    StepFrame(cap, s, l);
    hide Enabled, Apply;
  }

  lemma StaysLatched(cap: nat, s: State, l: Label)
    requires Enabled(s, l) && s.latched
    ensures Apply(cap, s, l).latched
  {
    StepFrame(cap, s, l);
    hide Enabled, Apply;
  }

  lemma StopKept(cap: nat, s: State, l: Label, stop: Stop)
    requires Enabled(s, l) && ChannelInv(s) && StopOk(s, stop)
    ensures StopOk(Apply(cap, s, l), stop)
  {
    var s' := Apply(cap, s, l);
    forall i | 0 <= i < |stop.targets| ensures stop.targets[i] in s'.conns { ConnsGrow(cap, s, l, stop.targets[i]); }
    if s.latched {
      StaysLatched(cap, s, l);
      hide Enabled, Apply;
      forall c | At(s', c, Reading) ensures At(s, c, Reading) && (s'.conns[c].open ==> s.conns[c].open) {
        NoNewReaders(cap, s, l, c);
      }
    }
  }

  lemma CollectOk(s: State, k: StopId, targets: seq<ConnId>)
    requires IndexInv(s) && StopInv(s) && StopAt(s, k, Collecting) && Lists(targets, Everyone(s.index))
    ensures StopOk(Collect(s, k, targets), Collect(s, k, targets).stops[k])
  {
    var s' := Collect(s, k, targets);
    var stop := s'.stops[k];
    assert StopOk(s, s.stops[k]);
    assert stop.targets[stop.next..] == targets;
    forall c | At(s', c, Reading) ensures c in targets {
      assert c in Members(s.index, s.conns[c].account);
    }
    forall i | 0 <= i < |targets| ensures targets[i] in s.conns { assert targets[i] in targets; }
  }

  lemma CloseSocketOk(s: State, k: StopId)
    requires StopInv(s) && HasNext(s, k)
    ensures StopOk(CloseSocket(s, k), CloseSocket(s, k).stops[k])
  {
    var stop := s.stops[k];
    assert StopOk(s, stop);
    assert stop.targets[stop.next..] == [stop.targets[stop.next]] + stop.targets[stop.next + 1..];
  }

  lemma StopTouched(s: State, k: StopId, op: StopOp)
    requires IndexInv(s) && StopInv(s) && StopEnabled(s, k, op)
    ensures k in StopApply(s, k, op).stops && StopOk(StopApply(s, k, op), StopApply(s, k, op).stops[k])
  {
    if op.DoCollect? {
      CollectOk(s, k, op.targets);
    } else if op.DoCloseSocket? {
      CloseSocketOk(s, k);
    } else if k in s.stops {
      assert StopOk(s, s.stops[k]);
    }
  }

  lemma StopStep(cap: nat, s: State, l: Label)
    requires IndexInv(s) && ChannelInv(s) && StopInv(s) && Enabled(s, l)
    ensures StopInv(Apply(cap, s, l))
  {
    hide ConnEnabled, ConnApply, PubEnabled, PubApply, StopEnabled, StopApply, StopOk, IndexInv, ChannelInv;
    var s' := Apply(cap, s, l);
    forall k | k in s'.stops ensures StopOk(s', s'.stops[k]) {
      if k in TouchedStop(l) {
        StopTouched(s, k, l.sop);
      } else {
        OtherStopsKept(cap, s, l, k);
        StopKept(cap, s, l, s.stops[k]);
      }
    }
  }

  // ---------------------------------------------------------------- every run

  lemma InvInit(cap: nat)
    ensures Inv(cap, INIT)
  {}

  /** Every step keeps the invariant. */
  lemma InvStep(cap: nat, s: State, l: Label)
    requires Inv(cap, s) && Enabled(s, l)
    ensures Inv(cap, Apply(cap, s, l))
  {
    hide Enabled, Apply, IndexInv, QueueInv, ChannelInv, PubInv, AcceptedInv, StopInv;
    IndexStep(cap, s, l);
    QueueStep(cap, s, l);
    ChannelStep(cap, s, l);
    PubStep(cap, s, l);
    AcceptedStep(cap, s, l);
    StopStep(cap, s, l);
  }

  /** A stretch that starts in the invariant stays in it. */
  lemma {:induction false} InvSteps(cap: nat, states: seq<State>, labels: seq<Label>, n: nat)
    requires Steps(cap, states, labels) && Inv(cap, states[0]) && n < |states|
    ensures Inv(cap, states[n])
  {
    if n > 0 {
      InvSteps(cap, states, labels, n - 1);
      InvStep(cap, states[n - 1], labels[n - 1]);
    }
  }
}
