/** The realtime hub of internal/realtime/inmem.go as a step system.

    One step is one thing a goroutine does between two points where another may run: a
    section under the hub's mutex, one channel operation, one socket call. Every call of
    Register, Publish, Close and BroadcastReconnect and every writer goroutine has its own
    program counter, and a run interleaves them freely. A socket is open or closed; pings,
    culling and the peer closing are one step that closes it at any time. */
module HubSteps {

  type ConnId = nat
  type PubId = nat
  type StopId = nat
  type Account = string

  datatype Frame = Frame(pub: PubId, account: Account)

  /** What the writer goroutine did with a frame it took from the queue. */
  datatype Outcome = Written | Skipped | Failed
  datatype Sent = Sent(frame: Frame, outcome: Outcome)

  /** Where a Register call stands. */
  datatype RegPc = Inserting | Checking | Reading | Leaving | Closing | Gone

  datatype WriterPc = NotStarted | Waiting | Writing(frame: Frame) | Stopped

  /** A connection together with its Register call and its writer. `accepted`, `sent`,
      `lateReads` and `reconnects` are history. */
  datatype Conn = Conn(
    account: Account, pc: RegPc, writer: WriterPc, open: bool, ctxDone: bool,
    queue: seq<Frame>, doneCloses: nat,
    accepted: seq<Frame>, sent: seq<Sent>, lateReads: nat, reconnects: nat)

  datatype PubPc = Snapshotting | Sending | Returned

  /** A Publish call. `before` records the calls that had returned when it started,
      `took` and `dropped` what became of its frame at each target. */
  datatype Pub = Pub(
    account: Account, pc: PubPc, targets: seq<ConnId>, next: nat,
    before: set<PubId>, took: set<ConnId>, dropped: set<ConnId>)

  datatype StopKind = Close | Broadcast
  datatype StopPc = Latching | Collecting | Shutting | Finished

  /** A Close or BroadcastReconnect call. */
  datatype Stop = Stop(kind: StopKind, pc: StopPc, targets: seq<ConnId>, next: nat, wrote: bool)

  /** `latched` is the sync.Once, `doneCloses` how often `close(h.done)` ran. */
  datatype State = State(
    index: map<Account, set<ConnId>>, latched: bool, doneCloses: nat,
    conns: map<ConnId, Conn>, pubs: map<PubId, Pub>, stops: map<StopId, Stop>)

  const INIT := State(map[], false, 0, map[], map[], map[])

  ghost predicate Done(s: State) { s.doneCloses > 0 }

  // ---------------------------------------------------------------- the index

  /** The map a registration leaves behind; `C` stands for connections. */
  function IndexInsert<C>(index: map<Account, set<C>>, a: Account, c: C): map<Account, set<C>> {
    index[a := (if a in index then index[a] else {}) + {c}]
  }

  function IndexRemove<C(==)>(index: map<Account, set<C>>, a: Account, c: C): map<Account, set<C>> {
    if a !in index then index
    else if index[a] - {c} == {} then index - {a}
    else index[a := index[a] - {c}]
  }

  function Members<C>(index: map<Account, set<C>>, a: Account): set<C> {
    if a in index then index[a] else {}
  }

  function Everyone(index: map<Account, set<ConnId>>): set<ConnId> {
    set a, c | a in index && c in index[a] :: c
  }

  /** `targets` lists the set once each, in the arbitrary order of a Go map. */
  ghost predicate Lists(targets: seq<ConnId>, members: set<ConnId>) {
    && (forall i, j :: 0 <= i < j < |targets| ==> targets[i] != targets[j])
    && (forall c :: c in targets <==> c in members)
  }

  // ---------------------------------------------------------------- steps of Register

  function Put(s: State, c: ConnId, conn: Conn): State { s.(conns := s.conns[c := conn]) }

  function Fresh(a: Account): Conn { Conn(a, Inserting, NotStarted, true, false, [], 0, [], [], 0, 0) }

  ghost predicate At(s: State, c: ConnId, pc: RegPc) { c in s.conns && s.conns[c].pc == pc }

  function Insert(s: State, c: ConnId): State
    requires c in s.conns
  {
    Put(s, c, s.conns[c].(pc := Checking, writer := Waiting)).(index := IndexInsert(s.index, s.conns[c].account, c))
  }

  /** The select at the head of the read loop. */
  function Check(s: State, c: ConnId): State
    requires c in s.conns
  {
    Put(s, c, s.conns[c].(pc := if s.conns[c].ctxDone || s.doneCloses > 0 then Leaving else Reading))
  }

  function ReadOk(s: State, c: ConnId): State
    requires c in s.conns
  {
    var conn := s.conns[c];
    Put(s, c, conn.(pc := Checking, lateReads := if s.doneCloses > 0 then conn.lateReads + 1 else conn.lateReads))
  }

  function ReadErr(s: State, c: ConnId): State
    requires c in s.conns
  {
    Put(s, c, s.conns[c].(pc := Leaving))
  }

  /** The locked half of deregister. */
  function Remove(s: State, c: ConnId): State
    requires c in s.conns
  {
    Put(s, c, s.conns[c].(pc := Closing)).(index := IndexRemove(s.index, s.conns[c].account, c))
  }

  /** close(c.done), the other half. */
  function CloseDone(s: State, c: ConnId): State
    requires c in s.conns
  {
    Put(s, c, s.conns[c].(pc := Gone, doneCloses := s.conns[c].doneCloses + 1))
  }

  // ---------------------------------------------------------------- steps of a writer

  ghost predicate WriterAt(s: State, c: ConnId) { c in s.conns && s.conns[c].writer == Waiting }

  function Take(s: State, c: ConnId): State
    requires c in s.conns && s.conns[c].queue != []
  {
    var conn := s.conns[c];
    Put(s, c, conn.(writer := Writing(conn.queue[0]), queue := conn.queue[1..]))
  }

  /** The end of ws.Write: written, cancelled and passed over, or failed. */
  function Write(s: State, c: ConnId, outcome: Outcome): State
    requires c in s.conns && s.conns[c].writer.Writing?
  {
    var conn := s.conns[c];
    Put(s, c, conn.(
      sent := conn.sent + [Sent(conn.writer.frame, outcome)],
      writer := if outcome == Failed then Stopped else Waiting,
      open := conn.open && outcome != Failed))
  }

  function StopWriter(s: State, c: ConnId): State
    requires c in s.conns
  {
    Put(s, c, s.conns[c].(writer := Stopped))
  }

  // ---------------------------------------------------------------- steps of Publish

  function PutPub(s: State, p: PubId, pub: Pub): State { s.(pubs := s.pubs[p := pub]) }

  function Start(s: State, p: PubId, a: Account): State {
    var returned := set q | q in s.pubs && s.pubs[q].pc == Returned;
    PutPub(s, p, Pub(a, Snapshotting, [], 0, returned, {}, {}))
  }

  function Snapshot(s: State, p: PubId, targets: seq<ConnId>): State
    requires p in s.pubs
  {
    PutPub(s, p, s.pubs[p].(pc := Sending, targets := targets))
  }

  /** One turn of the send loop: enqueue if there is room, drop otherwise. */
  function Send(cap: nat, s: State, p: PubId): State
    requires p in s.pubs && s.pubs[p].next < |s.pubs[p].targets|
    requires s.pubs[p].targets[s.pubs[p].next] in s.conns
  {
    var pub := s.pubs[p];
    var c := pub.targets[pub.next];
    var conn := s.conns[c];
    var frame := Frame(p, pub.account);
    if |conn.queue| < cap then
      PutPub(Put(s, c, conn.(queue := conn.queue + [frame], accepted := conn.accepted + [frame])), p,
             pub.(next := pub.next + 1, took := pub.took + {c}))
    else
      PutPub(s, p, pub.(next := pub.next + 1, dropped := pub.dropped + {c}))
  }

  function Return(s: State, p: PubId): State
    requires p in s.pubs
  {
    PutPub(s, p, s.pubs[p].(pc := Returned))
  }

  // ---------------------------------------------------------------- steps of Close and BroadcastReconnect

  function PutStop(s: State, k: StopId, stop: Stop): State { s.(stops := s.stops[k := stop]) }

  function StartStop(s: State, k: StopId, kind: StopKind): State {
    PutStop(s, k, Stop(kind, if kind == Close then Latching else Collecting, [], 0, false))
  }

  /** once.Do(close(h.done)). */
  function Latch(s: State, k: StopId): State
    requires k in s.stops
  {
    PutStop(s, k, s.stops[k].(pc := Collecting)).(
      latched := true, doneCloses := if s.latched then s.doneCloses else s.doneCloses + 1)
  }

  function Collect(s: State, k: StopId, targets: seq<ConnId>): State
    requires k in s.stops
  {
    PutStop(s, k, s.stops[k].(pc := Shutting, targets := targets))
  }

  /** BroadcastReconnect's direct write, past the queue. */
  function WriteReconnect(s: State, k: StopId): State
    requires k in s.stops && s.stops[k].next < |s.stops[k].targets|
    requires s.stops[k].targets[s.stops[k].next] in s.conns
  {
    var c := s.stops[k].targets[s.stops[k].next];
    var conn := s.conns[c];
    PutStop(Put(s, c, conn.(reconnects := conn.reconnects + 1)), k, s.stops[k].(wrote := true))
  }

  function CloseSocket(s: State, k: StopId): State
    requires k in s.stops && s.stops[k].next < |s.stops[k].targets|
    requires s.stops[k].targets[s.stops[k].next] in s.conns
  {
    var c := s.stops[k].targets[s.stops[k].next];
    PutStop(Put(s, c, s.conns[c].(open := false)), k, s.stops[k].(next := s.stops[k].next + 1, wrote := false))
  }

  function Finish(s: State, k: StopId): State
    requires k in s.stops
  {
    PutStop(s, k, s.stops[k].(pc := Finished))
  }

  // ---------------------------------------------------------------- the step relation

  /** What a Register call, its writer or the world does to one connection. */
  datatype ConnOp =
    | Arrive(a: Account) | DoInsert | DoCheck | ReadMessage | ReadFailed | DoRemove | DoCloseDone
    | DoTake | DoWrite(outcome: Outcome) | DoStopWriter
    | SocketClosed | Cancelled

  datatype PubOp = DoStart(a: Account) | DoSnapshot(targets: seq<ConnId>) | MarshalFailed | DoSend | DoReturn

  datatype StopOp =
    | DoStartStop(kind: StopKind) | DoLatch | DoCollect(targets: seq<ConnId>)
    | DoWriteReconnect | DoCloseSocket | DoFinish

  datatype Label = OnConn(c: ConnId, cop: ConnOp) | OnPub(p: PubId, pop: PubOp) | OnStop(k: StopId, sop: StopOp)

  ghost predicate PubAt(s: State, p: PubId, pc: PubPc) { p in s.pubs && s.pubs[p].pc == pc }

  ghost predicate StopAt(s: State, k: StopId, pc: StopPc) { k in s.stops && s.stops[k].pc == pc }

  /** The stop call has a connection left to shut, and that connection exists. */
  ghost predicate HasNext(s: State, k: StopId) {
    && StopAt(s, k, Shutting) && s.stops[k].next < |s.stops[k].targets|
    && s.stops[k].targets[s.stops[k].next] in s.conns
  }

  ghost predicate ConnEnabled(s: State, c: ConnId, op: ConnOp) {
    match op
    case Arrive(a) => c !in s.conns
    case DoInsert => At(s, c, Inserting)
    case DoCheck => At(s, c, Checking)
    case ReadMessage => At(s, c, Reading) && s.conns[c].open
    case ReadFailed => At(s, c, Reading) && (!s.conns[c].open || s.conns[c].ctxDone)
    case DoRemove => At(s, c, Leaving)
    case DoCloseDone => At(s, c, Closing)
    case DoTake => WriterAt(s, c) && s.conns[c].queue != []
    case DoWrite(outcome) => c in s.conns && s.conns[c].writer.Writing? && (outcome == Written ==> s.conns[c].open)
    case DoStopWriter => WriterAt(s, c) && (s.conns[c].doneCloses > 0 || Done(s))
    case SocketClosed => c in s.conns
    case Cancelled => c in s.conns
  }

  ghost predicate PubEnabled(s: State, p: PubId, op: PubOp) {
    match op
    case DoStart(a) => p !in s.pubs
    case DoSnapshot(targets) => PubAt(s, p, Snapshotting) && Lists(targets, Members(s.index, s.pubs[p].account))
    case MarshalFailed => PubAt(s, p, Snapshotting)
    case DoSend =>
      && PubAt(s, p, Sending) && s.pubs[p].next < |s.pubs[p].targets|
      && s.pubs[p].targets[s.pubs[p].next] in s.conns
    case DoReturn => PubAt(s, p, Sending) && s.pubs[p].next == |s.pubs[p].targets|
  }

  ghost predicate StopEnabled(s: State, k: StopId, op: StopOp) {
    match op
    case DoStartStop(kind) => k !in s.stops
    case DoLatch => StopAt(s, k, Latching)
    case DoCollect(targets) => StopAt(s, k, Collecting) && Lists(targets, Everyone(s.index))
    case DoWriteReconnect => HasNext(s, k) && s.stops[k].kind == Broadcast && !s.stops[k].wrote
    case DoCloseSocket => HasNext(s, k) && (s.stops[k].kind == Broadcast ==> s.stops[k].wrote)
    case DoFinish => StopAt(s, k, Shutting) && s.stops[k].next == |s.stops[k].targets|
  }

  ghost predicate Enabled(s: State, l: Label) {
    match l
    case OnConn(c, op) => ConnEnabled(s, c, op)
    case OnPub(p, op) => PubEnabled(s, p, op)
    case OnStop(k, op) => StopEnabled(s, k, op)
  }

  ghost function ConnApply(s: State, c: ConnId, op: ConnOp): State
    requires ConnEnabled(s, c, op)
  {
    match op
    case Arrive(a) => Put(s, c, Fresh(a))
    case DoInsert => Insert(s, c)
    case DoCheck => Check(s, c)
    case ReadMessage => ReadOk(s, c)
    case ReadFailed => ReadErr(s, c)
    case DoRemove => Remove(s, c)
    case DoCloseDone => CloseDone(s, c)
    case DoTake => Take(s, c)
    case DoWrite(outcome) => Write(s, c, outcome)
    case DoStopWriter => StopWriter(s, c)
    case SocketClosed => Put(s, c, s.conns[c].(open := false))
    case Cancelled => Put(s, c, s.conns[c].(ctxDone := true))
  }

  ghost function PubApply(cap: nat, s: State, p: PubId, op: PubOp): State
    requires PubEnabled(s, p, op)
  {
    match op
    case DoStart(a) => Start(s, p, a)
    case DoSnapshot(targets) => Snapshot(s, p, targets)
    case MarshalFailed => Return(s, p)
    case DoSend => Send(cap, s, p)
    case DoReturn => Return(s, p)
  }

  ghost function StopApply(s: State, k: StopId, op: StopOp): State
    requires StopEnabled(s, k, op)
  {
    match op
    case DoStartStop(kind) => StartStop(s, k, kind)
    case DoLatch => Latch(s, k)
    case DoCollect(targets) => Collect(s, k, targets)
    case DoWriteReconnect => WriteReconnect(s, k)
    case DoCloseSocket => CloseSocket(s, k)
    case DoFinish => Finish(s, k)
  }

  ghost function Apply(cap: nat, s: State, l: Label): State
    requires Enabled(s, l)
  {
    match l
    case OnConn(c, op) => ConnApply(s, c, op)
    case OnPub(p, op) => PubApply(cap, s, p, op)
    case OnStop(k, op) => StopApply(s, k, op)
  }

  /** A stretch of execution, from any state. */
  ghost predicate Steps(cap: nat, states: seq<State>, labels: seq<Label>) {
    && |states| == |labels| + 1
    && forall i :: 0 <= i < |labels| ==>
         Enabled(states[i], labels[i]) && states[i + 1] == Apply(cap, states[i], labels[i])
  }

  /** A run of the hub from its start. */
  ghost predicate Run(cap: nat, states: seq<State>, labels: seq<Label>) {
    Steps(cap, states, labels) && states[0] == INIT
  }
}
