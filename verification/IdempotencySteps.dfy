/** The replay cache with requests side by side: the lookup, the handler and the insert of
    one request are steps of their own, and those of others may come between. */
module IdempotencySteps {
  import opened TimeText
  import opened Idempotency

  type CallId = nat

  /** Where a request stands; `from` is the request whose answer was replayed. */
  datatype Pc = Arrived | Missed | Storing | Done | Replayed(code: int, body: seq<int>, from: CallId)

  /** A keyed request and what its handler does if it runs. */
  datatype Call = Call(route: string, key: string, scope: string, hash: string, ops: seq<Op>, pc: Pc)

  /** `origin` remembers which request stored each row. */
  datatype State = State(rows: Rows, calls: map<CallId, Call>, origin: map<(string, string), CallId>)

  const INIT := State(map[], map[], map[])

  datatype Label =
    | Arrive(k: CallId, route: string, key: string, scope: string, hash: string, ops: seq<Op>)
    | LookUp(k: CallId, now: int, ok: bool)
    | Handle(k: CallId)
    | Insert(k: CallId, now: int, ok: bool)

  ghost predicate At(s: State, k: CallId, pc: Pc) { k in s.calls && s.calls[k].pc == pc }

  ghost predicate Enabled(s: State, l: Label) {
    match l
    case Arrive(k, _, key, _, _, _) => k !in s.calls && key != ""
    case LookUp(k, now, _) => At(s, k, Arrived) && InRange(now)
    case Handle(k) => At(s, k, Missed)
    case Insert(k, now, _) => At(s, k, Storing) && InRange(now)
  }

  function Move(s: State, k: CallId, pc: Pc): State
    requires k in s.calls
  {
    s.(calls := s.calls[k := s.calls[k].(pc := pc)])
  }

  function Slot(c: Call): (string, string) { (c.key, c.scope) }

  /** The row a lookup returns. */
  ghost predicate Found(rows: Rows, c: Call, now: int)
    requires 0 <= now
  {
    Slot(c) in rows && rows[Slot(c)].hash == c.hash && Less(Format(now), rows[Slot(c)].expires)
  }

  ghost predicate Inserted(ttl: nat, rows: Rows, c: Call, now: int, ok: bool)
    requires 0 <= now
  {
    ok && Expiry(now, ttl).Some? && Slot(c) !in rows
  }

  ghost function Apply(ttl: nat, s: State, l: Label): State
    requires Enabled(s, l)
  {
    match l
    case Arrive(k, route, key, scope, hash, ops) =>
      s.(calls := s.calls[k := Call(route, key, scope, hash, ops, Arrived)])
    case LookUp(k, now, ok) =>
      var c := s.calls[k];
      if ok && Found(s.rows, c, now) then
        var row := s.rows[Slot(c)];
        Move(s, k, Replayed(row.code, row.body, if Slot(c) in s.origin then s.origin[Slot(c)] else k))
      else Move(s, k, Missed)
    case Handle(k) => Move(s, k, if 200 <= CapturedCode(s.calls[k].ops) < 300 then Storing else Done)
    case Insert(k, now, ok) =>
      var c := s.calls[k];
      if Inserted(ttl, s.rows, c, now, ok) then
        var row := Row(c.route, c.hash, CapturedCode(c.ops), Body(c.ops), Expiry(now, ttl).value);
        Move(s.(rows := s.rows[Slot(c) := row], origin := s.origin[Slot(c) := k]), k, Done)
      else Move(s, k, Done)
  }

  // ---------------------------------------------------------------- the invariant

  /** The call ran its handler and what it captured is a 2xx answer. */
  ghost predicate Stored(calls: map<CallId, Call>, k: CallId, key: string, scope: string, hash: string,
                         code: int, body: seq<int>)
  {
    && k in calls && calls[k].pc == Done
    && calls[k].key == key && calls[k].scope == scope && calls[k].hash == hash
    && code == CapturedCode(calls[k].ops) && body == Body(calls[k].ops) && 200 <= code < 300
  }

  ghost predicate RowsOk(s: State) {
    forall x :: x in s.rows ==>
      x in s.origin && Stored(s.calls, s.origin[x], x.0, x.1, s.rows[x].hash, s.rows[x].code, s.rows[x].body)
  }

  ghost predicate ReplaysOk(s: State) {
    forall k :: k in s.calls && s.calls[k].pc.Replayed? ==>
      var c := s.calls[k];
      Stored(s.calls, c.pc.from, c.key, c.scope, c.hash, c.pc.code, c.pc.body)
  }

  ghost predicate StoringOk(s: State) {
    forall k :: k in s.calls && s.calls[k].pc == Storing ==> 200 <= CapturedCode(s.calls[k].ops) < 300
  }

  ghost predicate Inv(s: State) { RowsOk(s) && ReplaysOk(s) && StoringOk(s) }

  /** Answered calls and rows stay as they are. */
  ghost predicate Keeps(s: State, s': State) {
    && (forall x :: x in s.rows ==> x in s'.rows && s'.rows[x] == s.rows[x])
    && (forall k :: k in s.calls && (s.calls[k].pc == Done || s.calls[k].pc.Replayed?) ==>
          k in s'.calls && s'.calls[k] == s.calls[k])
  }

  lemma KeepsStep(ttl: nat, s: State, l: Label)
    requires Enabled(s, l)
    ensures Keeps(s, Apply(ttl, s, l))
    ensures l.k in Apply(ttl, s, l).calls
    ensures forall k :: k in s.calls && k != l.k ==>
              k in Apply(ttl, s, l).calls && Apply(ttl, s, l).calls[k] == s.calls[k]
    ensures Apply(ttl, s, l).calls.Keys == s.calls.Keys + {l.k}
  {
    hide Found, CapturedCode, Body, Expiry, InRange;
  }

  lemma StoredStays(s: State, s': State)
    requires Keeps(s, s')
    ensures forall k, key, scope, hash, code, body ::
              Stored(s.calls, k, key, scope, hash, code, body) ==> Stored(s'.calls, k, key, scope, hash, code, body)
  {
    hide CapturedCode, Body;
  }

  lemma RowsStep(ttl: nat, s: State, l: Label)
    requires RowsOk(s) && StoringOk(s) && Enabled(s, l)
    ensures RowsOk(Apply(ttl, s, l))
  {
    KeepsStep(ttl, s, l);
    StoredStays(s, Apply(ttl, s, l));
    if l.Insert? {
      StoredByInsert(ttl, s, l);
    }
    hide Found, CapturedCode, Body, Expiry, InRange, Stored, Keeps;
  }

  lemma StoredByInsert(ttl: nat, s: State, l: Label)
    requires StoringOk(s) && Enabled(s, l) && l.Insert?
    ensures var c := s.calls[l.k];
            Stored(Apply(ttl, s, l).calls, l.k, c.key, c.scope, c.hash, CapturedCode(c.ops), Body(c.ops))
  {
    hide Found, CapturedCode, Body, Expiry, InRange;
  }

  lemma ReplaysStep(ttl: nat, s: State, l: Label)
    requires RowsOk(s) && ReplaysOk(s) && Enabled(s, l)
    ensures ReplaysOk(Apply(ttl, s, l))
  {
    KeepsStep(ttl, s, l);
    StoredStays(s, Apply(ttl, s, l));
    hide Less, Format, CapturedCode, Body, Expiry, InRange, Stored, Keeps, Inserted;
  }

  lemma StoringStep(ttl: nat, s: State, l: Label)
    requires StoringOk(s) && Enabled(s, l)
    ensures StoringOk(Apply(ttl, s, l))
  {
    hide Found, Inserted, CapturedCode, Body, Expiry, InRange;
  }

  lemma InvStep(ttl: nat, s: State, l: Label)
    requires Inv(s) && Enabled(s, l)
    ensures Inv(Apply(ttl, s, l)) && Keeps(s, Apply(ttl, s, l))
  {
    hide Enabled, Apply, Keeps, RowsOk, ReplaysOk, StoringOk;
    KeepsStep(ttl, s, l);
    RowsStep(ttl, s, l);
    ReplaysStep(ttl, s, l);
    StoringStep(ttl, s, l);
  }

  ghost predicate Run(ttl: nat, states: seq<State>, labels: seq<Label>) {
    && |states| == |labels| + 1 && states[0] == INIT
    && forall i :: 0 <= i < |labels| ==>
         Enabled(states[i], labels[i]) && states[i + 1] == Apply(ttl, states[i], labels[i])
  }

  lemma {:induction false} RunInv(ttl: nat, states: seq<State>, labels: seq<Label>, n: nat)
    requires Run(ttl, states, labels) && n < |states|
    ensures Inv(states[n])
  {
    if n > 0 {
      RunInv(ttl, states, labels, n - 1);
      hide Inv, Enabled, Apply, Keeps;
      InvStep(ttl, states[n - 1], labels[n - 1]);
    }
  }

  lemma {:induction false} RunKeeps(ttl: nat, states: seq<State>, labels: seq<Label>, m: nat, n: nat)
    requires Run(ttl, states, labels) && m <= n < |states|
    ensures Keeps(states[m], states[n])
  {
    hide Inv, Enabled, Apply;
    if m < n {
      RunKeeps(ttl, states, labels, m, n - 1);
      RunInv(ttl, states, labels, n - 1);
      InvStep(ttl, states[n - 1], labels[n - 1]);
    }
  }

  // ---------------------------------------------------------------- in every interleaving

  /** Insert i put its row in. */
  ghost predicate Stores(ttl: nat, states: seq<State>, labels: seq<Label>, i: nat)
    requires Run(ttl, states, labels) && i < |labels|
  {
    labels[i].Insert? && Inserted(ttl, states[i].rows, states[i].calls[labels[i].k], labels[i].now, labels[i].ok)
  }

  /** However requests interleave, a row once written is never overwritten or removed. */
  lemma RowsWrittenOnce(ttl: nat, states: seq<State>, labels: seq<Label>, m: nat, n: nat, x: (string, string))
    requires Run(ttl, states, labels) && m <= n < |states| && x in states[m].rows
    ensures x in states[n].rows && states[n].rows[x] == states[m].rows[x]
  {
    RunKeeps(ttl, states, labels, m, n);
  }

  /** However requests interleave, a replayed answer is one that a request with the same
      key, scope and body hash captured from its own handler, and a 2xx. */
  lemma OnlyOwnAnswers(ttl: nat, states: seq<State>, labels: seq<Label>, n: nat, k: CallId)
    requires Run(ttl, states, labels) && n < |states| && k in states[n].calls && states[n].calls[k].pc.Replayed?
    ensures var c := states[n].calls[k];
            && c.pc.from in states[n].calls && c.pc.from != k
            && var source := states[n].calls[c.pc.from];
               && source.key == c.key && source.scope == c.scope && source.hash == c.hash
               && c.pc.code == CapturedCode(source.ops) && c.pc.body == Body(source.ops) && 200 <= c.pc.code < 300
  {
    RunInv(ttl, states, labels, n);
    hide Enabled, Apply, CapturedCode, Body;
  }

  /** Once an insert put its row in, a lookup under its key and scope is answered from it
      exactly if it gets through, has the same body hash and comes before the expiry. */
  lemma AnsweredAfterInsert(ttl: nat, states: seq<State>, labels: seq<Label>, i: nat, j: nat)
    requires Run(ttl, states, labels) && i < j < |labels| && Stores(ttl, states, labels, i) && labels[j].LookUp?
    requires Slot(states[j].calls[labels[j].k]) == Slot(states[i].calls[labels[i].k])
    ensures var first, c := states[i].calls[labels[i].k], states[j].calls[labels[j].k];
            var hit := labels[j].ok && c.hash == first.hash && Seconds(labels[j].now) < Seconds(labels[i].now) + ttl;
            && labels[j].k in states[j + 1].calls
            && (hit ==> states[j + 1].calls[labels[j].k].pc.Replayed?
                        && states[j + 1].calls[labels[j].k].pc.code == CapturedCode(first.ops)
                        && states[j + 1].calls[labels[j].k].pc.body == Body(first.ops))
            && (!hit ==> states[j + 1].calls[labels[j].k].pc == Missed)
  {
    hide Format, Less, CapturedCode, Body;
    var first, now := states[i].calls[labels[i].k], labels[i].now;
    RowsWrittenOnce(ttl, states, labels, i + 1, j, Slot(first));
    assert states[j].rows[Slot(first)]
        == Row(first.route, first.hash, CapturedCode(first.ops), Body(first.ops), Expiry(now, ttl).value);
    ExpiryText(now, ttl);
    TextOrderIsTimeOrder(labels[j].now, (Seconds(now) + ttl) * NANOS);
  }

  /** Every row was put in by an insert of its key and scope. */
  lemma {:induction false} RowsComeFromInserts(ttl: nat, states: seq<State>, labels: seq<Label>, n: nat,
                                               x: (string, string))
    returns (i: nat)
    requires Run(ttl, states, labels) && n < |states| && x in states[n].rows
    ensures i < n && Stores(ttl, states, labels, i) && Slot(states[i].calls[labels[i].k]) == x
  {
    hide Found, CapturedCode, Body, InRange, Expiry;
    if x in states[n - 1].rows {
      i := RowsComeFromInserts(ttl, states, labels, n - 1, x);
    } else {
      i := n - 1;
    }
  }

  /** Insert i answers lookup j: it went in before, under the same key, scope and body hash,
      and has not expired. */
  ghost predicate Answers(ttl: nat, states: seq<State>, labels: seq<Label>, i: nat, j: nat)
    requires Run(ttl, states, labels) && i < j < |labels| && labels[j].LookUp?
  {
    && Stores(ttl, states, labels, i)
    && Slot(states[i].calls[labels[i].k]) == Slot(states[j].calls[labels[j].k])
    && states[i].calls[labels[i].k].hash == states[j].calls[labels[j].k].hash
    && Seconds(labels[j].now) < Seconds(labels[i].now) + ttl
  }

  /** In every run a lookup is answered without running the handler if and only if it gets
      through and some insert answers it. So the handler runs again whenever nothing was
      stored under the key and scope, or what was stored is of another body or has expired,
      for rows are not replaced. */
  lemma ReplayedIff(ttl: nat, states: seq<State>, labels: seq<Label>, j: nat)
    requires Run(ttl, states, labels) && j < |labels| && labels[j].LookUp?
    ensures labels[j].k in states[j + 1].calls
    ensures states[j + 1].calls[labels[j].k].pc.Replayed?
        <==> labels[j].ok && exists i: nat :: i < j && Answers(ttl, states, labels, i, j)
    ensures !states[j + 1].calls[labels[j].k].pc.Replayed? ==> states[j + 1].calls[labels[j].k].pc == Missed
  {
    var x := Slot(states[j].calls[labels[j].k]);
    if x in states[j].rows {
      var i := RowsComeFromInserts(ttl, states, labels, j, x);
      AnsweredAfterInsert(ttl, states, labels, i, j);
      assert labels[j].ok && states[j + 1].calls[labels[j].k].pc.Replayed? ==> Answers(ttl, states, labels, i, j);
    }
    forall i: nat | i < j && Answers(ttl, states, labels, i, j)
      ensures labels[j].ok ==> states[j + 1].calls[labels[j].k].pc.Replayed?
    {
      AnsweredAfterInsert(ttl, states, labels, i, j);
    }
    hide Less, Format, CapturedCode, Body, Expiry;
  }

  // ---------------------------------------------------------------- a request on its own

  /** A stretch of execution from any state. */
  ghost predicate Steps(ttl: nat, states: seq<State>, labels: seq<Label>) {
    && |states| == |labels| + 1
    && forall i :: 0 <= i < |labels| ==>
         Enabled(states[i], labels[i]) && states[i + 1] == Apply(ttl, states[i], labels[i])
  }

  /** How a request of the step system looks to the sequential specification. */
  function AsRequest(c: Call, now: int, lookUpOk: bool, insertOk: bool): Request {
    Request(c.route, "", c.key, c.scope, c.hash, now, c.ops, lookUpOk, insertOk)
  }

  /** The steps of a request that no other comes between. */
  function Undisturbed(k: CallId, c: Call, now: int, lookUpOk: bool, insertOk: bool, hit: bool): seq<Label> {
    [Arrive(k, c.route, c.key, c.scope, c.hash, c.ops), LookUp(k, now, lookUpOk)]
    + if hit then []
      else [Handle(k)] + (if 200 <= CapturedCode(c.ops) <= 299 then [Insert(k, now, insertOk)] else [])
  }

  /** From a lookup that found nothing. */
  lemma UndisturbedMiss(ttl: nat, s: State, k: CallId, now: int, insertOk: bool)
    returns (states: seq<State>, labels: seq<Label>)
    requires k in s.calls && s.calls[k].pc == Missed && InRange(now)
    ensures var c := s.calls[k];
            && labels == [Handle(k)] + (if 200 <= CapturedCode(c.ops) <= 299 then [Insert(k, now, insertOk)] else [])
            && |states| == |labels| + 1 && Steps(ttl, states, labels) && states[0] == s
            && k in states[|labels|].calls && states[|labels|].calls[k].pc == Done
            && states[|labels|].rows
               == if 200 <= CapturedCode(c.ops) <= 299 && Inserted(ttl, s.rows, c, now, insertOk) then
                    s.rows[Slot(c) := Row(c.route, c.hash, CapturedCode(c.ops), Body(c.ops), Expiry(now, ttl).value)]
                  else s.rows
  {
    hide CapturedCode, Body, Expiry, InRange, Found;
    var s1 := Apply(ttl, s, Handle(k));
    states, labels := [s, s1], [Handle(k)];
    if s1.calls[k].pc == Storing {
      InsertAlone(ttl, s1, k, now, insertOk);
      states, labels := [s, s1, Apply(ttl, s1, Insert(k, now, insertOk))], [Handle(k), Insert(k, now, insertOk)];
    }
  }

  lemma InsertAlone(ttl: nat, s: State, k: CallId, now: int, ok: bool)
    requires At(s, k, Storing) && InRange(now)
    ensures var c, s' := s.calls[k], Apply(ttl, s, Insert(k, now, ok));
            && k in s'.calls && s'.calls[k].pc == Done
            && s'.rows == if !Inserted(ttl, s.rows, c, now, ok) then s.rows else
                 s.rows[Slot(c) := Row(c.route, c.hash, CapturedCode(c.ops), Body(c.ops), Expiry(now, ttl).value)]
  {
    hide CapturedCode, Body;
  }

  /** From any state, a request that no other comes between leaves the rows and gets the
      answer of the sequential specification, which the middleware computes. */
  lemma UndisturbedRequest(ttl: nat, s: State, k: CallId, c: Call, now: int, lookUpOk: bool, insertOk: bool)
    returns (states: seq<State>, labels: seq<Label>)
    requires k !in s.calls && c.key != "" && InRange(now)
    ensures var (rows, reply) := Serve(ttl, s.rows, AsRequest(c, now, lookUpOk, insertOk));
            && labels == Undisturbed(k, c, now, lookUpOk, insertOk, !reply.ran)
            && Steps(ttl, states, labels) && states[0] == s && states[|labels|].rows == rows
            && k in states[|labels|].calls
            && (if reply.ran then states[|labels|].calls[k].pc == Done && reply.body == Body(c.ops)
                else states[|labels|].calls[k].pc.Replayed? && states[|labels|].calls[k].pc.code == reply.code
                     && states[|labels|].calls[k].pc.body == reply.body)
  {
    hide Less, Format, CapturedCode, Body, SentCode, Expiry, InRange, Steps;
    var l0, l1 := Arrive(k, c.route, c.key, c.scope, c.hash, c.ops), LookUp(k, now, lookUpOk);
    var s1 := Apply(ttl, s, l0);
    var s2 := Apply(ttl, s1, l1);
    StepsTwo(ttl, s, l0, l1);
    if s2.calls[k].pc.Replayed? {
      states, labels := [s, s1, s2], [l0, l1];
    } else {
      var more, rest := UndisturbedMiss(ttl, s2, k, now, insertOk);
      assert [s, s1] + [more[0]] == [s, s1, s2];
      StepsJoin(ttl, [s, s1], [l0, l1], more, rest);
      states, labels := [s, s1] + more, [l0, l1] + rest;
    }
  }

  lemma StepsTwo(ttl: nat, s: State, l0: Label, l1: Label)
    requires Enabled(s, l0) && Enabled(Apply(ttl, s, l0), l1)
    ensures Steps(ttl, [s, Apply(ttl, s, l0), Apply(ttl, Apply(ttl, s, l0), l1)], [l0, l1])
  {
    hide Enabled, Apply;
  }

  lemma StepsJoin(ttl: nat, a: seq<State>, la: seq<Label>, b: seq<State>, lb: seq<Label>)
    requires |a| == |la| && Steps(ttl, b, lb) && Steps(ttl, a + [b[0]], la)
    ensures Steps(ttl, a + b, la + lb)
  {
    hide Enabled, Apply;
    var states, labels := a + b, la + lb;
    forall i | 0 <= i < |labels|
      ensures Enabled(states[i], labels[i]) && states[i + 1] == Apply(ttl, states[i], labels[i])
    {
      if i < |la| {
        assert states[i] == (a + [b[0]])[i] && states[i + 1] == (a + [b[0]])[i + 1];
      } else {
        assert states[i] == b[i - |la|] && states[i + 1] == b[i + 1 - |la|];
      }
    }
  }
}
