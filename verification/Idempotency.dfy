/** The replay cache of internal/httpmw/idempotency.go. A request that carries a key is
    looked up by key, scope and body hash among unexpired rows; on a miss the handler runs
    behind a capturing writer and a 2xx answer is inserted unless the key and scope have a
    row already. Requests are served one after the other; either statement may fail. */
module Idempotency {
  import opened Wrappers
  import opened TimeText

  // ---------------------------------------------------------------- the capturing writer

  /** What a handler does to its response writer. */
  datatype Op = WriteHeader(code: int) | Write(data: seq<int>)

  /** The last code set, 200 if none was. */
  function CapturedCode(ops: seq<Op>): int {
    if ops == [] then 200
    else
      var last := ops[|ops| - 1];
      if last.WriteHeader? then last.code else CapturedCode(ops[..|ops| - 1])
  }

  /** Everything written, in order. */
  function Body(ops: seq<Op>): seq<int> {
    if ops == [] then []
    else
      var last := ops[|ops| - 1];
      Body(ops[..|ops| - 1]) + (if last.Write? then last.data else [])
  }

  predicate Informational(code: int) { 100 <= code < 200 && code != 101 }

  /** The status net/http puts on the wire: that of the first call, 200 when a write comes
      first or nothing is called. Calls with an informational code do not decide it. */
  function SentCode(ops: seq<Op>): int {
    if ops == [] then 200
    else if ops[0].Write? then 200
    else if Informational(ops[0].code) then SentCode(ops[1..])
    else ops[0].code
  }

  class CapturingWriter {
    var code: int
    var buf: seq<int>

    constructor ()
      ensures code == 200 && buf == []
    {
      code, buf := 200, [];
    }

    method WriteHeader(c: int)
      modifies this`code
      ensures code == c
    {
      code := c;
    }

    method Write(b: seq<int>)
      modifies this`buf
      ensures buf == old(buf) + b
    {
      buf := buf + b;
    }

    /** After a handler's calls the writer holds the last code and the concatenated body. */
    method Run(ops: seq<Op>)
      requires code == 200 && buf == []
      modifies this
      ensures code == CapturedCode(ops) && buf == Body(ops)
    {
      var i := 0;
      while i < |ops|
        invariant 0 <= i <= |ops|
        invariant code == CapturedCode(ops[..i]) && buf == Body(ops[..i])
      {
        assert ops[..i + 1][..i] == ops[..i] && ops[..i + 1][i] == ops[i];
        match ops[i] {
          case WriteHeader(c) => WriteHeader(c);
          case Write(b) => Write(b);
        }
        i := i + 1;
      }
      assert ops[..i] == ops;
    }
  }

  // ---------------------------------------------------------------- captured against sent

  /** The call that fixes the status line: the first write or the first header that is not
      informational; past the end if there is none. */
  function Deciding(ops: seq<Op>): (d: nat)
    ensures d <= |ops|
    ensures d < |ops| ==> ops[d].Write? || !Informational(ops[d].code)
    ensures forall i :: 0 <= i < d ==> ops[i].WriteHeader? && Informational(ops[i].code)
  {
    if ops == [] || ops[0].Write? || !Informational(ops[0].code) then 0 else 1 + Deciding(ops[1..])
  }

  /** The place after the last header; 0 if there is none. */
  function AfterLastHeader(ops: seq<Op>): (n: nat)
    ensures n <= |ops|
    ensures n > 0 ==> ops[n - 1].WriteHeader?
    ensures forall i :: n <= i < |ops| ==> ops[i].Write?
  {
    if ops == [] || ops[|ops| - 1].WriteHeader? then |ops| else AfterLastHeader(ops[..|ops| - 1])
  }

  /** No header is set at all, or the last one set carries the code that the deciding call
      puts on the wire. */
  predicate LastHeaderDecides(ops: seq<Op>) {
    var d, n := Deciding(ops), AfterLastHeader(ops);
    n > 0 ==> ops[n - 1].code == if d < |ops| && ops[d].WriteHeader? then ops[d].code else 200
  }

  lemma {:induction false} SentIsDeciding(ops: seq<Op>)
    ensures var d := Deciding(ops);
            SentCode(ops) == if d < |ops| && ops[d].WriteHeader? then ops[d].code else 200
  {
    if ops != [] && ops[0].WriteHeader? && Informational(ops[0].code) {
      SentIsDeciding(ops[1..]);
    }
  }

  lemma {:induction false} CapturedIsLast(ops: seq<Op>)
    ensures var n := AfterLastHeader(ops);
            CapturedCode(ops) == if n > 0 then ops[n - 1].code else 200
  {
    if ops != [] && ops[|ops| - 1].Write? {
      CapturedIsLast(ops[..|ops| - 1]);
    }
  }

  /** The captured code is the one on the wire exactly if the last header carries the code
      of the call that fixed the status line. */
  lemma CapturedIsSent(ops: seq<Op>)
    ensures CapturedCode(ops) == SentCode(ops) <==> LastHeaderDecides(ops)
  {
    SentIsDeciding(ops);
    CapturedIsLast(ops);
    hide SentCode, CapturedCode, Deciding, AfterLastHeader;
  }

  /** Where it fails: a header set after the status line was fixed, by a header or by a
      write, does not reach the wire and is captured. */
  lemma SecondHeaderIsCaptured(first: Op, code: int)
    requires first.WriteHeader? ==> !Informational(first.code)
    ensures SentCode([first, WriteHeader(code)]) == if first.WriteHeader? then first.code else 200
    ensures CapturedCode([first, WriteHeader(code)]) == code
  {
    assert [first, WriteHeader(code)][0] == first;
  }

  // ---------------------------------------------------------------- one request

  /** `route` is the method and path; it is stored and never compared. */
  datatype Row = Row(route: string, hash: string, code: int, body: seq<int>, expires: string)
  type Rows = map<(string, string), Row>

  /** A request as the middleware sees it, with what the handler would do if run and
      whether each of the two statements gets through. */
  datatype Request = Request(
    route: string, caller: string, key: string, scope: string, hash: string, now: int, ops: seq<Op>,
    lookUpOk: bool, insertOk: bool)

  /** What the client gets, and whether the handler ran to produce it. */
  datatype Reply = Reply(code: int, body: seq<int>, ran: bool)

  ghost predicate Hit(rows: Rows, r: Request)
    requires 0 <= r.now
  {
    && r.lookUpOk && (r.key, r.scope) in rows
    && rows[(r.key, r.scope)].hash == r.hash
    && Less(Format(r.now), rows[(r.key, r.scope)].expires)
  }

  /** datetime('now', '+ttl seconds'); out of the calendar there is no such text. */
  function Expiry(now: int, ttl: nat): Option<string>
    requires 0 <= now
  {
    var at := (Seconds(now) + ttl) * NANOS;
    if InRange(at) then Some(Format(at)) else None
  }

  ghost predicate Stores(ttl: nat, rows: Rows, r: Request)
    requires 0 <= r.now
  {
    && r.key != "" && !Hit(rows, r)
    && 200 <= CapturedCode(r.ops) < 300 && r.insertOk && Expiry(r.now, ttl).Some?
    && (r.key, r.scope) !in rows
  }

  ghost function Serve(ttl: nat, rows: Rows, r: Request): (Rows, Reply)
    requires 0 <= r.now
  {
    if r.key != "" && Hit(rows, r) then
      var row := rows[(r.key, r.scope)];
      (rows, Reply(row.code, row.body, false))
    else
      (if Stores(ttl, rows, r) then
         rows[(r.key, r.scope) := Row(r.route, r.hash, CapturedCode(r.ops), Body(r.ops), Expiry(r.now, ttl).value)]
       else rows,
       Reply(SentCode(r.ops), Body(r.ops), true))
  }

  // ---------------------------------------------------------------- runs

  /** The clock stays within the years the text can hold. */
  ghost predicate InCalendar(rs: seq<Request>) { forall i :: 0 <= i < |rs| ==> InRange(rs[i].now) }

  ghost function RowsAfter(ttl: nat, rows: Rows, rs: seq<Request>, n: nat): Rows
    requires n <= |rs| && InCalendar(rs)
  {
    if n == 0 then rows else Serve(ttl, RowsAfter(ttl, rows, rs, n - 1), rs[n - 1]).0
  }

  ghost function ReplyTo(ttl: nat, rows: Rows, rs: seq<Request>, n: nat): Reply
    requires n < |rs| && InCalendar(rs)
  {
    Serve(ttl, RowsAfter(ttl, rows, rs, n), rs[n]).1
  }

  /** A row once written is never overwritten and never removed, even past its expiry. */
  lemma {:induction false} WriteOnce(ttl: nat, rows: Rows, rs: seq<Request>, m: nat, n: nat, key: string, scope: string)
    requires InCalendar(rs) && m <= n <= |rs| && (key, scope) in RowsAfter(ttl, rows, rs, m)
    ensures (key, scope) in RowsAfter(ttl, rows, rs, n)
    ensures RowsAfter(ttl, rows, rs, n)[(key, scope)] == RowsAfter(ttl, rows, rs, m)[(key, scope)]
  {
    hide Format, Less, Expiry, CapturedCode, Body, SentCode, Hit;
    if m < n { WriteOnce(ttl, rows, rs, m, n - 1, key, scope); }
  }

  lemma ExpiryText(now: int, ttl: nat)
    requires InRange(now) && Expiry(now, ttl).Some?
    ensures InRange((Seconds(now) + ttl) * NANOS)
    ensures Seconds((Seconds(now) + ttl) * NANOS) == Seconds(now) + ttl
  {}

  /** Write-once replay. In every sequential run, let request i store its answer: the
      first 2xx under its key and scope whose insert gets through. Then for every later
      request j under that key and scope:
      with the same body hash, before the expiry and with its lookup answered, it gets
      exactly that code and body and its handler does not run;
      otherwise its handler runs and it gets its own handler's answer. */
  lemma ReplayOnce(ttl: nat, rows: Rows, rs: seq<Request>, i: nat, j: nat)
    requires InCalendar(rs) && i < j < |rs|
    requires Stores(ttl, RowsAfter(ttl, rows, rs, i), rs[i])
    requires rs[j].key == rs[i].key && rs[j].scope == rs[i].scope
    ensures ReplyTo(ttl, rows, rs, j) ==
              if rs[j].hash == rs[i].hash && rs[j].lookUpOk && Seconds(rs[j].now) < Seconds(rs[i].now) + ttl
              then Reply(CapturedCode(rs[i].ops), Body(rs[i].ops), false)
              else Reply(SentCode(rs[j].ops), Body(rs[j].ops), true)
  {
    hide Format, Less, CapturedCode, Body, SentCode;
    var key, scope := rs[i].key, rs[i].scope;
    WriteOnce(ttl, rows, rs, i + 1, j, key, scope);
    var row := RowsAfter(ttl, rows, rs, j)[(key, scope)];
    assert row == Row(rs[i].route, rs[i].hash, CapturedCode(rs[i].ops), Body(rs[i].ops), Expiry(rs[i].now, ttl).value);
    ExpiryText(rs[i].now, ttl);
    TextOrderIsTimeOrder(rs[j].now, (Seconds(rs[i].now) + ttl) * NANOS);
  }

  /** A retry under the stored key, scope and body hash and before the expiry sees just what
      the first client saw, status and body, exactly if the handler's last header carried the
      code that was put on the wire. */
  lemma RetrySeesTheSame(ttl: nat, rows: Rows, rs: seq<Request>, i: nat, j: nat)
    requires InCalendar(rs) && i < j < |rs|
    requires Stores(ttl, RowsAfter(ttl, rows, rs, i), rs[i])
    requires rs[j].key == rs[i].key && rs[j].scope == rs[i].scope && rs[j].hash == rs[i].hash
    requires rs[j].lookUpOk && Seconds(rs[j].now) < Seconds(rs[i].now) + ttl
    ensures ReplyTo(ttl, rows, rs, i) == Reply(SentCode(rs[i].ops), Body(rs[i].ops), true)
    ensures ReplyTo(ttl, rows, rs, j) == ReplyTo(ttl, rows, rs, i).(ran := false) <==> LastHeaderDecides(rs[i].ops)
  {
    ReplayOnce(ttl, rows, rs, i, j);
    CapturedIsSent(rs[i].ops);
    hide LastHeaderDecides, CapturedCode, SentCode, Body, Format, Less;
  }

  /** Every answer given without running the handler was stored by an earlier request
      under the same key, scope and body hash, or was in the table at the start. */
  lemma {:induction false} ReplayHasOrigin(ttl: nat, rs: seq<Request>, n: nat, k: (string, string))
    returns (i: nat)
    requires InCalendar(rs) && n <= |rs| && k in RowsAfter(ttl, map[], rs, n)
    ensures i < n && (rs[i].key, rs[i].scope) == k && Stores(ttl, RowsAfter(ttl, map[], rs, i), rs[i])
    ensures RowsAfter(ttl, map[], rs, n)[k] ==
              Row(rs[i].route, rs[i].hash, CapturedCode(rs[i].ops), Body(rs[i].ops), Expiry(rs[i].now, ttl).value)
  {
    hide Format, Less, CapturedCode, Body, SentCode, Hit, Expiry;
    if k in RowsAfter(ttl, map[], rs, n - 1) {
      i := ReplayHasOrigin(ttl, rs, n - 1, k);
    } else {
      i := n - 1;
    }
  }

  /** No request ever receives an answer produced for another body, key or scope: in a run
      from an empty table, a reply is either its own handler's or that of an earlier
      request with the same three. */
  lemma NoForeignAnswer(ttl: nat, rs: seq<Request>, j: nat) returns (i: nat)
    requires InCalendar(rs) && j < |rs|
    ensures i <= j && rs[i].key == rs[j].key && rs[i].scope == rs[j].scope && rs[i].hash == rs[j].hash
    ensures var reply := ReplyTo(ttl, map[], rs, j);
            reply == if reply.ran then Reply(SentCode(rs[j].ops), Body(rs[j].ops), true)
                     else Reply(CapturedCode(rs[i].ops), Body(rs[i].ops), false)
    ensures i < j <==> !ReplyTo(ttl, map[], rs, j).ran
  {
    if ReplyTo(ttl, map[], rs, j).ran {
      i := j;
    } else {
      i := ReplayHasOrigin(ttl, rs, j, (rs[j].key, rs[j].scope));
    }
  }

  /** Request i's stored answer is what request j is given. */
  ghost predicate Serves(ttl: nat, rs: seq<Request>, i: nat, j: nat)
    requires InCalendar(rs) && i < j < |rs|
  {
    && Stores(ttl, RowsAfter(ttl, map[], rs, i), rs[i])
    && rs[i].key == rs[j].key && rs[i].scope == rs[j].scope && rs[i].hash == rs[j].hash
    && rs[j].lookUpOk && Seconds(rs[j].now) < Seconds(rs[i].now) + ttl
  }

  ghost predicate ElsewhereFrom(r: Request, q: Request) { r.route != q.route || r.caller != q.caller }

  /** Neither the route nor the caller is compared. The request whose handler made the answer
      came in on another route or from another caller exactly if some earlier one of those,
      with the same key, scope and body, is the one that serves it. */
  lemma AnsweredFromElsewhereIff(ttl: nat, rs: seq<Request>, j: nat) returns (i: nat)
    requires InCalendar(rs) && j < |rs|
    ensures i <= j && (i < j <==> !ReplyTo(ttl, map[], rs, j).ran)
    ensures ReplyTo(ttl, map[], rs, j) ==
              if i < j then Reply(CapturedCode(rs[i].ops), Body(rs[i].ops), false)
              else Reply(SentCode(rs[j].ops), Body(rs[j].ops), true)
    ensures ElsewhereFrom(rs[i], rs[j]) <==>
              exists m: nat :: m < j && Serves(ttl, rs, m, j) && ElsewhereFrom(rs[m], rs[j])
  {
    if ReplyTo(ttl, map[], rs, j).ran {
      i := j;
      forall m: nat | m < j ensures !Serves(ttl, rs, m, j) {
        if Serves(ttl, rs, m, j) { ReplayOnce(ttl, map[], rs, m, j); }
      }
    } else {
      i := ReplayHasOrigin(ttl, rs, j, (rs[j].key, rs[j].scope));
      ReplayOnce(ttl, map[], rs, i, j);
      assert Serves(ttl, rs, i, j);
      forall m: nat | m < j && Serves(ttl, rs, m, j) ensures m == i {
        if m < i {
          StoredOnce(ttl, rs, m, i);
        } else if i < m {
          StoredOnce(ttl, rs, i, m);
        }
      }
    }
    hide Format, Less, CapturedCode, Body, SentCode, Expiry, ElsewhereFrom;
  }

  lemma StoredOnce(ttl: nat, rs: seq<Request>, i: nat, m: nat)
    requires InCalendar(rs) && i < m < |rs| && rs[i].key == rs[m].key && rs[i].scope == rs[m].scope
    requires Stores(ttl, RowsAfter(ttl, map[], rs, i), rs[i])
    ensures !Stores(ttl, RowsAfter(ttl, map[], rs, m), rs[m])
  {
    hide Format, Less, CapturedCode, Body, SentCode, Expiry, Hit;
    WriteOnce(ttl, map[], rs, i + 1, m, rs[i].key, rs[i].scope);
  }

  // ---------------------------------------------------------------- the law, without the table

  /** The handler's answer would be kept if its slot were free: a keyed request, a 2xx
      answer, an insert that gets through and an expiry the calendar can hold. */
  ghost predicate Keepable(ttl: nat, r: Request) {
    && r.key != "" && 200 <= CapturedCode(r.ops) <= 299 && r.insertOk
    && InRange((Seconds(r.now) + ttl) * NANOS)
  }

  ghost predicate SameSlot(r: Request, q: Request) { r.key == q.key && r.scope == q.scope }

  /** Request i is the first under its key and scope whose answer can be kept. */
  ghost predicate First(ttl: nat, rs: seq<Request>, i: nat)
    requires i < |rs|
  {
    Keepable(ttl, rs[i]) && forall m: nat :: m < i && SameSlot(rs[m], rs[i]) ==> !Keepable(ttl, rs[m])
  }

  /** Request i is the one whose answer request j is given. */
  ghost predicate AnswersFor(ttl: nat, rs: seq<Request>, i: nat, j: nat)
    requires i < j < |rs|
  {
    && First(ttl, rs, i) && SameSlot(rs[i], rs[j]) && rs[i].hash == rs[j].hash
    && rs[j].lookUpOk && Seconds(rs[j].now) < Seconds(rs[i].now) + ttl
  }

  ghost function RowOf(ttl: nat, r: Request): Row
    requires InRange(r.now) && Keepable(ttl, r)
  {
    Row(r.route, r.hash, CapturedCode(r.ops), Body(r.ops), Format((Seconds(r.now) + ttl) * NANOS))
  }

  lemma StoresKeepable(ttl: nat, rows: Rows, r: Request)
    requires InRange(r.now)
    ensures (r.key, r.scope) !in rows ==> (Stores(ttl, rows, r) <==> Keepable(ttl, r))
    ensures Stores(ttl, rows, r) ==>
              && Keepable(ttl, r) && (r.key, r.scope) !in rows
              && Serve(ttl, rows, r).0 == rows[(r.key, r.scope) := RowOf(ttl, r)]
    ensures !Stores(ttl, rows, r) ==> Serve(ttl, rows, r).0 == rows
  {
    hide Format, Less, CapturedCode, Body, SentCode, InRange;
  }

  /** The table holds exactly the first keepable answer of each slot. */
  lemma {:induction false} RowsAreFirsts(ttl: nat, rs: seq<Request>, n: nat, k: (string, string))
    requires InCalendar(rs) && n <= |rs|
    ensures k in RowsAfter(ttl, map[], rs, n)
        <==> exists i: nat :: i < n && Keepable(ttl, rs[i]) && (rs[i].key, rs[i].scope) == k
    ensures forall i: nat :: i < n && First(ttl, rs, i) && (rs[i].key, rs[i].scope) == k ==>
              k in RowsAfter(ttl, map[], rs, n) && RowsAfter(ttl, map[], rs, n)[k] == RowOf(ttl, rs[i])
    ensures k in RowsAfter(ttl, map[], rs, n) ==>
              exists i: nat :: i < n && First(ttl, rs, i) && (rs[i].key, rs[i].scope) == k
  {
    hide Keepable, Stores, Serve, RowOf;
    if n > 0 {
      RowsAreFirsts(ttl, rs, n - 1, k);
      StoresKeepable(ttl, RowsAfter(ttl, map[], rs, n - 1), rs[n - 1]);
      if (rs[n - 1].key, rs[n - 1].scope) == k && Keepable(ttl, rs[n - 1]) && k !in RowsAfter(ttl, map[], rs, n - 1) {
        assert First(ttl, rs, n - 1);
      }
    }
  }

  /** Who answers whom, exactly: in every sequential run from an empty table, a keyed
      request whose lookup gets through is answered without its handler from the first
      request under its key and scope whose answer could be kept, if that one had the same
      body hash and is not past its expiry; and every other request gets its own handler's
      answer. */
  lemma AnsweredExactly(ttl: nat, rs: seq<Request>, j: nat)
    requires InCalendar(rs) && j < |rs|
    ensures forall i: nat :: i < j && AnswersFor(ttl, rs, i, j) ==>
              ReplyTo(ttl, map[], rs, j) == Reply(CapturedCode(rs[i].ops), Body(rs[i].ops), false)
    ensures (forall i: nat :: i < j ==> !AnswersFor(ttl, rs, i, j)) ==>
              ReplyTo(ttl, map[], rs, j) == Reply(SentCode(rs[j].ops), Body(rs[j].ops), true)
  {
    hide CapturedCode, Body, SentCode, Format, Less, Stores, Keepable;
    var k, rows := (rs[j].key, rs[j].scope), RowsAfter(ttl, map[], rs, j);
    RowsAreFirsts(ttl, rs, j, k);
    if k in rows {
      var i: nat :| i < j && First(ttl, rs, i) && (rs[i].key, rs[i].scope) == k;
      KeptUntil(ttl, rs[i], rs[j].now);
      assert rows[k] == RowOf(ttl, rs[i]);
      assert AnswersFor(ttl, rs, i, j) <==> rs[j].key != "" && Hit(rows, rs[j]);
      forall m: nat | m < j && AnswersFor(ttl, rs, m, j) ensures m == i {
        OneFirst(ttl, rs, m, i);
      }
    }
  }

  lemma KeptUntil(ttl: nat, r: Request, now: int)
    requires InRange(r.now) && InRange(now) && Keepable(ttl, r)
    ensures r.key != ""
    ensures Less(Format(now), RowOf(ttl, r).expires) <==> Seconds(now) < Seconds(r.now) + ttl
  {
    hide Format, Less, InRange, CapturedCode, Body, Seconds;
    TextOrderIsTimeOrder(now, (Seconds(r.now) + ttl) * NANOS);
    WholeSeconds(Seconds(r.now) + ttl);
  }

  lemma WholeSeconds(n: int)
    ensures Seconds(n * NANOS) == n
  {}

  lemma OneFirst(ttl: nat, rs: seq<Request>, i: nat, m: nat)
    requires i < |rs| && m < |rs| && First(ttl, rs, i) && First(ttl, rs, m) && SameSlot(rs[i], rs[m])
    ensures i == m
  {
    hide Keepable;
  }

  /** What a handler wrote is captured in order, headers aside. */
  lemma {:induction false} BodyConcat(a: seq<Op>, b: seq<Op>)
    ensures Body(a + b) == Body(a) + Body(b)
  {
    if b == [] {
      assert a + b == a;
    } else {
      var n := |b| - 1;
      BodyConcat(a, b[..n]);
      assert (a + b)[..|a + b| - 1] == a + b[..n];
      assert Body(a + b) == Body(a + b[..n]) + (if b[n].Write? then b[n].data else []);
      assert Body(b) == Body(b[..n]) + (if b[n].Write? then b[n].data else []);
      hide Body;
    }
  }

  lemma BodyOfOne(op: Op)
    ensures Body([op]) == if op.Write? then op.data else []
  {
    assert Body([op][..0]) == [];
  }

  // ---------------------------------------------------------------- the middleware

  const DEFAULT_TTL: nat := 24 * 3600

  lemma {:induction false} RowsOfPrefix(ttl: nat, rs: seq<Request>, r: Request, n: nat)
    requires n <= |rs| && InCalendar(rs + [r])
    ensures InCalendar(rs) && RowsAfter(ttl, map[], rs + [r], n) == RowsAfter(ttl, map[], rs, n)
  {
    hide Serve;
    assert forall i :: 0 <= i < |rs| ==> (rs + [r])[i] == rs[i];
    if n > 0 { RowsOfPrefix(ttl, rs, r, n - 1); }
  }

  /** What one more request does to the table, and what it is answered. */
  lemma OneMore(ttl: nat, rs: seq<Request>, r: Request)
    requires InCalendar(rs + [r])
    ensures InCalendar(rs) && 0 <= r.now
    ensures (RowsAfter(ttl, map[], rs + [r], |rs| + 1), ReplyTo(ttl, map[], rs + [r], |rs|))
         == Serve(ttl, RowsAfter(ttl, map[], rs, |rs|), r)
  {
    hide Serve;
    assert (rs + [r])[|rs|] == r;
    RowsOfPrefix(ttl, rs, r, |rs|);
  }

  class Middleware {
    const ttl: nat
    var rows: Rows
    ghost var served: seq<Request>  // every request so far

    /** The table is what the requests so far have left. */
    ghost predicate Valid()
      reads this
    {
      InCalendar(served) ==> rows == RowsAfter(ttl, map[], served, |served|)
    }

    constructor (ttl: nat)
      ensures Valid() && rows == map[] && served == [] && this.ttl == if ttl == 0 then 86_400 else ttl
    {
      this.ttl := if ttl == 0 then DEFAULT_TTL else ttl;
      rows, served := map[], [];
    }

    /** One request: the reply and the table it leaves are those of the specification, and
        while the clock is within the calendar the reply is the kept answer of the earlier
        request that answers for this one, or else the handler's own. */
    method Handle(r: Request) returns (reply: Reply)
      requires Valid() && 0 <= r.now
      modifies this
      ensures Valid() && served == old(served) + [r]
      ensures (rows, reply) == Serve(ttl, old(rows), r)
      ensures InCalendar(served) ==>
                && (forall i: nat :: i < |old(served)| && AnswersFor(ttl, served, i, |old(served)|) ==>
                      reply == Reply(CapturedCode(served[i].ops), Body(served[i].ops), false))
                && ((forall i: nat :: i < |old(served)| ==> !AnswersFor(ttl, served, i, |old(served)|)) ==>
                      reply == Reply(SentCode(r.ops), Body(r.ops), true))
    {
      hide Expiry, Format, Less, CapturedCode, SentCode, Body, InCalendar, AnswersFor, RowsAfter;
      if InCalendar(served + [r]) {
        OneMore(ttl, served, r);
        AnsweredExactly(ttl, served + [r], |served|);
      }
      served := served + [r];
      if r.key == "" {
        return Reply(SentCode(r.ops), Body(r.ops), true);
      }
      if r.lookUpOk && (r.key, r.scope) in rows {
        var row := rows[(r.key, r.scope)];
        if row.hash == r.hash && Less(Format(r.now), row.expires) {
          return Reply(row.code, row.body, false);
        }
      }
      var rec := new CapturingWriter();
      rec.Run(r.ops);
      reply := Reply(SentCode(r.ops), rec.buf, true);
      if 200 <= rec.code < 300 {
        var expires := Expiry(r.now, ttl);
        if r.insertOk && expires.Some? && (r.key, r.scope) !in rows {
          rows := rows[(r.key, r.scope) := Row(r.route, r.hash, rec.code, rec.buf, expires.value)];
        }
      }
    }
  }
}
