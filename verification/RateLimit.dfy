/** The per-IP request limiter of internal/httpmw/ratelimit.go: token buckets kept in
    a table that forgets idle entries. Times are seconds since the zero time, as reals.

    The evicting table (`Serve`) beside the simple table that keeps one bucket per IP for
    ever (`ServeForever`), when the two agree, and how many requests get through. The
    limiter itself, classes over a mutable table, is in module Limiter. */
module RateLimit {

  datatype Config = Config(rate: real, burst: int, ttl: real)

  const DEFAULT_TTL := 300.0

  /** The config after the defaulting at the head of NewRateLimit. */
  function WithDefaults(cfg: Config): Config {
    if cfg.ttl == 0.0 then cfg.(ttl := DEFAULT_TTL) else cfg
  }

  /** Tokens gained per second; a non-positive limit gains nothing. */
  function Refill(cfg: Config): real {
    if cfg.rate <= 0.0 then 0.0 else cfg.rate
  }

  /** Tokens gained over a stretch of time. */
  function Gain(cfg: Config, dt: real): real { Refill(cfg) * dt }

  function Max(a: real, b: real): real { if a <= b then b else a }

  /** What a bucket gains, in the config's own terms. */
  lemma GainIs(cfg: Config, dt: real)
    ensures Gain(cfg, dt) == Max(cfg.rate, 0.0) * dt
  {}

  lemma GainMono(cfg: Config, a: real, b: real)
    requires a <= b
    ensures Gain(cfg, a) <= Gain(cfg, b)
  {
    assert 0.0 <= Refill(cfg) * (b - a);
  }

  lemma GainSplit(cfg: Config, a: real, b: real)
    ensures Gain(cfg, a + b) == Gain(cfg, a) + Gain(cfg, b)
  {}

  lemma GainZero(cfg: Config)
    ensures Gain(cfg, 0.0) == 0.0
  {}

  // ---------------------------------------------------------------- one bucket

  datatype Tokens = Tokens(tokens: real, last: real)

  /** A new bucket is full and was last touched at the zero time. */
  function Full(cfg: Config): Tokens { Tokens(cfg.burst as real, 0.0) }

  function Advance(cfg: Config, b: Tokens, now: real): real {
    var last := if now < b.last then now else b.last;
    var tokens := b.tokens + Gain(cfg, now - last);
    if tokens > cfg.burst as real then cfg.burst as real else tokens
  }

  /** One Allow call: a refused call leaves the bucket as it was. */
  function Take(cfg: Config, b: Tokens, now: real): (Tokens, bool) {
    var left := Advance(cfg, b, now) - 1.0;
    if 1 <= cfg.burst && 0.0 <= left then (Tokens(left, now), true) else (b, false)
  }

  // ---------------------------------------------------------------- the two tables

  datatype Entry = Entry(bucket: Tokens, seen: real)
  type Table = map<string, Entry>

  function Evict(cfg: Config, table: Table, now: real): Table {
    map ip | ip in table && now - table[ip].seen <= cfg.ttl :: table[ip]
  }

  /** The bucket a request from `ip` is charged to. */
  function BucketOf(cfg: Config, table: Table, ip: string, now: real): Tokens {
    var kept := Evict(cfg, table, now);
    if ip in kept then kept[ip].bucket else Full(cfg)
  }

  function Serve(cfg: Config, table: Table, ip: string, now: real): (Table, bool) {
    var (bucket, ok) := Take(cfg, BucketOf(cfg, table, ip, now), now);
    (Evict(cfg, table, now)[ip := Entry(bucket, now)], ok)
  }

  type Forever = map<string, Tokens>

  function Kept(cfg: Config, table: Forever, ip: string): Tokens {
    if ip in table then table[ip] else Full(cfg)
  }

  function ServeForever(cfg: Config, table: Forever, ip: string, now: real): (Forever, bool) {
    var (bucket, ok) := Take(cfg, Kept(cfg, table, ip), now);
    (table[ip := bucket], ok)
  }

  // ---------------------------------------------------------------- runs

  datatype Request = Request(ip: string, now: real)

  /** Requests in the order of the clock, none before the zero time. */
  ghost predicate Ordered(rs: seq<Request>) {
    && (forall i :: 0 <= i < |rs| ==> 0.0 <= rs[i].now)
    && (forall i, j :: 0 <= i < j < |rs| ==> rs[i].now <= rs[j].now)
  }

  ghost function Decisions(cfg: Config, table: Table, rs: seq<Request>): (ds: seq<bool>)
    ensures |ds| == |rs|
    decreases |rs|
  {
    if rs == [] then []
    else
      var (next, ok) := Serve(cfg, table, rs[0].ip, rs[0].now);
      [ok] + Decisions(cfg, next, rs[1..])
  }

  ghost function DecisionsForever(cfg: Config, table: Forever, rs: seq<Request>): (ds: seq<bool>)
    ensures |ds| == |rs|
    decreases |rs|
  {
    if rs == [] then []
    else
      var (next, ok) := ServeForever(cfg, table, rs[0].ip, rs[0].now);
      [ok] + DecisionsForever(cfg, next, rs[1..])
  }

  /** How many requests of `ip` were allowed. */
  ghost function Allowed(rs: seq<Request>, ds: seq<bool>, ip: string): nat
    requires |rs| == |ds|
  {
    if rs == [] then 0
    else (if rs[0].ip == ip && ds[0] then 1 else 0) + Allowed(rs[1..], ds[1..], ip)
  }

  /** An entry idle for longer than the TTL would have refilled to the brim. */
  ghost predicate Forgiving(cfg: Config) {
    cfg.burst <= 0 || Max(cfg.rate, 0.0) * cfg.ttl >= cfg.burst as real
  }

  // ---------------------------------------------------------------- eviction is invisible

  /** The evicting table at time `now` beside the table that never forgets: same buckets
      where both have one, and a full bucket where the entry was dropped. */
  ghost predicate Simulates(cfg: Config, table: Table, forever: Forever, now: real) {
    && (forall ip :: ip in table ==>
          && ip in forever && table[ip].bucket == forever[ip]
          && forever[ip].last <= table[ip].seen <= now)
    && (forall ip :: ip in forever ==> 0.0 <= forever[ip].tokens && 0.0 <= forever[ip].last <= now)
    && (forall ip :: ip in forever && ip !in table ==> IsFull(cfg, forever[ip], now))
  }

  ghost predicate IsFull(cfg: Config, b: Tokens, now: real) {
    b.tokens + Gain(cfg, now - b.last) >= cfg.burst as real
  }

  /** What eviction at `now` drops had refilled to the brim by then. */
  lemma DroppedIsFull(cfg: Config, table: Table, forever: Forever, then': real, now: real, ip: string)
    requires Forgiving(cfg) && 1 <= cfg.burst && then' <= now
    requires Simulates(cfg, table, forever, then')
    requires ip in forever && ip !in Evict(cfg, table, now)
    ensures IsFull(cfg, forever[ip], now)
  {
    hide Gain;
    var last := forever[ip].last;
    if ip in table {
      assert cfg.ttl < now - table[ip].seen <= now - last;
      GainIs(cfg, cfg.ttl);
      GainMono(cfg, cfg.ttl, now - last);
      assert 0.0 <= forever[ip].tokens;
    } else {
      assert IsFull(cfg, forever[ip], then');
      GainMono(cfg, then' - last, now - last);
    }
  }

  lemma FullBucketsAgree(cfg: Config, b: Tokens, now: real)
    requires 1 <= cfg.burst && b.last <= now && 0.0 <= now && IsFull(cfg, b, now)
    ensures Take(cfg, b, now) == Take(cfg, Full(cfg), now)
  {
    hide Gain;
    GainMono(cfg, 0.0, now);
    GainZero(cfg);
  }

  /** Both tables answer alike, and charge what becomes the same bucket. */
  lemma SameAnswer(cfg: Config, table: Table, forever: Forever, then': real, ip: string, now: real)
    requires Forgiving(cfg) && 1 <= cfg.burst && 0.0 <= then' <= now
    requires Simulates(cfg, table, forever, then')
    ensures Take(cfg, BucketOf(cfg, table, ip, now), now) == Take(cfg, Kept(cfg, forever, ip), now)
  {
    hide Gain;
    if ip !in Evict(cfg, table, now) && ip in forever {
      DroppedIsFull(cfg, table, forever, then', now, ip);
      FullBucketsAgree(cfg, forever[ip], now);
    }
  }

  lemma TakeKeepsTokens(cfg: Config, b: Tokens, now: real)
    requires 0.0 <= b.tokens && 0.0 <= b.last <= now
    ensures 0.0 <= Take(cfg, b, now).0.tokens && 0.0 <= Take(cfg, b, now).0.last <= now
  {
    hide Gain;
  }

  /** Serving one request keeps the two tables in step and gives one answer. */
  lemma ServeSimulates(cfg: Config, table: Table, forever: Forever, then': real, ip: string, now: real)
    requires Forgiving(cfg) && 1 <= cfg.burst && 0.0 <= then' <= now
    requires Simulates(cfg, table, forever, then')
    ensures Serve(cfg, table, ip, now).1 == ServeForever(cfg, forever, ip, now).1
    ensures Simulates(cfg, Serve(cfg, table, ip, now).0, ServeForever(cfg, forever, ip, now).0, now)
  {
    hide Gain;
    SameAnswer(cfg, table, forever, then', ip, now);
    TakeKeepsTokens(cfg, Kept(cfg, forever, ip), now);
    var table', forever' := Serve(cfg, table, ip, now).0, ServeForever(cfg, forever, ip, now).0;
    forall k | k in forever' && k !in table'
      ensures IsFull(cfg, forever'[k], now)
    {
      DroppedIsFull(cfg, table, forever, then', now, k);
    }
  }

  lemma {:induction false} RunSimulates(cfg: Config, table: Table, forever: Forever, then': real, rs: seq<Request>)
    requires Forgiving(cfg) && 1 <= cfg.burst && 0.0 <= then'
    requires Ordered(rs) && (rs != [] ==> then' <= rs[0].now)
    requires Simulates(cfg, table, forever, then')
    ensures Decisions(cfg, table, rs) == DecisionsForever(cfg, forever, rs)
    decreases |rs|
  {
    hide Gain;
    if rs != [] {
      var ip, now := rs[0].ip, rs[0].now;
      ServeSimulates(cfg, table, forever, then', ip, now);
      RunSimulates(cfg, Serve(cfg, table, ip, now).0, ServeForever(cfg, forever, ip, now).0, now, rs[1..]);
    }
  }

  /** With no burst every request is refused by either table. */
  lemma {:induction false} NoBurstRefusesAll(cfg: Config, table: Table, forever: Forever, rs: seq<Request>)
    requires cfg.burst <= 0
    ensures Decisions(cfg, table, rs) == DecisionsForever(cfg, forever, rs) == seq(|rs|, _ => false)
    decreases |rs|
  {
    hide Gain;
    if rs != [] {
      var ip, now := rs[0].ip, rs[0].now;
      NoBurstRefusesAll(cfg, Serve(cfg, table, ip, now).0, ServeForever(cfg, forever, ip, now).0, rs[1..]);
    }
  }

  /** Under the refill condition no run can tell the evicting table from one that
      never forgets. */
  lemma EvictionInvisible(cfg: Config, rs: seq<Request>)
    requires Forgiving(cfg) && Ordered(rs)
    ensures Decisions(cfg, map[], rs) == DecisionsForever(cfg, map[], rs)
  {
    hide Gain;
    if cfg.burst <= 0 {
      NoBurstRefusesAll(cfg, map[], map[], rs);
    } else {
      RunSimulates(cfg, map[], map[], 0.0, rs);
    }
  }

  // ---------------------------------------------------------------- how many get through

  /** How many of the requests at the given instants one bucket grants. */
  ghost function Granted(cfg: Config, b: Tokens, times: seq<real>): nat
    decreases |times|
  {
    if times == [] then 0
    else
      var (b', ok) := Take(cfg, b, times[0]);
      (if ok then 1 else 0) + Granted(cfg, b', times[1..])
  }

  ghost function TimesOf(rs: seq<Request>, ip: string): seq<real> {
    if rs == [] then []
    else if rs[0].ip == ip then [rs[0].now] + TimesOf(rs[1..], ip)
    else TimesOf(rs[1..], ip)
  }

  /** The requests of other IPs do not touch a bucket. */
  lemma {:induction false} AllowedIsGranted(cfg: Config, forever: Forever, rs: seq<Request>, ip: string)
    ensures Allowed(rs, DecisionsForever(cfg, forever, rs), ip) == Granted(cfg, Kept(cfg, forever, ip), TimesOf(rs, ip))
    decreases |rs|
  {
    hide Gain;
    if rs != [] {
      AllowedIsGranted(cfg, ServeForever(cfg, forever, rs[0].ip, rs[0].now).0, rs[1..], ip);
      assert ([rs[0].now] + TimesOf(rs[1..], ip))[1..] == TimesOf(rs[1..], ip);
    }
  }

  ghost predicate InOrder(from: real, times: seq<real>, to: real) {
    && from <= to
    && (forall i :: 0 <= i < |times| ==> from <= times[i] <= to)
    && (forall i, j :: 0 <= i < j < |times| ==> times[i] <= times[j])
  }

  lemma {:induction false} TimesInOrder(rs: seq<Request>, ip: string, from: real, to: real)
    requires Ordered(rs) && from <= to && forall i :: 0 <= i < |rs| ==> from <= rs[i].now <= to
    ensures InOrder(from, TimesOf(rs, ip), to)
    decreases |rs|
  {
    if rs != [] { TimesInOrder(rs[1..], ip, rs[0].now, to); }
  }

  /** In any window a bucket grants no more than it holds at the start plus what it gains. */
  lemma {:induction false} Budget(cfg: Config, b: Tokens, times: seq<real>, from: real, to: real)
    requires 1 <= cfg.burst && 0.0 <= b.tokens && b.last <= from && InOrder(from, times, to)
    ensures Granted(cfg, b, times) as real <= Advance(cfg, b, from) + Gain(cfg, to - from)
    decreases |times|
  {
    hide Gain;
    if times == [] {
      AtLeastEmpty(cfg, b, from);
      GainMono(cfg, 0.0, to - from);
      GainZero(cfg);
    } else {
      var now := times[0];
      var b' := Take(cfg, b, now).0;
      ChargeOne(cfg, b, now);
      Budget(cfg, b', times[1..], now, to);
      BudgetStep(cfg, b, from, now, to, Granted(cfg, b', times[1..]));
    }
  }

  lemma AdvanceGains(cfg: Config, b: Tokens, from: real, now: real)
    requires b.last <= from <= now
    ensures Advance(cfg, b, now) <= Advance(cfg, b, from) + Gain(cfg, now - from)
  {
    hide Gain;
    GainSplit(cfg, from - b.last, now - from);
    GainMono(cfg, 0.0, now - from);
    GainZero(cfg);
  }

  /** An allowed request takes exactly one token, a refused one takes none. */
  lemma ChargeOne(cfg: Config, b: Tokens, now: real)
    requires 1 <= cfg.burst && 0.0 <= b.tokens && b.last <= now
    ensures var (b', ok) := Take(cfg, b, now);
            && 0.0 <= b'.tokens && b'.last <= now
            && Advance(cfg, b', now) == Advance(cfg, b, now) - (if ok then 1.0 else 0.0)
  {
    hide Gain;
    GainZero(cfg);
  }

  /** How one request moves the budget of a window that starts at `from`. */
  lemma BudgetStep(cfg: Config, b: Tokens, from: real, now: real, to: real, rest: nat)
    requires 1 <= cfg.burst && 0.0 <= b.tokens && b.last <= from <= now <= to
    requires var (b', ok) := Take(cfg, b, now);
             rest as real <= Advance(cfg, b', now) + Gain(cfg, to - now)
    ensures ((if Take(cfg, b, now).1 then 1 else 0) + rest) as real
         <= Advance(cfg, b, from) + Gain(cfg, to - from)
  {
    hide Gain;
    AdvanceGains(cfg, b, from, now);
    ChargeOne(cfg, b, now);
    GainSplit(cfg, now - from, to - now);
  }

  lemma {:induction false} DecisionsForeverPrefix(cfg: Config, forever: Forever, rs: seq<Request>, n: nat)
    requires n <= |rs|
    ensures DecisionsForever(cfg, forever, rs)[..n] == DecisionsForever(cfg, forever, rs[..n])
    decreases |rs|
  {
    hide Gain;
    if n > 0 {
      assert rs[..n][1..] == rs[1..][..n - 1];
      DecisionsForeverPrefix(cfg, ServeForever(cfg, forever, rs[0].ip, rs[0].now).0, rs[1..], n - 1);
    }
  }

  /** The requests with index from i to j, both included, that were allowed for `ip`. */
  ghost function InWindow(rs: seq<Request>, ds: seq<bool>, ip: string, i: nat, j: nat): nat
    requires |rs| == |ds| && i <= j < |rs|
  {
    Allowed(rs[i..j + 1], ds[i..j + 1], ip)
  }

  /** The documented allowance: the burst at once, then the rate. */
  ghost function Bound(cfg: Config, w: real): real {
    Max(cfg.burst as real, 0.0) + Max(cfg.rate, 0.0) * w
  }

  lemma BoundIs(cfg: Config, w: real)
    ensures Bound(cfg, w) == Max(cfg.burst as real, 0.0) + Gain(cfg, w)
  {
    GainIs(cfg, w);
  }

  lemma AtLeastEmpty(cfg: Config, b: Tokens, now: real)
    requires 1 <= cfg.burst && 0.0 <= b.tokens && b.last <= now
    ensures 0.0 <= Advance(cfg, b, now)
  {
    hide Gain;
    GainMono(cfg, 0.0, now - b.last);
    GainZero(cfg);
  }

  lemma AtMostFull(cfg: Config, b: Tokens, now: real)
    ensures Advance(cfg, b, now) <= cfg.burst as real
  {
    hide Gain;
  }

  lemma GrantedBound(cfg: Config, b: Tokens, times: seq<real>, from: real, to: real)
    requires 1 <= cfg.burst && 0.0 <= b.tokens && b.last <= from && InOrder(from, times, to)
    ensures Granted(cfg, b, times) as real <= Bound(cfg, to - from)
  {
    hide Gain;
    Budget(cfg, b, times, from, to);
    AtMostFull(cfg, b, from);
    BoundIs(cfg, to - from);
  }

  lemma WindowIsGranted(cfg: Config, forever: Forever, rs: seq<Request>, ip: string, j: nat)
    requires j < |rs|
    ensures InWindow(rs, DecisionsForever(cfg, forever, rs), ip, 0, j)
         == Granted(cfg, Kept(cfg, forever, ip), TimesOf(rs[..j + 1], ip))
  {
    hide Gain;
    var ds := DecisionsForever(cfg, forever, rs);
    DecisionsForeverPrefix(cfg, forever, rs, j + 1);
    assert rs[0..j + 1] == rs[..j + 1] && ds[0..j + 1] == ds[..j + 1];
    AllowedIsGranted(cfg, forever, rs[..j + 1], ip);
  }

  lemma WindowFromStart(cfg: Config, forever: Forever, rs: seq<Request>, ip: string, j: nat)
    requires 1 <= cfg.burst && Ordered(rs) && j < |rs|
    requires 0.0 <= Kept(cfg, forever, ip).tokens && Kept(cfg, forever, ip).last <= rs[0].now
    ensures InWindow(rs, DecisionsForever(cfg, forever, rs), ip, 0, j) as real
         <= Bound(cfg, rs[j].now - rs[0].now)
  {
    hide Gain, Granted, DecisionsForever, TimesOf;
    WindowIsGranted(cfg, forever, rs, ip, j);
    TimesInOrder(rs[..j + 1], ip, rs[0].now, rs[j].now);
    GrantedBound(cfg, Kept(cfg, forever, ip), TimesOf(rs[..j + 1], ip), rs[0].now, rs[j].now);
  }

  lemma SliceOfTail<T>(s: seq<T>, i: nat, j: nat)
    requires 1 <= i <= j <= |s|
    ensures s[i..j] == s[1..][i - 1..j - 1]
  {
    forall k | 0 <= k < j - i ensures s[i..j][k] == s[1..][i - 1..j - 1][k] {
      assert s[i..j][k] == s[i + k];
      assert s[1..][i - 1..j - 1][k] == s[1..][i - 1 + k];
    }
  }

  lemma InWindowOfTail(rs: seq<Request>, ds: seq<bool>, ip: string, i: nat, j: nat)
    requires |ds| == |rs| && 1 <= i <= j < |rs|
    ensures InWindow(rs, ds, ip, i, j) == InWindow(rs[1..], ds[1..], ip, i - 1, j - 1)
  {
    SliceOfTail(rs, i, j + 1);
    SliceOfTail(ds, i, j + 1);
  }

  lemma {:induction false} ForeverWindow(cfg: Config, forever: Forever, rs: seq<Request>, ip: string, i: nat, j: nat)
    requires 1 <= cfg.burst && Ordered(rs) && i <= j < |rs|
    requires 0.0 <= Kept(cfg, forever, ip).tokens && Kept(cfg, forever, ip).last <= rs[0].now
    ensures InWindow(rs, DecisionsForever(cfg, forever, rs), ip, i, j) as real
         <= Bound(cfg, rs[j].now - rs[i].now)
    decreases |rs|
  {
    hide Gain;
    var ds := DecisionsForever(cfg, forever, rs);
    if i == 0 {
      WindowFromStart(cfg, forever, rs, ip, j);
    } else {
      hide Take, Kept, Bound;
      var next := ServeForever(cfg, forever, rs[0].ip, rs[0].now).0;
      NextKept(cfg, forever, rs, ip);
      ForeverWindow(cfg, next, rs[1..], ip, i - 1, j - 1);
      InWindowOfTail(rs, ds, ip, i, j);
      assert ds[1..] == DecisionsForever(cfg, next, rs[1..]);
      hide InWindow;
    }
  }

  lemma NextKept(cfg: Config, forever: Forever, rs: seq<Request>, ip: string)
    requires 1 <= cfg.burst && Ordered(rs) && 1 < |rs|
    requires 0.0 <= Kept(cfg, forever, ip).tokens && Kept(cfg, forever, ip).last <= rs[0].now
    ensures var next := ServeForever(cfg, forever, rs[0].ip, rs[0].now).0;
            && 0.0 <= Kept(cfg, next, ip).tokens && Kept(cfg, next, ip).last <= rs[1].now && Ordered(rs[1..])
  {
    hide Gain;
    ChargeOne(cfg, Kept(cfg, forever, ip), rs[0].now);
  }

  lemma BoundMono(cfg: Config, v: real, w: real)
    requires v <= w
    ensures Bound(cfg, v) <= Bound(cfg, w)
  {
    hide Gain, Bound;
    BoundIs(cfg, v);
    BoundIs(cfg, w);
    GainMono(cfg, v, w);
  }

  lemma {:induction false} NoneAllowed(rs: seq<Request>, ds: seq<bool>, ip: string)
    requires |rs| == |ds| && forall k :: 0 <= k < |ds| ==> !ds[k]
    ensures Allowed(rs, ds, ip) == 0
    decreases |rs|
  {
    if rs != [] { NoneAllowed(rs[1..], ds[1..], ip); }
  }

  /** A limiter that never forgets keeps the bound for every config. */
  lemma ForeverWindowBound(cfg: Config, rs: seq<Request>, ip: string, i: nat, j: nat)
    requires Ordered(rs) && i <= j < |rs|
    ensures InWindow(rs, DecisionsForever(cfg, map[], rs), ip, i, j) as real
         <= Bound(cfg, rs[j].now - rs[i].now)
  {
    hide Gain;
    if cfg.burst <= 0 {
      NoBurstRefusesAll(cfg, map[], map[], rs);
      NoneAllowed(rs[i..j + 1], DecisionsForever(cfg, map[], rs)[i..j + 1], ip);
      BoundIs(cfg, rs[j].now - rs[i].now);
      GainMono(cfg, 0.0, rs[j].now - rs[i].now);
      GainZero(cfg);
    } else {
      ForeverWindow(cfg, map[], rs, ip, i, j);
    }
  }

  /** Under the refill condition, in every window of length w at most Burst plus
      rate * w requests of an IP are allowed, evictions and all. */
  lemma WindowBound(cfg: Config, rs: seq<Request>, ip: string, i: nat, j: nat, w: real)
    requires Forgiving(cfg) && Ordered(rs) && i <= j < |rs| && rs[j].now - rs[i].now <= w
    ensures InWindow(rs, Decisions(cfg, map[], rs), ip, i, j) as real <= Bound(cfg, w)
  {
    hide Gain;
    EvictionInvisible(cfg, rs);
    ForeverWindowBound(cfg, rs, ip, i, j);
    BoundMono(cfg, rs[j].now - rs[i].now, w);
  }

  // ---------------------------------------------------------------- the condition is needed

  ghost function After(cfg: Config, table: Table, rs: seq<Request>): Table
    decreases |rs|
  {
    if rs == [] then table else After(cfg, Serve(cfg, table, rs[0].ip, rs[0].now).0, rs[1..])
  }

  lemma {:induction false} DecisionsConcat(cfg: Config, table: Table, a: seq<Request>, b: seq<Request>)
    ensures Decisions(cfg, table, a + b) == Decisions(cfg, table, a) + Decisions(cfg, After(cfg, table, a), b)
    decreases |a|
  {
    hide Gain;
    if a == [] {
      assert a + b == b;
    } else {
      assert (a + b)[1..] == a[1..] + b;
      DecisionsConcat(cfg, Serve(cfg, table, a[0].ip, a[0].now).0, a[1..], b);
    }
  }

  /** `n` requests from one IP at one instant. */
  ghost function Flood(ip: string, now: real, n: nat): (rs: seq<Request>)
    ensures |rs| == n && forall i :: 0 <= i < n ==> rs[i] == Request(ip, now)
  {
    seq(n, _ => Request(ip, now))
  }

  ghost function AllTrue(n: nat): (ds: seq<bool>)
    ensures |ds| == n && forall i :: 0 <= i < n ==> ds[i]
  {
    seq(n, _ => true)
  }

  lemma {:induction false} FloodAllowed(cfg: Config, table: Table, ip: string, now: real, n: nat)
    requires 1 <= cfg.burst && n <= cfg.burst && 0.0 <= now
    requires Advance(cfg, BucketOf(cfg, table, ip, now), now) >= n as real
    ensures Decisions(cfg, table, Flood(ip, now, n)) == AllTrue(n)
    ensures n > 0 ==> ip in After(cfg, table, Flood(ip, now, n)) && After(cfg, table, Flood(ip, now, n))[ip].seen == now
    decreases n
  {
    hide Gain;
    if n > 0 {
      var next := Serve(cfg, table, ip, now).0;
      assert Flood(ip, now, n)[1..] == Flood(ip, now, n - 1);
      var b := BucketOf(cfg, next, ip, now);
      if cfg.ttl < 0.0 {
        FreshIsFull(cfg, next, ip, now);
      } else {
        GainZero(cfg);
        assert b == Take(cfg, BucketOf(cfg, table, ip, now), now).0;
      }
      FloodAllowed(cfg, next, ip, now, n - 1);
      assert AllTrue(n) == [true] + AllTrue(n - 1);
    }
  }

  /** A pause long enough to be forgotten and too short to refill. */
  lemma ForgottenTooSoon(cfg: Config) returns (gap: real)
    requires !Forgiving(cfg)
    ensures 0.0 <= gap && cfg.ttl < gap && Gain(cfg, gap) < cfg.burst as real
  {
    var r, burst := Refill(cfg), cfg.burst as real;
    GainIs(cfg, cfg.ttl);
    if cfg.ttl < 0.0 {
      gap := 0.0;
    } else if r == 0.0 {
      gap := cfg.ttl + 1.0;
    } else {
      var extra := (burst - r * cfg.ttl) / (2.0 * r);
      assert extra * (2.0 * r) == burst - r * cfg.ttl;
      gap := cfg.ttl + extra;
      assert r * gap == r * cfg.ttl + r * extra;
      assert 0.0 < extra;
    }
  }

  lemma {:induction false} FloodCount(rs: seq<Request>, ip: string)
    requires forall i :: 0 <= i < |rs| ==> rs[i].ip == ip
    ensures Allowed(rs, AllTrue(|rs|), ip) == |rs|
    decreases |rs|
  {
    if rs != [] {
      assert AllTrue(|rs|)[1..] == AllTrue(|rs[1..]|);
      FloodCount(rs[1..], ip);
    }
  }

  lemma FreshIsFull(cfg: Config, table: Table, ip: string, now: real)
    requires ip in table ==> now - table[ip].seen > cfg.ttl
    requires 0.0 <= now
    ensures Advance(cfg, BucketOf(cfg, table, ip, now), now) == cfg.burst as real
  {
    hide Gain;
    GainMono(cfg, 0.0, now);
    GainZero(cfg);
  }

  /** Two bursts separated by a pause long enough to be forgotten are all allowed. */
  lemma TwoBursts(cfg: Config, ip: string, gap: real)
    requires 1 <= cfg.burst && 0.0 <= gap && cfg.ttl < gap
    ensures Decisions(cfg, map[], Flood(ip, 0.0, cfg.burst) + Flood(ip, gap, cfg.burst)) == AllTrue(2 * cfg.burst)
  {
    hide Gain;
    var a, b := Flood(ip, 0.0, cfg.burst), Flood(ip, gap, cfg.burst);
    FreshIsFull(cfg, map[], ip, 0.0);
    FloodAllowed(cfg, map[], ip, 0.0, cfg.burst);
    var mid := After(cfg, map[], a);
    FreshIsFull(cfg, mid, ip, gap);
    FloodAllowed(cfg, mid, ip, gap, cfg.burst);
    DecisionsConcat(cfg, map[], a, b);
    assert AllTrue(cfg.burst) + AllTrue(cfg.burst) == AllTrue(2 * cfg.burst);
  }

  /** Without the refill condition some run lets through more than the bound. */
  lemma ForgettingIsVisible(cfg: Config, ip: string) returns (rs: seq<Request>)
    requires !Forgiving(cfg)
    ensures Ordered(rs) && rs != []
    ensures InWindow(rs, Decisions(cfg, map[], rs), ip, 0, |rs| - 1) as real
          > Bound(cfg, rs[|rs| - 1].now - rs[0].now)
  {
    hide Gain;
    var gap := ForgottenTooSoon(cfg);
    rs := Flood(ip, 0.0, cfg.burst) + Flood(ip, gap, cfg.burst);
    TwoBursts(cfg, ip, gap);
    FloodCount(rs, ip);
    var ds := Decisions(cfg, map[], rs);
    assert rs[0..|rs|] == rs && ds[0..|rs|] == ds;
    BoundOfGap(cfg, gap, rs[|rs| - 1].now - rs[0].now);
  }

  lemma BoundOfGap(cfg: Config, gap: real, w: real)
    requires w == gap && 1 <= cfg.burst && Gain(cfg, gap) < cfg.burst as real
    ensures Bound(cfg, w) < (2 * cfg.burst) as real
  {
    hide Gain;
    BoundIs(cfg, w);
  }

  /** Eviction is invisible to every run exactly when an entry idle past the TTL has
      refilled, or when nothing is ever allowed. */
  lemma EvictionInvisibleIff(cfg: Config)
    ensures (forall rs :: Ordered(rs) ==> Decisions(cfg, map[], rs) == DecisionsForever(cfg, map[], rs))
        <==> Forgiving(cfg)
  {
    hide Gain;
    if Forgiving(cfg) {
      forall rs | Ordered(rs) ensures Decisions(cfg, map[], rs) == DecisionsForever(cfg, map[], rs) {
        EvictionInvisible(cfg, rs);
      }
    } else {
      var rs := ForgettingIsVisible(cfg, "ip");
      ForeverWindowBound(cfg, rs, "ip", 0, |rs| - 1);
      assert Decisions(cfg, map[], rs) != DecisionsForever(cfg, map[], rs);
    }
  }

  /** The evicting limiter keeps the window bound on every run under the same condition
      and no other. */
  lemma WindowBoundIff(cfg: Config, ip: string)
    ensures (forall rs: seq<Request>, i: nat, j: nat :: Ordered(rs) && i <= j < |rs| ==>
               InWindow(rs, Decisions(cfg, map[], rs), ip, i, j) as real <= Bound(cfg, rs[j].now - rs[i].now))
        <==> Forgiving(cfg)
  {
    hide Gain;
    if Forgiving(cfg) {
      forall rs: seq<Request>, i: nat, j: nat | Ordered(rs) && i <= j < |rs|
        ensures InWindow(rs, Decisions(cfg, map[], rs), ip, i, j) as real <= Bound(cfg, rs[j].now - rs[i].now)
      {
        WindowBound(cfg, rs, ip, i, j, rs[j].now - rs[i].now);
      }
    } else {
      var rs := ForgettingIsVisible(cfg, ip);
      var i: nat, j: nat := 0, |rs| - 1;
      assert InWindow(rs, Decisions(cfg, map[], rs), ip, i, j) as real > Bound(cfg, rs[j].now - rs[i].now);
    }
  }

  /** The shipped defaults, 5 per second with a burst of 20 and a TTL left at zero, are
      forgiving. */
  lemma DefaultsForgive()
    ensures Forgiving(WithDefaults(Config(5.0, 20, 0.0)))
  {}
}
