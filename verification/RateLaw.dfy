/** The exact law of the per-IP limiter, in terms of the requests and their answers alone.

    A request is let through exactly if, counted from each earlier request of its IP that
    the limiter still remembers, the requests let through since then and this one fit into
    the burst plus what the rate gives in that time. No bucket, refill or table occurs in
    the statement, and the statement decides every answer. */
module RateLaw {
  import opened RateLimit

  /** One IP's view of a run: when it asked and what it was told. */
  datatype Visit = Visit(now: real, ok: bool)

  ghost function Visits(rs: seq<Request>, ds: seq<bool>, ip: string): seq<Visit>
    requires |rs| == |ds|
  {
    if rs == [] then []
    else
      var n := |rs| - 1;
      Visits(rs[..n], ds[..n], ip) + (if rs[n].ip == ip then [Visit(rs[n].now, ds[n])] else [])
  }

  ghost function Passed(vs: seq<Visit>): nat {
    if vs == [] then 0 else Passed(vs[..|vs| - 1]) + (if vs[|vs| - 1].ok then 1 else 0)
  }

  /** From visit i up to a visit at `now` no gap is longer than the TTL. */
  ghost predicate Remembered(cfg: Config, vs: seq<Visit>, i: nat, now: real)
    requires i < |vs|
  {
    && (forall k :: i < k < |vs| ==> vs[k].now - vs[k - 1].now <= cfg.ttl)
    && now - vs[|vs| - 1].now <= cfg.ttl
  }

  /** `x` more requests at `now` would fit, counted from any remembered visit. */
  ghost predicate Fits(cfg: Config, vs: seq<Visit>, now: real, x: real) {
    && x <= cfg.burst as real
    && forall i :: 0 <= i < |vs| && Remembered(cfg, vs, i, now) ==>
         Passed(vs[i..]) as real + x <= cfg.burst as real + Max(cfg.rate, 0.0) * (now - vs[i].now)
  }

  ghost predicate Lawful(cfg: Config, vs: seq<Visit>) {
    forall j :: 0 <= j < |vs| ==> (vs[j].ok <==> Fits(cfg, vs[..j], vs[j].now, 1.0))
  }

  function Min(a: real, b: real): real { if a <= b then a else b }

  // ---------------------------------------------------------------- the level of a bucket

  /** The tokens a request of `ip` at `now` would find. */
  ghost function Level(cfg: Config, table: Table, ip: string, now: real): real {
    Advance(cfg, BucketOf(cfg, table, ip, now), now)
  }

  /** Every entry was charged no later than it was seen, and seen no later than `now`. */
  ghost predicate Dated(table: Table, now: real) {
    forall ip :: ip in table ==> 0.0 <= table[ip].bucket.last <= table[ip].seen <= now
  }

  lemma DatedStep(cfg: Config, table: Table, then': real, ip: string, now: real)
    requires Dated(table, then') && 0.0 <= then' <= now
    ensures Dated(Serve(cfg, table, ip, now).0, now)
  {
    hide Gain, Advance;
  }

  lemma LevelOfOther(cfg: Config, table: Table, other: string, at: real, ip: string, now: real)
    requires other != ip && at <= now
    ensures Level(cfg, Serve(cfg, table, other, at).0, ip, now) == Level(cfg, table, ip, now)
  {
    hide Gain, Advance, Take;
  }

  lemma FullLevel(cfg: Config, now: real)
    requires 0.0 <= now
    ensures Advance(cfg, Full(cfg), now) == cfg.burst as real
  {
    hide Gain;
    GainMono(cfg, 0.0, now);
    GainZero(cfg);
  }

  /** Between two requests a bucket gains at the rate, never beyond the burst. */
  lemma AdvanceTwice(cfg: Config, b: Tokens, at: real, now: real)
    requires b.last <= at <= now
    ensures Advance(cfg, b, now) == Min(cfg.burst as real, Advance(cfg, b, at) + Gain(cfg, now - at))
  {
    hide Gain;
    GainSplit(cfg, at - b.last, now - at);
    GainMono(cfg, 0.0, now - at);
    GainZero(cfg);
  }

  lemma LevelAfterTake(cfg: Config, b: Tokens, at: real, now: real)
    requires 1 <= cfg.burst && b.last <= at <= now
    ensures var (b', ok) := Take(cfg, b, at);
            && (ok <==> Advance(cfg, b, at) >= 1.0)
            && Advance(cfg, b', now)
            == Min(cfg.burst as real, Advance(cfg, b, at) - (if ok then 1.0 else 0.0) + Gain(cfg, now - at))
  {
    hide Gain;
    GainZero(cfg);
    AdvanceTwice(cfg, b, at, now);
  }

  lemma ChargedIsDated(cfg: Config, table: Table, then': real, ip: string, at: real)
    requires Dated(table, then') && 0.0 <= then' <= at
    ensures 0.0 <= BucketOf(cfg, table, ip, at).last <= at
  {}

  lemma BucketAfter(cfg: Config, table: Table, ip: string, at: real, now: real)
    requires at <= now
    ensures BucketOf(cfg, Serve(cfg, table, ip, at).0, ip, now)
         == if now - at > cfg.ttl then Full(cfg) else Take(cfg, BucketOf(cfg, table, ip, at), at).0
  {
    hide Gain, Advance, Take;
  }

  lemma LevelOfSame(cfg: Config, table: Table, then': real, ip: string, at: real, now: real)
    requires 1 <= cfg.burst && Dated(table, then') && 0.0 <= then' <= at <= now
    ensures var (table', ok) := Serve(cfg, table, ip, at);
            && (ok <==> Level(cfg, table, ip, at) >= 1.0)
            && Level(cfg, table', ip, now) == if now - at > cfg.ttl then cfg.burst as real
                 else Min(cfg.burst as real,
                          Level(cfg, table, ip, at) - (if ok then 1.0 else 0.0) + Gain(cfg, now - at))
  {
    hide Gain, Advance, Take, Evict, Dated;
    ChargedIsDated(cfg, table, then', ip, at);
    BucketAfter(cfg, table, ip, at, now);
    LevelAfterTake(cfg, BucketOf(cfg, table, ip, at), at, now);
    FullLevel(cfg, now);
    hide BucketOf;
  }

  // ---------------------------------------------------------------- the law, visit by visit

  lemma PassedTail(vs: seq<Visit>, v: Visit, i: nat)
    requires i <= |vs|
    ensures Passed((vs + [v])[i..]) == Passed(vs[i..]) + (if v.ok then 1 else 0)
  {
    assert (vs + [v])[i..][..|vs| - i] == vs[i..];
    assert (vs + [v])[i..][|vs| - i] == v;
  }

  lemma RememberedStep(cfg: Config, vs: seq<Visit>, v: Visit, i: nat, now: real)
    requires i < |vs|
    ensures Remembered(cfg, vs + [v], i, now) <==> Remembered(cfg, vs, i, v.now) && now - v.now <= cfg.ttl
  {
    var all := vs + [v];
    if Remembered(cfg, all, i, now) {
      assert all[|vs|].now - all[|vs| - 1].now <= cfg.ttl;
      forall k | i < k < |vs| ensures vs[k].now - vs[k - 1].now <= cfg.ttl {
        assert all[k].now - all[k - 1].now <= cfg.ttl;
      }
    }
  }

  /** The room counted from one visit. */
  ghost predicate FitsFrom(cfg: Config, vs: seq<Visit>, i: nat, now: real, x: real)
    requires i < |vs|
  {
    Passed(vs[i..]) as real + x <= cfg.burst as real + Max(cfg.rate, 0.0) * (now - vs[i].now)
  }

  lemma FitsFromStep(cfg: Config, vs: seq<Visit>, v: Visit, i: nat, now: real, x: real)
    requires i < |vs|
    ensures FitsFrom(cfg, vs + [v], i, now, x)
        <==> FitsFrom(cfg, vs, i, v.now, x + (if v.ok then 1.0 else 0.0) - Gain(cfg, now - v.now))
  {
    var r := Max(cfg.rate, 0.0);
    PassedTail(vs, v, i);
    GainIs(cfg, now - v.now);
    assert r * (now - vs[i].now) == r * (now - v.now) + r * (v.now - vs[i].now);
    hide Max, Gain;
  }

  lemma FitsFromLast(cfg: Config, vs: seq<Visit>, v: Visit, now: real, x: real)
    ensures FitsFrom(cfg, vs + [v], |vs|, now, x)
        <==> x + (if v.ok then 1.0 else 0.0) - Gain(cfg, now - v.now) <= cfg.burst as real
  {
    PassedTail(vs, v, |vs|);
    assert vs[|vs|..] == [];
    GainIs(cfg, now - v.now);
  }

  /** What fits after one more visit, in terms of what fitted at it. */
  lemma FitsStep(cfg: Config, vs: seq<Visit>, v: Visit, now: real, x: real)
    ensures Fits(cfg, vs + [v], now, x)
        <==> x <= cfg.burst as real
             && (now - v.now <= cfg.ttl ==>
                   Fits(cfg, vs, v.now, x + (if v.ok then 1.0 else 0.0) - Gain(cfg, now - v.now)))
  {
    hide Gain, Max, Passed, Remembered, FitsFrom;
    var all := vs + [v];
    var y := x + (if v.ok then 1.0 else 0.0) - Gain(cfg, now - v.now);
    FitsByParts(cfg, all, now, x);
    FitsByParts(cfg, vs, v.now, y);
    FitsFromLast(cfg, vs, v, now, x);
    LastRemembered(cfg, vs, v, now);
    forall i | 0 <= i < |vs|
      ensures Remembered(cfg, all, i, now) <==> Remembered(cfg, vs, i, v.now) && now - v.now <= cfg.ttl
    {
      RememberedStep(cfg, vs, v, i, now);
    }
    forall i | 0 <= i < |vs| ensures FitsFrom(cfg, all, i, now, x) <==> FitsFrom(cfg, vs, i, v.now, y) {
      FitsFromStep(cfg, vs, v, i, now, x);
    }
    hide Fits;
    assert |all| == |vs| + 1;
  }

  lemma FitsByParts(cfg: Config, vs: seq<Visit>, now: real, x: real)
    ensures Fits(cfg, vs, now, x)
        <==> x <= cfg.burst as real
             && forall i :: 0 <= i < |vs| && Remembered(cfg, vs, i, now) ==> FitsFrom(cfg, vs, i, now, x)
  {
    hide Max, Passed, Remembered;
  }

  lemma LastRemembered(cfg: Config, vs: seq<Visit>, v: Visit, now: real)
    ensures Remembered(cfg, vs + [v], |vs|, now) <==> now - v.now <= cfg.ttl
  {}

  // ---------------------------------------------------------------- the law, run by run

  lemma {:induction false} AfterConcat(cfg: Config, table: Table, rs: seq<Request>, r: Request)
    ensures After(cfg, table, rs + [r]) == Serve(cfg, After(cfg, table, rs), r.ip, r.now).0
    decreases |rs|
  {
    hide Gain, Take;
    if rs == [] {
      assert rs + [r] == [r];
    } else {
      assert (rs + [r])[1..] == rs[1..] + [r];
      AfterConcat(cfg, Serve(cfg, table, rs[0].ip, rs[0].now).0, rs[1..], r);
    }
  }

  /** A run and its last request. */
  lemma LastRequest(cfg: Config, rs: seq<Request>, r: Request, ip: string)
    ensures var table := After(cfg, map[], rs);
            var ok := Serve(cfg, table, r.ip, r.now).1;
            && After(cfg, map[], rs + [r]) == Serve(cfg, table, r.ip, r.now).0
            && Decisions(cfg, map[], rs + [r]) == Decisions(cfg, map[], rs) + [ok]
            && Visits(rs + [r], Decisions(cfg, map[], rs + [r]), ip)
            == Visits(rs, Decisions(cfg, map[], rs), ip) + (if r.ip == ip then [Visit(r.now, ok)] else [])
  {
    hide Gain, Take, Serve;
    AfterConcat(cfg, map[], rs, r);
    DecisionsConcat(cfg, map[], rs, [r]);
    assert (rs + [r])[..|rs|] == rs;
    var ds := Decisions(cfg, map[], rs);
    var ok := Serve(cfg, After(cfg, map[], rs), r.ip, r.now).1;
    assert (ds + [ok])[..|rs|] == ds;
  }

  lemma {:induction false} RunDated(cfg: Config, rs: seq<Request>, now: real)
    requires Ordered(rs) && 0.0 <= now && forall i :: 0 <= i < |rs| ==> rs[i].now <= now
    ensures Dated(After(cfg, map[], rs), now)
    decreases |rs|
  {
    if rs != [] {
      var n := |rs| - 1;
      assert rs == rs[..n] + [rs[n]];
      RunDated(cfg, rs[..n], rs[n].now);
      LastRequest(cfg, rs[..n], rs[n], rs[n].ip);
      DatedStep(cfg, After(cfg, map[], rs[..n]), rs[n].now, rs[n].ip, rs[n].now);
    }
  }

  /** The tokens a request would find are exactly what fits. */
  lemma {:induction false} LevelIsWhatFits(cfg: Config, rs: seq<Request>, ip: string, now: real, x: real)
    requires 1 <= cfg.burst && Ordered(rs) && 0.0 <= now && forall i :: 0 <= i < |rs| ==> rs[i].now <= now
    ensures x <= Level(cfg, After(cfg, map[], rs), ip, now)
        <==> Fits(cfg, Visits(rs, Decisions(cfg, map[], rs), ip), now, x)
    decreases |rs|
  {
    hide Gain, Serve, Advance, BucketOf, Dated, Passed, Remembered;
    if rs == [] {
      NothingYet(cfg, ip, now);
    } else {
      hide Fits, Level;
      var n := |rs| - 1;
      var before, at := rs[..n], rs[n].now;
      assert rs == before + [rs[n]];
      LastRequest(cfg, before, rs[n], ip);
      var table, vs := After(cfg, map[], before), Visits(before, Decisions(cfg, map[], before), ip);
      if rs[n].ip != ip {
        LevelOfOther(cfg, table, rs[n].ip, at, ip, now);
        assert vs + [] == vs;
        LevelIsWhatFits(cfg, before, ip, now, x);
      } else {
        var ok := Serve(cfg, table, ip, at).1;
        var y := x + (if ok then 1.0 else 0.0) - Gain(cfg, now - at);
        RunDated(cfg, before, at);
        LevelOfSame(cfg, table, at, ip, at, now);
        LevelIsWhatFits(cfg, before, ip, at, y);
        FitsStep(cfg, vs, Visit(at, ok), now, x);
        assert x <= Level(cfg, After(cfg, map[], rs), ip, now)
          <==> x <= cfg.burst as real && (now - at <= cfg.ttl ==> y <= Level(cfg, table, ip, at));
      }
    }
  }

  lemma NothingYet(cfg: Config, ip: string, now: real)
    requires 0.0 <= now
    ensures Level(cfg, map[], ip, now) == cfg.burst as real
  {
    hide Gain, Advance;
    FullLevel(cfg, now);
  }

  lemma NoBurstRefuses(cfg: Config, table: Table, ip: string, now: real)
    requires cfg.burst <= 0
    ensures !Serve(cfg, table, ip, now).1
  {
    hide Gain, Advance, BucketOf;
  }

  lemma AllowedIffLevel(cfg: Config, table: Table, then': real, ip: string, now: real)
    requires 1 <= cfg.burst && Dated(table, then') && 0.0 <= then' <= now
    ensures Serve(cfg, table, ip, now).1 <==> 1.0 <= Level(cfg, table, ip, now)
  {
    LevelOfSame(cfg, table, then', ip, now, now);
  }

  /** The last request of a run is let through exactly if it fits. */
  lemma LastIsLawful(cfg: Config, rs: seq<Request>, r: Request)
    requires Ordered(rs + [r])
    ensures Serve(cfg, After(cfg, map[], rs), r.ip, r.now).1
        <==> Fits(cfg, Visits(rs, Decisions(cfg, map[], rs), r.ip), r.now, 1.0)
  {
    hide Gain, Serve, Level, Dated, Passed, Remembered;
    assert (rs + [r])[|rs|] == r;
    forall i | 0 <= i < |rs| ensures 0.0 <= rs[i].now <= r.now { assert (rs + [r])[i] == rs[i]; }
    forall i, j | 0 <= i < j < |rs| ensures rs[i].now <= rs[j].now {
      assert (rs + [r])[i] == rs[i] && (rs + [r])[j] == rs[j];
    }
    if cfg.burst <= 0 {
      NoBurstRefuses(cfg, After(cfg, map[], rs), r.ip, r.now);
    } else {
      hide Fits;
      RunDated(cfg, rs, r.now);
      AllowedIffLevel(cfg, After(cfg, map[], rs), r.now, r.ip, r.now);
      LevelIsWhatFits(cfg, rs, r.ip, r.now, 1.0);
    }
  }

  /** In every run in clock order over any IPs, evictions and all: each request of an IP is
      let through exactly if it fits. */
  lemma {:induction false} EveryRunIsLawful(cfg: Config, rs: seq<Request>, ip: string)
    requires Ordered(rs)
    ensures Lawful(cfg, Visits(rs, Decisions(cfg, map[], rs), ip))
    decreases |rs|
  {
    hide Gain, Serve, Fits;
    if rs != [] {
      var n := |rs| - 1;
      assert rs == rs[..n] + [rs[n]];
      EveryRunIsLawful(cfg, rs[..n], ip);
      LastRequest(cfg, rs[..n], rs[n], ip);
      LastIsLawful(cfg, rs[..n], rs[n]);
      var vs, all := Visits(rs[..n], Decisions(cfg, map[], rs[..n]), ip), Visits(rs, Decisions(cfg, map[], rs), ip);
      forall j | 0 <= j < |all| ensures all[j].ok <==> Fits(cfg, all[..j], all[j].now, 1.0) {
        assert all[..j] == vs[..j];
      }
    }
  }

  /** The law leaves nothing open: the times of an IP's requests decide its answers. */
  lemma {:induction false} LawDecides(cfg: Config, vs: seq<Visit>, ws: seq<Visit>)
    requires Lawful(cfg, vs) && Lawful(cfg, ws) && |vs| == |ws|
    requires forall i :: 0 <= i < |vs| ==> vs[i].now == ws[i].now
    ensures vs == ws
    decreases |vs|
  {
    hide Fits;
    if vs != [] {
      var n := |vs| - 1;
      LawfulPrefix(cfg, vs);
      LawfulPrefix(cfg, ws);
      LawDecides(cfg, vs[..n], ws[..n]);
      assert vs[n].ok <==> Fits(cfg, vs[..n], vs[n].now, 1.0);
      assert ws[n].ok <==> Fits(cfg, ws[..n], ws[n].now, 1.0);
      assert vs == vs[..n] + [vs[n]] && ws == ws[..n] + [ws[n]];
    }
  }

  lemma LawfulPrefix(cfg: Config, vs: seq<Visit>)
    requires Lawful(cfg, vs) && vs != []
    ensures Lawful(cfg, vs[..|vs| - 1])
  {
    hide Fits;
    var n := |vs| - 1;
    forall j | 0 <= j < n ensures vs[..n][j].ok <==> Fits(cfg, vs[..n][..j], vs[..n][j].now, 1.0) {
      assert vs[..n][..j] == vs[..j];
    }
  }
}
