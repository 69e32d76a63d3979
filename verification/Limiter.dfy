/** The limiter of internal/httpmw/ratelimit.go itself: token buckets and the table of
    them, updated in place, proved against the tables of module RateLimit and the law of
    module RateLaw. */
module Limiter {
  import opened RateLaw
  import opened RateLimit

  /** The tokens a bucket holds at `now`: what it held plus the rate since it was last
      charged, cut at the burst. */
  ghost function Found(cfg: Config, b: Tokens, now: real): real {
    Min(cfg.burst as real, b.tokens + Max(cfg.rate, 0.0) * (now - Min(now, b.last)))
  }

  lemma FoundIsAdvance(cfg: Config, b: Tokens, now: real, gained: real)
    requires gained == if cfg.rate > 0.0 then cfg.rate * (now - Min(now, b.last)) else 0.0
    ensures Found(cfg, b, now) == Advance(cfg, b, now) == Min(cfg.burst as real, b.tokens + gained)
  {
    GainIs(cfg, now - Min(now, b.last));
  }

  /** A bucket and its token limiter; the two are made together and never shared. */
  class Bucket {
    const cfg: Config
    var tokens: real
    var last: real
    var seen: real
    ghost const owner: string  // the IP it was made for

    ghost function State(): Tokens
      reads this
    {
      Tokens(tokens, last)
    }

    constructor (cfg: Config, seen: real, ghost owner: string)
      ensures this.cfg == cfg && this.owner == owner && this.seen == seen && State() == Full(cfg)
    {
      this.cfg, this.owner, this.seen := cfg, owner, seen;
      tokens, last := cfg.burst as real, 0.0;
    }

    method Allow(now: real) returns (ok: bool)
      modifies this`tokens, this`last
      ensures (State(), ok) == Take(cfg, old(State()), now)
      ensures ok <==> 1 <= cfg.burst && 1.0 <= Found(cfg, old(State()), now)
      ensures State() == if ok then Tokens(Found(cfg, old(State()), now) - 1.0, now) else old(State())
    {
      hide Advance, Gain, Found;
      var dt := if now < last then 0.0 else now - last;
      var gained := if cfg.rate > 0.0 then cfg.rate * dt else 0.0;
      assert dt == now - Min(now, last);
      FoundIsAdvance(cfg, State(), now, gained);
      var t := tokens + gained;
      if t > cfg.burst as real {
        t := cfg.burst as real;
      }
      t := t - 1.0;
      ok := 1 <= cfg.burst && 0.0 <= t;
      if ok {
        tokens, last := t, now;
      }
    }
  }

  lemma SeenInTime(cfg: Config, table: Table, ip: string, now: real)
    ensures var table' := Serve(cfg, table, ip, now).0;
            forall k :: k in table' ==> if k == ip then table'[k].seen == now else now - table'[k].seen <= cfg.ttl
  {
    hide Take, BucketOf;
  }

  /** What one more request adds to the history. */
  lemma OneMore(cfg: Config, asked: seq<Request>, r: Request)
    ensures var table, answers := After(cfg, map[], asked), Decisions(cfg, map[], asked);
            var (table', ok) := Serve(cfg, table, r.ip, r.now);
            && After(cfg, map[], asked + [r]) == table' && Decisions(cfg, map[], asked + [r]) == answers + [ok]
            && (Ordered(asked + [r]) ==> (ok <==> Fits(cfg, Visits(asked, answers, r.ip), r.now, 1.0)))
  {
    hide Serve, Fits, Ordered, Visits;
    LastRequest(cfg, asked, r, r.ip);
    if Ordered(asked + [r]) { LastIsLawful(cfg, asked, r); }
  }

  class RateLimiter {
    const cfg: Config
    var buckets: map<string, Bucket>
    ghost var asked: seq<Request>  // every request so far
    ghost var answers: seq<bool>   // and whether it was let through

    /** Every bucket belongs to one IP and carries the middleware's config. */
    ghost predicate Owned()
      reads this
    {
      forall ip :: ip in buckets ==> buckets[ip].owner == ip && buckets[ip].cfg == cfg
    }

    /** The table and the answers are those of the requests so far. */
    ghost predicate Valid()
      reads this, buckets.Values
    {
      && Owned() && Contents() == After(cfg, map[], asked)
      && |answers| == |asked| && answers == Decisions(cfg, map[], asked)
    }

    ghost function Contents(): Table
      reads this, buckets.Values
    {
      map ip | ip in buckets :: Entry(buckets[ip].State(), buckets[ip].seen)
    }

    constructor (cfg: Config)
      ensures Valid() && Contents() == map[] && asked == []
      ensures this.cfg.rate == cfg.rate && this.cfg.burst == cfg.burst
      ensures this.cfg.ttl == if cfg.ttl == 0.0 then 300.0 else cfg.ttl
    {
      this.cfg := WithDefaults(cfg);
      buckets, asked, answers := map[], [], [];
    }

    /** Drops every bucket idle for longer than the TTL. */
    method DropIdle(now: real)
      requires Owned()
      modifies this`buckets
      ensures Owned() && buckets.Keys <= old(buckets.Keys)
      ensures forall k :: k in buckets ==> buckets[k] == old(buckets)[k]
      ensures Contents() == Evict(cfg, old(Contents()), now)
    {
      var rest := buckets.Keys;
      while rest != {}
        invariant rest <= buckets.Keys <= old(buckets.Keys)
        invariant forall k :: k in buckets ==> buckets[k] == old(buckets)[k]
        invariant forall k :: k in old(buckets) && k !in rest ==>
                    (k in buckets <==> now - old(buckets)[k].seen <= cfg.ttl)
        decreases rest
      {
        var k :| k in rest;
        if now - buckets[k].seen > cfg.ttl {
          buckets := buckets - {k};
        }
        rest := rest - {k};
      }
    }

    /** The bucket of `ip`, made full if it has none, marked as seen. */
    method Touch(ip: string, now: real) returns (b: Bucket)
      requires Owned()
      modifies this`buckets, buckets.Values
      ensures Owned() && ip in buckets && buckets[ip] == b
      ensures forall k :: k in buckets ==> buckets[k] in old(buckets.Values) || fresh(buckets[k])
      ensures Contents() == old(Contents())[
                ip := Entry(if ip in old(Contents()) then old(Contents())[ip].bucket else Full(cfg), now)]
    {
      hide Full;
      if ip in buckets {
        b := buckets[ip];
        assert forall k :: k in buckets ==> buckets[k].owner == k;
        b.seen := now;
        assert forall k :: k in buckets && k != ip ==> buckets[k] != b;
      } else {
        b := new Bucket(cfg, now, ip);
        buckets := buckets[ip := b];
      }
    }

    /** The bucket of `ip`, a new one if it has none or it was idle too long. */
    method Get(ip: string, now: real) returns (b: Bucket)
      requires Owned()
      modifies this`buckets, buckets.Values
      ensures Owned() && ip in buckets && buckets[ip] == b
      ensures forall k :: k in buckets ==> buckets[k] in old(buckets.Values) || fresh(buckets[k])
      ensures Contents() == Evict(cfg, old(Contents()), now)[ip := Entry(BucketOf(cfg, old(Contents()), ip, now), now)]
    {
      hide Evict, Full, Owned;
      DropIdle(now);
      b := Touch(ip, now);
    }

    /** The draw of one request: get its bucket, take a token. */
    method Draw(ip: string, now: real) returns (ok: bool)
      requires Owned()
      modifies this`buckets, buckets.Values
      ensures Owned()
      ensures forall k :: k in buckets ==> buckets[k] in old(buckets.Values) || fresh(buckets[k])
      ensures (Contents(), ok) == Serve(cfg, old(Contents()), ip, now)
    {
      hide Take, Gain, Evict, BucketOf;
      ghost var before := Contents();
      var b := Get(ip, now);
      assert (Contents()[ip]).bucket == b.State() == BucketOf(cfg, before, ip, now);
      ok := b.Allow(now);
      assert Contents() == Evict(cfg, before, now)[ip := Entry(b.State(), now)];
    }

    /** One request: the answer and the new table are those of `Serve`, what the table keeps
        was seen within the TTL, and, with the requests in the order of the clock, this one
        is let through exactly if it fits the burst and the rate. */
    method Handle(ip: string, now: real) returns (ok: bool)
      requires Valid()
      modifies this, buckets.Values
      ensures Valid() && asked == old(asked) + [Request(ip, now)] && answers == old(answers) + [ok]
      ensures forall k :: k in buckets ==> buckets[k] in old(buckets.Values) || fresh(buckets[k])
      ensures (Contents(), ok) == Serve(cfg, old(Contents()), ip, now)
      ensures forall k :: k in buckets ==> if k == ip then buckets[k].seen == now else now - buckets[k].seen <= cfg.ttl
      ensures Ordered(asked) ==> (ok <==> Fits(cfg, Visits(old(asked), old(answers), ip), now, 1.0))
    {
      hide Serve, After, Fits, Visits, Ordered, Decisions;
      ghost var before := Contents();
      ok := Draw(ip, now);
      OneMore(cfg, asked, Request(ip, now));
      asked, answers := asked + [Request(ip, now)], answers + [ok];
      SeenInTime(cfg, before, ip, now);
      assert forall k :: k in buckets ==> k in Contents() && Contents()[k].seen == buckets[k].seen;
    }
  }
}
