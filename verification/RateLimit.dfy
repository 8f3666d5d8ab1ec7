/** The token-bucket rate limiter shared by the relayer and the publisher. */
module RateLimit {

  datatype Bucket = Bucket(tokens: real, lastRefill: real)

  datatype Params = Params(window: real, maxRequests: real, burst: real)

  datatype Verdict = Verdict(allowed: bool, limit: real, remaining: int, resetMs: real)

  datatype Request = Request(source: string, at: real)

  predicate ParamsOk(p: Params) {
    p.window > 0.0 && p.maxRequests >= 0.0 && p.burst >= 0.0
  }

  function Min(a: real, b: real): real {
    if a <= b then a else b
  }

  function Refilled(p: Params, b: Bucket, now: real): Bucket
    requires ParamsOk(p)
  {
    var elapsed := now - b.lastRefill;
    if elapsed >= p.window then Bucket(p.burst, now)
    else Bucket(Min(p.burst, b.tokens + elapsed / p.window * p.maxRequests), now)
  }

  /** The bucket a request finds, created full when the source is unknown, after its refill. */
  function Found(p: Params, buckets: map<string, Bucket>, r: Request): Bucket
    requires ParamsOk(p)
  {
    Refilled(p, if r.source in buckets then buckets[r.source] else Bucket(p.burst, r.at), r.at)
  }

  function Spent(b: Bucket): Bucket {
    if b.tokens >= 1.0 then b.(tokens := b.tokens - 1.0) else b
  }

  function Answer(p: Params, b: Bucket): Verdict {
    Verdict(b.tokens >= 1.0, p.burst, if b.tokens >= 1.0 then (b.tokens - 1.0).Floor else 0, b.lastRefill + p.window)
  }

  predicate Stale(p: Params, b: Bucket, now: real) {
    now - b.lastRefill > p.window * 3.0
  }

  function Swept(p: Params, buckets: map<string, Bucket>, now: real): map<string, Bucket> {
    map k | k in buckets && !Stale(p, buckets[k], now) :: buckets[k]
  }

  datatype Limiter = Limiter(buckets: map<string, Bucket>, lastCleanup: real)

  /** One request, with the sweep `Consume` makes, or with none at all. */
  function Sweep(p: Params, l: Limiter, now: real, sweeping: bool): Limiter {
    if sweeping && now - l.lastCleanup >= p.window * 2.0 then Limiter(Swept(p, l.buckets, now), now) else l
  }

  function Next(p: Params, l: Limiter, r: Request, sweeping: bool): Limiter
    requires ParamsOk(p)
  {
    var l' := Sweep(p, l, r.at, sweeping);
    l'.(buckets := l'.buckets[r.source := Spent(Found(p, l'.buckets, r))])
  }

  class RateLimiter {
    const p: Params
    var buckets: map<string, Bucket>
    var lastCleanup: real

    function State(): Limiter
      reads this
    {
      Limiter(buckets, lastCleanup)
    }

    constructor (p: Params, now: real)
      ensures this.p == p && State() == Limiter(map[], now)
    {
      this.p := p;
      this.buckets := map[];
      this.lastCleanup := now;
    }

    /** Consume one token, sweeping stale buckets at most every two windows. */
    method Consume(r: Request) returns (v: Verdict)
      requires ParamsOk(p)
      modifies this
      ensures State() == Next(p, old(State()), r, true)
      ensures v == Answer(p, Found(p, Sweep(p, old(State()), r.at, true).buckets, r))
    {
      MaybeCleanup(r.at);
      var bucket := if r.source in buckets then buckets[r.source] else Bucket(p.burst, r.at);
      var elapsed := r.at - bucket.lastRefill;
      if elapsed >= p.window {
        bucket := Bucket(p.burst, r.at);
      } else {
        var refill := elapsed / p.window * p.maxRequests;
        bucket := Bucket(Min(p.burst, bucket.tokens + refill), r.at);
      }
      var resetMs := bucket.lastRefill + p.window;
      if bucket.tokens >= 1.0 {
        bucket := bucket.(tokens := bucket.tokens - 1.0);
        v := Verdict(true, p.burst, bucket.tokens.Floor, resetMs);
      } else {
        v := Verdict(false, p.burst, 0, resetMs);
      }
      buckets := buckets[r.source := bucket];
    }

    method MaybeCleanup(now: real)
      modifies this
      ensures State() == Sweep(p, old(State()), now, true)
    {
      if now - lastCleanup < p.window * 2.0 {
        return;
      }
      lastCleanup := now;
      var keys := buckets.Keys;
      while keys != {}
        invariant keys <= old(buckets).Keys && lastCleanup == now
        invariant forall k :: k in buckets ==> k in old(buckets) && buckets[k] == old(buckets)[k]
        invariant forall k :: k in old(buckets) && k !in buckets ==> Stale(p, old(buckets)[k], now)
        invariant forall k :: k in buckets && k !in keys ==> !Stale(p, buckets[k], now)
        decreases keys
      {
        var key :| key in keys;
        if key in buckets && now - buckets[key].lastRefill > p.window * 3.0 {
          buckets := buckets - {key};
        }
        keys := keys - {key};
      }
    }
  }

  // ---- Runs -------------------------------------------------------------------------------

  function Verdicts(p: Params, l: Limiter, rs: seq<Request>, sweeping: bool): (vs: seq<Verdict>)
    requires ParamsOk(p)
    ensures |vs| == |rs|
    decreases |rs|
  {
    if rs == [] then []
    else [Answer(p, Found(p, Sweep(p, l, rs[0].at, sweeping).buckets, rs[0]))]
         + Verdicts(p, Next(p, l, rs[0], sweeping), rs[1..], sweeping)
  }

  predicate ClockOk(rs: seq<Request>, from: real) {
    (rs != [] ==> from <= rs[0].at) && forall i :: 0 < i < |rs| ==> rs[i - 1].at <= rs[i].at
  }

  /** The swept buckets are those of `full`, less some that any later request would refill. */
  predicate Sweeps(p: Params, full: map<string, Bucket>, swept: map<string, Bucket>, now: real) {
    && (forall k :: k in swept ==> k in full && swept[k] == full[k])
    && (forall k :: k in full && k !in swept ==> now - full[k].lastRefill >= p.window)
  }

  lemma SameBucket(p: Params, full: map<string, Bucket>, swept: map<string, Bucket>, r: Request)
    requires ParamsOk(p) && Sweeps(p, full, swept, r.at)
    ensures Found(p, full, r) == Found(p, swept, r)
  {
  }

  lemma NextSweeps(p: Params, full: Limiter, swept: Limiter, r: Request)
    requires ParamsOk(p) && Sweeps(p, full.buckets, swept.buckets, r.at)
    ensures Sweeps(p, full.buckets, Sweep(p, swept, r.at, true).buckets, r.at)
    ensures Sweeps(p, Next(p, full, r, false).buckets, Next(p, swept, r, true).buckets, r.at)
  {
    SameBucket(p, full.buckets, Sweep(p, swept, r.at, true).buckets, r);
  }

  lemma {:induction false} SweepUnobservableFrom(p: Params, full: Limiter, swept: Limiter, rs: seq<Request>, now: real)
    requires ParamsOk(p) && ClockOk(rs, now) && Sweeps(p, full.buckets, swept.buckets, now)
    ensures Verdicts(p, swept, rs, true) == Verdicts(p, full, rs, false)
    decreases |rs|
  {
    if rs != [] {
      var r := rs[0];
      assert ClockOk(rs[1..], r.at) by {
        assert forall i :: 0 < i < |rs[1..]| ==> rs[1..][i - 1] == rs[i] && rs[1..][i] == rs[i + 1];
      }
      NextSweeps(p, full, swept, r);
      SameBucket(p, full.buckets, Sweep(p, swept, r.at, true).buckets, r);
      SweepUnobservableFrom(p, Next(p, full, r, false), Next(p, swept, r, true), rs[1..], r.at);
    }
  }

  /** Deleting stale buckets never changes an answer, compared with never deleting any. */
  lemma SweepUnobservable(p: Params, l: Limiter, rs: seq<Request>, now: real)
    requires ParamsOk(p) && ClockOk(rs, now)
    ensures Verdicts(p, l, rs, true) == Verdicts(p, l, rs, false)
  {
    SweepUnobservableFrom(p, l, l, rs, now);
  }

  // ---- The rate bound ---------------------------------------------------------------------

  function Rate(p: Params): real
    requires ParamsOk(p)
  {
    (if p.burst >= p.maxRequests then p.burst else p.maxRequests) / p.window
  }

  /** Requests of `source` that were allowed. */
  function Allowed(rs: seq<Request>, vs: seq<Verdict>, source: string): real
    requires |rs| == |vs|
  {
    if rs == [] then 0.0
    else (if rs[0].source == source && vs[0].allowed then 1.0 else 0.0) + Allowed(rs[1..], vs[1..], source)
  }

  predicate BucketsOk(p: Params, buckets: map<string, Bucket>, now: real) {
    forall k :: k in buckets ==> 0.0 <= buckets[k].tokens <= p.burst && buckets[k].lastRefill <= now
  }

  function End(rs: seq<Request>, from: real): real {
    if rs == [] then from else rs[|rs| - 1].at
  }

  lemma RefillBound(p: Params, b: Bucket, now: real)
    requires ParamsOk(p) && 0.0 <= b.tokens <= p.burst && b.lastRefill <= now
    ensures var t := Refilled(p, b, now).tokens;
            0.0 <= t <= p.burst && t <= b.tokens + Rate(p) * (now - b.lastRefill)
  {
    var e := now - b.lastRefill;
    var most := if p.burst >= p.maxRequests then p.burst else p.maxRequests;
    PartialWindow(e, p.window, p.maxRequests, most);
    if e >= p.window {
      WholeWindow(e, p.window, most);
    }
  }

  lemma PartialWindow(e: real, w: real, a: real, most: real)
    requires w > 0.0 && e >= 0.0 && 0.0 <= a <= most
    ensures 0.0 <= e / w * a <= most / w * e
  {
    var q := e / w;
    assert e == q * w && q >= 0.0;
    assert most / w * e == most * q by {
      assert most / w * w == most;
      assert most / w * (q * w) == most / w * w * q;
    }
    Product(q, a);
    Product(q, most - a);
    assert q * (most - a) == most * q - q * a;
  }

  lemma WholeWindow(e: real, w: real, most: real)
    requires w > 0.0 && e >= w && most >= 0.0
    ensures most <= most / w * e
  {
    var k := most / w;
    assert k >= 0.0 && k * w == most;
    Product(k, e - w);
    assert k * (e - w) == k * e - k * w;
  }

  lemma NextOk(p: Params, l: Limiter, r: Request)
    requires ParamsOk(p) && BucketsOk(p, l.buckets, r.at)
    ensures BucketsOk(p, Next(p, l, r, false).buckets, r.at)
  {
    RefillBound(p, if r.source in l.buckets then l.buckets[r.source] else Bucket(p.burst, r.at), r.at);
  }

  lemma {:induction false} TailClock(rs: seq<Request>, from: real)
    requires rs != [] && ClockOk(rs, from)
    ensures ClockOk(rs[1..], rs[0].at) && End(rs[1..], rs[0].at) == End(rs, from) >= rs[0].at
  {
    forall i | 0 < i < |rs[1..]|
      ensures rs[1..][i - 1].at <= rs[1..][i].at
    {
      assert rs[i].at <= rs[i + 1].at;
    }
    if |rs| > 1 {
      TailClock(rs[1..], rs[0].at);
    }
  }

  lemma {:induction false} AllowedStep(p: Params, l: Limiter, rs: seq<Request>, source: string)
    requires ParamsOk(p) && rs != []
    ensures var r := rs[0];
            Allowed(rs, Verdicts(p, l, rs, false), source) ==
            (if r.source == source && Found(p, l.buckets, r).tokens >= 1.0 then 1.0 else 0.0)
            + Allowed(rs[1..], Verdicts(p, Next(p, l, r, false), rs[1..], false), source)
  {
    var tail := Verdicts(p, Next(p, l, rs[0], false), rs[1..], false);
    assert Verdicts(p, l, rs, false)[1..] == tail;
  }

  /** Tokens that may flow in between two moments. */
  type Flow = (real, real) -> real

  ghost predicate FlowOk(p: Params, flow: Flow)
    requires ParamsOk(p)
  {
    && (forall a, b :: a <= b ==> flow(a, b) >= 0.0)
    && (forall a, b, c :: a <= b <= c ==> flow(a, b) + flow(b, c) == flow(a, c))
    && (forall b: Bucket, now: real :: 0.0 <= b.tokens <= p.burst && b.lastRefill <= now ==>
          Refilled(p, b, now).tokens <= b.tokens + flow(b.lastRefill, now))
  }

  /** A known source gets at most what its bucket holds plus what flows in. */
  lemma {:induction false} KnownSourceBound(
    p: Params, flow: Flow, l: Limiter, rs: seq<Request>, source: string, now: real)
    requires ParamsOk(p) && FlowOk(p, flow)
    requires ClockOk(rs, now) && BucketsOk(p, l.buckets, now) && source in l.buckets
    ensures var b := l.buckets[source];
            Allowed(rs, Verdicts(p, l, rs, false), source) <= b.tokens + flow(b.lastRefill, End(rs, now))
    decreases |rs|
  {
    if rs != [] {
      var b, r, end := l.buckets[source], rs[0], End(rs, now);
      var l' := Next(p, l, r, false);
      TailClock(rs, now);
      NextOk(p, l, r);
      AllowedStep(p, l, rs, source);
      KnownSourceBound(p, flow, l', rs[1..], source, r.at);
      if r.source == source {
        assert Found(p, l.buckets, r) == Refilled(p, b, r.at);
        assert flow(b.lastRefill, r.at) + flow(r.at, end) == flow(b.lastRefill, end);
      } else {
        assert l'.buckets[source] == b;
      }
    }
  }

  lemma {:induction false} FlowBound(p: Params, flow: Flow, l: Limiter, rs: seq<Request>, source: string, now: real)
    requires ParamsOk(p) && FlowOk(p, flow) && ClockOk(rs, now) && BucketsOk(p, l.buckets, now)
    ensures Allowed(rs, Verdicts(p, l, rs, false), source) <= p.burst + flow(now, End(rs, now))
    decreases |rs|
  {
    if rs != [] {
      var r, end := rs[0], End(rs, now);
      var l' := Next(p, l, r, false);
      TailClock(rs, now);
      NextOk(p, l, r);
      AllowedStep(p, l, rs, source);
      assert flow(now, r.at) + flow(r.at, end) == flow(now, end);
      if r.source == source {
        RefillBound(p, if source in l.buckets then l.buckets[source] else Bucket(p.burst, r.at), r.at);
        KnownSourceBound(p, flow, l', rs[1..], source, r.at);
      } else {
        FlowBound(p, flow, l', rs[1..], source, r.at);
      }
    }
  }

  /** The inflow of a limiter: its rate times the time that passes. */
  ghost function Inflow(p: Params): Flow
    requires ParamsOk(p)
  {
    (a, b) => Rate(p) * (b - a)
  }

  lemma InflowOk(p: Params)
    requires ParamsOk(p)
    ensures FlowOk(p, Inflow(p))
  {
    var flow := Inflow(p);
    forall a, b | a <= b
      ensures flow(a, b) >= 0.0
    {
      Product(Rate(p), b - a);
    }
    forall a, b, c | a <= b <= c
      ensures flow(a, b) + flow(b, c) == flow(a, c)
    {
      Distribute(Rate(p), a, b, c);
    }
    forall b: Bucket, now: real | 0.0 <= b.tokens <= p.burst && b.lastRefill <= now
      ensures Refilled(p, b, now).tokens <= b.tokens + flow(b.lastRefill, now)
    {
      RefillBound(p, b, now);
    }
  }

  lemma Distribute(k: real, a: real, b: real, c: real)
    ensures k * (b - a) + k * (c - b) == k * (c - a)
  {
  }

  lemma Product(k: real, x: real)
    requires k >= 0.0 && x >= 0.0
    ensures k * x >= 0.0
  {
  }

  /** From any reachable state, over any further requests, a source gets at most a burst plus
      what flows in while they last. */
  lemma RateBound(p: Params, l: Limiter, rs: seq<Request>, source: string, now: real)
    requires ParamsOk(p) && ClockOk(rs, now) && BucketsOk(p, l.buckets, now)
    ensures Allowed(rs, Verdicts(p, l, rs, true), source) <= p.burst + Inflow(p)(now, End(rs, now))
  {
    SweepUnobservable(p, l, rs, now);
    InflowOk(p);
    FlowBound(p, Inflow(p), l, rs, source, now);
  }

  function After(p: Params, l: Limiter, rs: seq<Request>): Limiter
    requires ParamsOk(p)
    decreases |rs|
  {
    if rs == [] then l else After(p, Next(p, l, rs[0], true), rs[1..])
  }

  /** Every state a run reaches satisfies the bound's hypothesis. */
  lemma {:induction false} BucketsStayOk(p: Params, l: Limiter, rs: seq<Request>, now: real)
    requires ParamsOk(p) && ClockOk(rs, now) && BucketsOk(p, l.buckets, now)
    ensures BucketsOk(p, After(p, l, rs).buckets, End(rs, now))
    decreases |rs|
  {
    if rs != [] {
      var r := rs[0];
      TailClock(rs, now);
      var l0 := Sweep(p, l, r.at, true);
      NextOk(p, l0, r);
      BucketsStayOk(p, Next(p, l, r, true), rs[1..], r.at);
    }
  }

  lemma {:induction false} VerdictsSplit(p: Params, l: Limiter, xs: seq<Request>, ys: seq<Request>)
    requires ParamsOk(p)
    ensures Verdicts(p, l, xs + ys, true) == Verdicts(p, l, xs, true) + Verdicts(p, After(p, l, xs), ys, true)
    decreases |xs|
  {
    if xs == [] {
      assert xs + ys == ys;
    } else {
      assert (xs + ys)[1..] == xs[1..] + ys;
      VerdictsSplit(p, Next(p, l, xs[0], true), xs[1..], ys);
    }
  }

  /** The rate bound of every sub-run: in a run from a fresh limiter, between requests `i` and
      `j`, any source is allowed at most
      `burst + max(burst, maxRequests) * (time of j - time of i) / window` requests. */
  lemma SubRunBound(p: Params, start: real, rs: seq<Request>, source: string, i: nat, j: nat)
    requires ParamsOk(p) && ClockOk(rs, start) && i < j <= |rs|
    ensures Allowed(rs[i..j], Verdicts(p, Limiter(map[], start), rs, true)[i..j], source)
         <= p.burst + Inflow(p)(rs[i].at, rs[j - 1].at)
  {
    var l := Limiter(map[], start);
    var before, during := rs[..i], rs[i..j];
    VerdictsOfPart(p, l, rs, i, j);
    BucketsStayOk(p, l, before, start);
    assert End(before, start) <= rs[i].at;
    forall k | 0 < k < |during|
      ensures during[k - 1].at <= during[k].at
    {
      assert rs[i + k - 1].at <= rs[i + k].at;
    }
    RateBound(p, After(p, l, before), during, source, rs[i].at);
    assert End(during, rs[i].at) == rs[j - 1].at;
  }

  lemma {:induction false} VerdictsOfPart(p: Params, l: Limiter, rs: seq<Request>, i: nat, j: nat)
    requires ParamsOk(p) && i <= j <= |rs|
    ensures Verdicts(p, l, rs, true)[i..j] == Verdicts(p, After(p, l, rs[..i]), rs[i..j], true)
  {
    var before, during, after := rs[..i], rs[i..j], rs[j..];
    assert rs == before + (during + after);
    VerdictsSplit(p, l, before, during + after);
    VerdictsSplit(p, After(p, l, before), during, after);
  }
}
