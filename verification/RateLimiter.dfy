/** The fixed-window rate limiter in front of the API and its pruning of expired buckets. */
module RateLimiter {
  import opened Numbers

  const MAX_RATE_LIMIT_BUCKETS := 1000

  datatype Config = Config(maxRequests: nat, windowMs: nat) {
    /** A limit of zero switches the limiter off. */
    predicate Enabled() {
      maxRequests > 0
    }
  }

  datatype Bucket = Bucket(count: nat, resetAt: int)

  datatype Decision = Decision(
    allowed: bool, limit: nat, remaining: nat, resetAt: int, retryAfterSeconds: nat, windowMs: nat)

  type Buckets = map<string, Bucket>

  // ---------------------------------------------------------------- one request

  function Live(buckets: Buckets, now: int): Buckets {
    map key | key in buckets && buckets[key].resetAt > now :: buckets[key]
  }

  /** The bucket that counts a request of `key` at `now`, the request included. */
  function NextBucket(buckets: Buckets, config: Config, key: string, now: int): Bucket {
    if key in buckets && buckets[key].resetAt > now
    then Bucket(buckets[key].count + 1, buckets[key].resetAt)
    else Bucket(1, now + config.windowMs)
  }

  function Decide(bucket: Bucket, config: Config, now: int): Decision {
    Decision(bucket.count <= config.maxRequests, config.maxRequests, Max(0, config.maxRequests - bucket.count),
             bucket.resetAt, Max(1, CeilDiv(bucket.resetAt - now, 1000)), config.windowMs)
  }

  function DisabledDecision(config: Config, now: int): Decision {
    Decision(true, config.maxRequests, config.maxRequests, now + config.windowMs, 0, config.windowMs)
  }

  function Pruned(buckets: Buckets, now: int): Buckets {
    if |buckets| > MAX_RATE_LIMIT_BUCKETS then Live(buckets, now) else buckets
  }

  datatype Request = Request(key: string, at: int, config: Config)

  /** A request without any pruning: the buckets after it. */
  function Counted(buckets: Buckets, r: Request): Buckets {
    if r.config.Enabled() then buckets[r.key := NextBucket(buckets, r.config, r.key, r.at)] else buckets
  }

  function Answer(buckets: Buckets, r: Request): Decision {
    if r.config.Enabled() then Decide(NextBucket(buckets, r.config, r.key, r.at), r.config, r.at)
    else DisabledDecision(r.config, r.at)
  }

  class Limiter {
    var buckets: Buckets

    constructor ()
      ensures buckets == map[]
    {
      buckets := map[];
    }

    /** Loops over the entries and deletes each one that has expired. */
    method PruneExpiredRateLimitBuckets(now: int)
      modifies this
      ensures buckets == Live(old(buckets), now)
    {
      var entries := buckets;
      var pending := buckets.Keys;
      while pending != {}
        invariant pending <= entries.Keys
        invariant buckets == map key | key in entries && (key in pending || entries[key].resetAt > now) :: entries[key]
      {
        var key :| key in pending;
        pending := pending - {key};
        if entries[key].resetAt <= now {
          buckets := buckets - {key};
        }
      }
    }

    method ConsumeRateLimit(r: Request) returns (decision: Decision)
      modifies this
      ensures decision == Answer(if r.config.Enabled() then Pruned(old(buckets), r.at) else old(buckets), r)
      ensures buckets == Counted(if r.config.Enabled() then Pruned(old(buckets), r.at) else old(buckets), r)
    {
      if !r.config.Enabled() {
        return DisabledDecision(r.config, r.at);
      }
      if |buckets| > MAX_RATE_LIMIT_BUCKETS {
        PruneExpiredRateLimitBuckets(r.at);
      }
      var bucket := NextBucket(buckets, r.config, r.key, r.at);
      buckets := buckets[r.key := bucket];
      decision := Decide(bucket, r.config, r.at);
    }
  }

  // ---------------------------------------------------------------- runs

  /** The clock never runs backwards. */
  ghost predicate Ordered(requests: seq<Request>) {
    forall i, j :: 0 <= i <= j < |requests| ==> requests[i].at <= requests[j].at
  }

  function StateAfter(requests: seq<Request>): Buckets {
    if requests == [] then map[]
    else
      var r := requests[|requests| - 1];
      var before := StateAfter(requests[..|requests| - 1]);
      Counted(if r.config.Enabled() then Pruned(before, r.at) else before, r)
  }

  function DecisionAt(requests: seq<Request>, i: nat): Decision
    requires i < |requests|
  {
    var r := requests[i];
    var before := StateAfter(requests[..i]);
    Answer(if r.config.Enabled() then Pruned(before, r.at) else before, r)
  }

  /** The same run on a limiter that never prunes. */
  function UnprunedAfter(requests: seq<Request>): Buckets {
    if requests == [] then map[] else Counted(UnprunedAfter(requests[..|requests| - 1]), requests[|requests| - 1])
  }

  /** Buckets that differ only in entries already expired at `now`. */
  ghost predicate Agree(a: Buckets, b: Buckets, now: int) {
    Live(a, now) == Live(b, now)
  }

  lemma AgreeLater(a: Buckets, b: Buckets, now: int, later: int)
    requires Agree(a, b, now) && now <= later
    ensures Agree(a, b, later)
  {
    forall key ensures key in Live(a, later) <==> key in Live(b, later) {
      assert key in Live(a, now) <==> key in Live(b, now);
    }
    forall key | key in Live(a, later) ensures Live(a, later)[key] == Live(b, later)[key] {
      assert key in Live(a, now) && Live(a, now)[key] == Live(b, now)[key];
    }
  }

  lemma AgreeCounted(a: Buckets, b: Buckets, r: Request)
    requires Agree(a, b, r.at)
    ensures Answer(a, r) == Answer(b, r) && Agree(Counted(a, r), Counted(b, r), r.at)
  {
    assert r.key in Live(a, r.at) <==> r.key in Live(b, r.at);
    assert r.key in Live(a, r.at) ==> Live(a, r.at)[r.key] == Live(b, r.at)[r.key];
    var x, y := Live(Counted(a, r), r.at), Live(Counted(b, r), r.at);
    forall key ensures (key in x <==> key in y) && (key in x ==> x[key] == y[key]) {
      assert key in Live(a, r.at) <==> key in Live(b, r.at);
      assert key in Live(a, r.at) ==> Live(a, r.at)[key] == Live(b, r.at)[key];
    }
  }

  lemma {:induction false} RunsAgree(requests: seq<Request>, now: int)
    requires Ordered(requests) && forall r :: r in requests ==> r.at <= now
    ensures Agree(StateAfter(requests), UnprunedAfter(requests), now)
  {
    if requests != [] {
      var r := requests[|requests| - 1];
      var front := requests[..|requests| - 1];
      assert r in requests;
      RunsAgree(front, r.at);
      PrunedAgrees(StateAfter(front), UnprunedAfter(front), r.at);
      AgreeCounted(if r.config.Enabled() then Pruned(StateAfter(front), r.at) else StateAfter(front),
                   UnprunedAfter(front), r);
      AgreeLater(StateAfter(requests), UnprunedAfter(requests), r.at, now);
    }
  }

  lemma PrunedAgrees(a: Buckets, b: Buckets, now: int)
    requires Agree(a, b, now)
    ensures Agree(Pruned(a, now), b, now)
  {
    assert Live(Live(a, now), now) == Live(a, now);
  }

  /** Pruning never changes any decision, nor any field of one. */
  lemma PruningIsInvisible(requests: seq<Request>, i: nat)
    requires Ordered(requests) && i < |requests|
    ensures DecisionAt(requests, i) == Answer(UnprunedAfter(requests[..i]), requests[i])
  {
    var r := requests[i];
    forall q | q in requests[..i] ensures q.at <= r.at {
      var j :| 0 <= j < i && requests[j] == q;
    }
    RunsAgree(requests[..i], r.at);
    PrunedAgrees(StateAfter(requests[..i]), UnprunedAfter(requests[..i]), r.at);
    AgreeCounted(if r.config.Enabled() then Pruned(StateAfter(requests[..i]), r.at) else StateAfter(requests[..i]),
                 UnprunedAfter(requests[..i]), r);
  }

  // ---------------------------------------------------------------- the bound

  ghost predicate SameConfig(requests: seq<Request>, config: Config) {
    forall r :: r in requests ==> r.config == config
  }

  /** How many requests of `key` with a time in [from, until) were let through. */
  function Admitted(requests: seq<Request>, key: string, from: int, until: int): nat {
    if requests == [] then 0
    else
      var n := |requests| - 1;
      Admitted(requests[..n], key, from, until)
      + if requests[n].key == key && from <= requests[n].at < until && DecisionAt(requests, n).allowed then 1 else 0
  }

  /** How many requests of a key one window can let through before the last window of an interval. With
      a window of one millisecond there is no earlier one to overlap with. */
  function Early(config: Config): nat
    requires config.Enabled()
  {
    if config.windowMs == 1 then 0 else config.maxRequests - 1
  }

  function MostAdmitted(config: Config): nat
    requires config.Enabled()
  {
    Early(config) + config.maxRequests
  }

  /** What the bucket of a key says about the requests admitted since `from`, for one window. */
  ghost predicate Bounded(buckets: Buckets, key: string, config: Config, from: int, admitted: int)
    requires config.Enabled()
  {
    if key !in buckets then admitted == 0
    else
      var b := buckets[key];
      var start := b.resetAt - config.windowMs;
      && b.count >= 1
      && (start < from ==> admitted <= Min(Early(config), Min(b.count, config.maxRequests) - 1))
      && (from <= start < from + config.windowMs ==> admitted <= Early(config) + Min(b.count, config.maxRequests))
      && (from + config.windowMs <= start ==> admitted <= MostAdmitted(config))
  }

  lemma BoundedStep(buckets: Buckets, config: Config, from: int, admitted: nat, r: Request, key: string)
    requires config.Enabled() && config.windowMs > 0 && r.config == config
    requires Bounded(buckets, key, config, from, admitted)
    requires key in buckets ==> buckets[key].resetAt - config.windowMs <= r.at
    requires r.at < from ==> admitted == 0
    ensures var more :=
              if r.key == key && from <= r.at < from + config.windowMs && Answer(buckets, r).allowed then 1 else 0;
            Bounded(Counted(buckets, r), key, config, from, admitted + more)
  {
  }

  lemma {:induction false} WindowInvariant(requests: seq<Request>, key: string, config: Config, from: int)
    requires config.Enabled() && config.windowMs > 0
    requires Ordered(requests) && SameConfig(requests, config)
    ensures Bounded(UnprunedAfter(requests), key, config, from, Admitted(requests, key, from, from + config.windowMs))
    ensures requests != [] && requests[|requests| - 1].at < from ==>
              Admitted(requests, key, from, from + config.windowMs) == 0
    ensures key in UnprunedAfter(requests) ==>
              requests != [] && UnprunedAfter(requests)[key].resetAt - config.windowMs <= requests[|requests| - 1].at
  {
    if requests != [] {
      var n := |requests| - 1;
      var front, r := requests[..n], requests[n];
      assert r in requests;
      WindowInvariant(front, key, config, from);
      PruningIsInvisible(requests, n);
      assert front != [] ==> front[n - 1].at <= r.at;
      assert front == [] ==> Admitted(front, key, from, from + config.windowMs) == 0;
      BoundedStep(UnprunedAfter(front), config, from, Admitted(front, key, from, from + config.windowMs), r, key);
    }
  }

  /** No interval of one window length lets through 2 * maxRequests requests of a key; if it is a
      millisecond long, none lets through more than maxRequests. */
  lemma WindowBound(requests: seq<Request>, key: string, config: Config, from: int)
    requires config.Enabled() && config.windowMs > 0
    requires Ordered(requests) && SameConfig(requests, config)
    ensures Admitted(requests, key, from, from + config.windowMs)
         <= if config.windowMs == 1 then config.maxRequests else 2 * config.maxRequests - 1
  {
    WindowInvariant(requests, key, config, from);
  }

  // ---------------------------------------------------------------- the bound is reached

  function Repeat(r: Request, n: nat): seq<Request> {
    seq(n, i => r)
  }

  /** One request, the rest of the first window at its very end, and a full second window; or one full
      window of a millisecond. */
  function Burst(key: string, config: Config): seq<Request>
    requires config.Enabled() && config.windowMs > 0
  {
    if config.windowMs == 1 then Repeat(Request(key, 0, config), config.maxRequests)
    else TwoWindows(key, config)
  }

  function TwoWindows(key: string, config: Config): seq<Request>
    requires config.Enabled() && config.windowMs > 0
  {
    [Request(key, 0, config)] + Repeat(Request(key, config.windowMs - 1, config), config.maxRequests - 1)
    + Repeat(Request(key, config.windowMs, config), config.maxRequests)
  }

  lemma OneMore(run: seq<Request>, r: Request, from: int, until: int)
    requires Ordered(run) && forall q :: q in run ==> q.at <= r.at
    ensures Ordered(run + [r])
    ensures UnprunedAfter(run + [r]) == Counted(UnprunedAfter(run), r)
    ensures Admitted(run + [r], r.key, from, until) == Admitted(run, r.key, from, until)
              + if from <= r.at < until && Answer(UnprunedAfter(run), r).allowed then 1 else 0
  {
    var longer := run + [r];
    assert longer[..|run|] == run && longer[|run|] == r;
    PruningIsInvisible(longer, |run|);
  }

  /** `n` equal requests that the bucket still has room for are all let through. */
  lemma {:induction false} RepeatAdmits(front: seq<Request>, r: Request, n: nat, bucket: Bucket, from: int, until: int)
    requires r.config.Enabled() && from <= r.at < until && Ordered(front) && forall q :: q in front ==> q.at <= r.at
    requires n > 0 && r.at < bucket.resetAt && bucket.count + n <= r.config.maxRequests
    requires NextBucket(UnprunedAfter(front), r.config, r.key, r.at) == bucket.(count := bucket.count + 1)
    ensures Ordered(front + Repeat(r, n))
    ensures Admitted(front + Repeat(r, n), r.key, from, until) == Admitted(front, r.key, from, until) + n
    ensures r.key in UnprunedAfter(front + Repeat(r, n))
    ensures UnprunedAfter(front + Repeat(r, n))[r.key] == bucket.(count := bucket.count + n)
  {
    hide Admitted, UnprunedAfter;
    var shorter := front + Repeat(r, n - 1);
    assert front + Repeat(r, n) == shorter + [r];
    if n == 1 {
      assert shorter == front;
    } else {
      RepeatAdmits(front, r, n - 1, bucket, from, until);
    }
    OneMore(shorter, r, from, until);
  }

  lemma FirstRequest(key: string, config: Config, from: int, until: int)
    requires config.Enabled() && from > 0
    ensures Ordered([Request(key, 0, config)])
    ensures UnprunedAfter([Request(key, 0, config)]) == map[key := Bucket(1, config.windowMs)]
    ensures Admitted([Request(key, 0, config)], key, from, until) == 0
  {
    OneMore([], Request(key, 0, config), from, until);
    assert [] + [Request(key, 0, config)] == [Request(key, 0, config)];
  }

  /** The first window: its bucket is full, and all but its first request came at its end. */
  lemma FirstWindow(key: string, config: Config, until: int)
    requires config.Enabled() && config.windowMs > 1 && until >= config.windowMs
    ensures var run :=
              [Request(key, 0, config)] + Repeat(Request(key, config.windowMs - 1, config), config.maxRequests - 1);
            && Ordered(run) && (forall r :: r in run ==> r.at < config.windowMs)
            && Admitted(run, key, config.windowMs - 1, until) == config.maxRequests - 1
            && key in UnprunedAfter(run) && UnprunedAfter(run)[key].resetAt == config.windowMs
  {
    hide Admitted, UnprunedAfter;
    var late := Request(key, config.windowMs - 1, config);
    FirstRequest(key, config, config.windowMs - 1, until);
    if config.maxRequests > 1 {
      RepeatAdmits([Request(key, 0, config)], late, config.maxRequests - 1, Bucket(1, config.windowMs),
                   config.windowMs - 1, until);
    } else {
      assert [Request(key, 0, config)] + Repeat(late, 0) == [Request(key, 0, config)];
    }
  }

  lemma TwoWindowsAdmit(key: string, config: Config)
    requires config.Enabled() && config.windowMs > 1
    ensures Ordered(TwoWindows(key, config))
    ensures Admitted(TwoWindows(key, config), key, config.windowMs - 1, 2 * config.windowMs - 1)
         == 2 * config.maxRequests - 1
  {
    hide Admitted, UnprunedAfter;
    var w := config.windowMs;
    var middle := [Request(key, 0, config)] + Repeat(Request(key, w - 1, config), config.maxRequests - 1);
    FirstWindow(key, config, 2 * w - 1);
    RepeatAdmits(middle, Request(key, w, config), config.maxRequests, Bucket(0, 2 * w), w - 1, 2 * w - 1);
  }

  /** The bound is exact for every limit and every window, so it is the largest number there is. */
  lemma WindowBoundReached(key: string, config: Config)
    requires config.Enabled() && config.windowMs > 0
    ensures Ordered(Burst(key, config)) && SameConfig(Burst(key, config), config)
    ensures Admitted(Burst(key, config), key, config.windowMs - 1, 2 * config.windowMs - 1)
         == if config.windowMs == 1 then config.maxRequests else 2 * config.maxRequests - 1
  {
    hide Admitted;
    if config.windowMs == 1 {
      var r := Request(key, 0, config);
      assert [] + Repeat(r, config.maxRequests) == Repeat(r, config.maxRequests);
      RepeatAdmits([], r, config.maxRequests, Bucket(0, 1), 0, 1);
      NoRequests(key, 0, 1);
    } else {
      TwoWindowsAdmit(key, config);
    }
  }

  lemma NoRequests(key: string, from: int, until: int)
    ensures Admitted([], key, from, until) == 0
  {
  }
}
