/** Token-bucket rate limiting (internal/api/middleware/ratelimit.go). Times are real seconds. */
module RateLimit {
  import opened Meters

  /** Requests per second, with the default for nonsensical values. */
  function Rate(rps: int): (rate: int)
    ensures rate >= 1
  {
    if rps <= 0 then 1000 else rps
  }

  datatype Bucket = Bucket(tokens: real, maxTokens: real, refillRate: real, lastRefill: real) {

    function Refilled(now: real): Bucket {
      var t := tokens + (now - lastRefill) * refillRate;
      this.(tokens := if t > maxTokens then maxTokens else t, lastRefill := now)
    }

    predicate Accepts(now: real) {
      Refilled(now).tokens >= 1.0
    }

    function After(now: real): Bucket {
      var b := Refilled(now);
      if b.tokens >= 1.0 then b.(tokens := b.tokens - 1.0) else b
    }

    /** The same bucket on a clock of its own, which ticks once per refilled token. */
    function OnTicks(): Meter {
      Meter(tokens, maxTokens, refillRate * lastRefill)
    }
  }

  function NewBucket(rps: int, now: real): Bucket {
    Bucket(Rate(rps) as real, Rate(rps) as real, Rate(rps) as real, now)
  }

  /** A bucket and the same bucket on its own clock decide alike, call by call. */
  lemma {:induction false} OneCallOnTicks(b: Bucket, now: real)
    ensures b.Accepts(now) == b.OnTicks().Accepts(b.refillRate * now)
    ensures b.After(now).OnTicks() == b.OnTicks().After(b.refillRate * now)
    ensures b.After(now).refillRate == b.refillRate
  {
    assert (now - b.lastRefill) * b.refillRate == b.refillRate * now - b.refillRate * b.lastRefill;
  }

  class RateLimiter {
    var tokens: real
    var maxTokens: real
    var refillRate: real
    var lastRefill: real

    function Value(): Bucket
      reads this
    {
      Bucket(tokens, maxTokens, refillRate, lastRefill)
    }

    constructor (rps: int, now: real)
      ensures Value() == NewBucket(rps, now)
      ensures var rate := if rps <= 0 then 1000 else rps;
              tokens == maxTokens == refillRate == rate as real && lastRefill == now
    {
      var rate := if rps <= 0 then 1000 else rps;
      tokens, maxTokens, refillRate, lastRefill := rate as real, rate as real, rate as real, now;
    }

    method Allow(now: real) returns (allowed: bool)
      modifies this
      ensures allowed == old(Value()).Accepts(now)
      ensures Value() == old(Value()).After(now)
    {
      var elapsed := now - lastRefill;
      tokens := tokens + elapsed * refillRate;
      if tokens > maxTokens {
        tokens := maxTokens;
      }
      lastRefill := now;
      assert Value() == old(Value()).Refilled(now);
      if tokens >= 1.0 {
        tokens := tokens - 1.0;
        return true;
      }
      return false;
    }
  }

  function Ticks(rate: int, ts: seq<real>): seq<real> {
    seq(|ts|, k requires 0 <= k < |ts| => rate as real * ts[k])
  }

  function Fresh(rate: int, tick: real): Meter {
    Meter(rate as real, rate as real, tick)
  }

  // ---------------------------------------------------------------------------
  // Histories of calls to one limiter.
  // ---------------------------------------------------------------------------

  /** A bucket created at `start`, in seconds. */
  function Started(rate: int, start: real): Meter {
    Fresh(rate, rate as real * start)
  }

  /** What a limiter created at `start` decides on calls made at the times `ts`. */
  function Decisions(rate: int, start: real, ts: seq<real>): (ds: seq<bool>)
    ensures |ds| == |ts|
  {
    Grants(Started(rate, start), Ticks(rate, ts))
  }

  lemma {:induction false} Later(rate: int, t: real, u: real)
    requires rate >= 0 && t <= u
    ensures rate as real * t <= rate as real * u
  {
    assert rate as real * (u - t) >= 0.0;
  }

  lemma {:induction false} TicksOrdered(rate: int, since: real, ts: seq<real>)
    requires rate >= 0 && InOrder(since, ts)
    ensures InOrder(rate as real * since, Ticks(rate, ts))
  {
    var us := Ticks(rate, ts);
    forall k | 0 <= k < |us| ensures rate as real * since <= us[k] {
      Later(rate, since, ts[k]);
    }
    forall k, l | 0 <= k < l < |us| ensures us[k] <= us[l] {
      Later(rate, ts[k], ts[l]);
    }
  }

  lemma {:induction false} TicksInTwo(rate: int, ts: seq<real>, us: seq<real>)
    ensures Ticks(rate, ts + us) == Ticks(rate, ts) + Ticks(rate, us)
  {
    forall k | 0 <= k < |ts + us| ensures Ticks(rate, ts + us)[k] == (Ticks(rate, ts) + Ticks(rate, us))[k] {
    }
  }

  /** The decisions of a limiter on calls made at the times `ts`. */
  function Answers(b: Bucket, ts: seq<real>): seq<bool>
    decreases |ts|
  {
    if ts == [] then [] else [b.Accepts(ts[0])] + Answers(b.After(ts[0]), ts[1..])
  }

  lemma {:induction false} FirstTick(rate: int, ts: seq<real>)
    requires ts != []
    ensures Ticks(rate, ts) != [] && Ticks(rate, ts)[0] == rate as real * ts[0]
    ensures Ticks(rate, ts)[1..] == Ticks(rate, ts[1..])
  {
    forall k | 0 <= k < |ts| - 1 ensures Ticks(rate, ts)[1..][k] == Ticks(rate, ts[1..])[k] {
    }
  }

  lemma {:induction false} FirstAnswer(b: Bucket, rate: int, ts: seq<real>, tick: real)
    requires b.refillRate == rate as real && ts != [] && tick == rate as real * ts[0]
    ensures b.Accepts(ts[0]) == b.OnTicks().Accepts(tick)
    ensures b.After(ts[0]).OnTicks() == b.OnTicks().After(tick) && b.After(ts[0]).refillRate == rate as real
  {
    OneCallOnTicks(b, ts[0]);
  }

  lemma {:induction false} AnswersOnTicks(b: Bucket, rate: int, ts: seq<real>, m: Meter, us: seq<real>)
    requires b.refillRate == rate as real && m == b.OnTicks() && us == Ticks(rate, ts)
    ensures Answers(b, ts) == Grants(m, us)
    decreases |ts|
  {
    if ts != [] {
      FirstTick(rate, ts);
      FirstAnswer(b, rate, ts, us[0]);
      AnswersOnTicks(b.After(ts[0]), rate, ts[1..], m.After(us[0]), us[1..]);
    }
  }

  /** A limiter answers a whole history as its bucket does on its own clock. */
  lemma {:induction false} DecisionsAreAnswers(rps: int, rate: int, start: real, ts: seq<real>)
    requires rate == Rate(rps)
    ensures Answers(NewBucket(rps, start), ts) == Decisions(rate, start, ts)
  {
    var m, us := Started(rate, start), Ticks(rate, ts);
    AnswersOnTicks(NewBucket(rps, start), rate, ts, m, us);
    assert Decisions(rate, start, ts) == Grants(m, us);
  }

  lemma {:induction false} Span(n: nat, rate: int, gap: real, first: real, last: real, span: real)
    requires rate >= 0 && last - first <= span && n as real <= rate as real + gap
    requires gap == rate as real * last - rate as real * first
    ensures n as real <= rate as real + rate as real * span
  {
    Later(rate, last - first, span);
  }

  /** In any history of one limiter, the calls number i up to j, made within `span` seconds, are
      accepted at most rate + rate * span times, ... */
  lemma {:induction false} RateBound(rate: int, start: real, ts: seq<real>, i: nat, j: nat, span: real)
    requires rate >= 1 && InOrder(start, ts) && i < j <= |ts| && ts[j - 1] - ts[i] <= span
    ensures Accepted(Decisions(rate, start, ts)[i..j]) as real <= rate as real + rate as real * span
  {
    TicksOrdered(rate, start, ts);
    var us := Ticks(rate, ts);
    GrantedInWindow(rate, rate as real * start, us, i, j);
    Span(Accepted(Decisions(rate, start, ts)[i..j]), rate, us[j - 1] - us[i], ts[i], ts[j - 1], span);
  }

  lemma {:induction false} GrantedInWindow(rate: int, start: real, us: seq<real>, i: nat, j: nat)
    requires rate >= 1 && InOrder(start, us) && i < j <= |us|
    ensures Accepted(Grants(Fresh(rate, start), us)[i..j]) as real <= rate as real + (us[j - 1] - us[i])
    ensures 0.0 <= Spent(Fresh(rate, start), us).level <= rate as real
  {
    WindowOfHistory(Fresh(rate, start), us, i, j);
    StaysWithinBounds(Fresh(rate, start), us);
  }

  lemma {:induction false} KeptTicks(rate: int, ts: seq<real>, keep: seq<bool>)
    requires |ts| == |keep|
    ensures Ticks(rate, Kept(ts, keep)) == Kept(Ticks(rate, ts), keep)
  {
    if ts != [] {
      KeptTicks(rate, ts[1..], keep[1..]);
      assert ts == ts[..1] + ts[1..];
      TicksInTwo(rate, ts[..1], ts[1..]);
      assert Ticks(rate, ts)[1..] == Ticks(rate, ts[1..]);
      TicksInTwo(rate, if keep[0] then ts[..1] else [], Kept(ts[1..], keep[1..]));
      assert Kept(ts, keep) == (if keep[0] then ts[..1] else []) + Kept(ts[1..], keep[1..]);
    }
  }

  /** Deleting any refused calls from a history changes no decision on the others. */
  lemma {:induction false} RefusedCallsAreInvisible(rate: int, start: real, ts: seq<real>, keep: seq<bool>)
    requires rate >= 1 && InOrder(start, ts)
    requires |keep| == |ts| && forall k | 0 <= k < |ts| && Decisions(rate, start, ts)[k] :: keep[k]
    ensures Decisions(rate, start, Kept(ts, keep)) == Kept(Decisions(rate, start, ts), keep)
  {
    TicksOrdered(rate, start, ts);
    KeptTicks(rate, ts, keep);
    DeleteRefused(Started(rate, start), Started(rate, start), Ticks(rate, ts), keep);
  }

  /** Retry-After: 1 is honest. Whatever a limiter's state after a call at time `last`, and however
      many calls were refused since, a burst of up to `rate` calls that starts at least one second
      after `last` passes whole. */
  lemma {:induction false} BurstAfterOneSecond(m: Meter, rate: nat, last: real, quiet: seq<real>, burst: seq<real>)
    requires m.Bounded() && m.cap == rate as real && m.at == rate as real * last
    requires InOrder(last, quiet + burst) && burst != [] && |burst| <= rate && burst[0] >= last + 1.0
    requires forall k | 0 <= k < |quiet| :: !Grants(m, Ticks(rate, quiet))[k]
    ensures forall k | |quiet| <= k < |quiet| + |burst| :: Grants(m, Ticks(rate, quiet + burst))[k]
  {
    TicksOrdered(rate, last, quiet + burst);
    TicksInTwo(rate, quiet, burst);
    Later(rate, last + 1.0, burst[0]);
    assert Ticks(rate, burst)[0] >= m.at + rate as real;
    FullBurst(m, rate, Ticks(rate, quiet), Ticks(rate, burst));
  }

  // ---------------------------------------------------------------------------
  // One limiter per client.
  // ---------------------------------------------------------------------------

  class ClientRateLimiter {
    var limiters: map<string, RateLimiter>
    const rps: int

    ghost predicate Valid()
      reads this
    {
      forall c, d | c in limiters && d in limiters && c != d :: limiters[c] != limiters[d]
    }

    ghost function Buckets(): map<string, Bucket>
      reads this, limiters.Values
    {
      map c | c in limiters :: limiters[c].Value()
    }

    constructor (rps: int)
      ensures Valid() && this.rps == rps && Buckets() == map[]
    {
      limiters, this.rps := map[], rps;
    }

    /** One tick of the cleanup loop. */
    method Cleanup()
      modifies this
      ensures Valid() && Buckets() == map[]
    {
      limiters := map[];
    }

    method GetLimiter(client: string, now: real) returns (limiter: RateLimiter)
      requires Valid()
      modifies this
      ensures Valid() && client in limiters && limiters[client] == limiter
      ensures limiter in old(limiters.Values) || fresh(limiter)
      ensures limiters.Values <= old(limiters.Values) + {limiter}
      ensures Buckets() == if client in old(limiters) then old(Buckets())
                           else old(Buckets())[client := NewBucket(rps, now)]
    {
      if client in limiters {
        return limiters[client];
      }
      limiter := new RateLimiter(rps, now);
      limiters := limiters[client := limiter];
    }

    /** What the middleware does with a request. */
    method Allow(client: string, now: real) returns (allowed: bool)
      requires Valid()
      modifies this, limiters.Values
      ensures Valid()
      ensures allowed == BucketOf(old(Buckets()), rps, client, now).Accepts(now)
      ensures Buckets() == old(Buckets())[client := BucketOf(old(Buckets()), rps, client, now).After(now)]
    {
      var limiter := GetLimiter(client, now);
      ghost var before := Buckets();
      assert before[client] == limiter.Value();
      allowed := limiter.Allow(now);
      forall c | c in limiters && c != client ensures limiters[c].Value() == before[c] {
        assert limiters[c] != limiter;
      }
    }
  }

  function BucketOf(m: map<string, Bucket>, rps: int, client: string, now: real): Bucket {
    if client in m then m[client] else NewBucket(rps, now)
  }

  predicate AllRefillAt(m: map<string, Bucket>, rate: real) {
    forall c | c in m :: m[c].refillRate == rate
  }

  function AllOnTicks(m: map<string, Bucket>): map<string, Meter> {
    map c | c in m :: m[c].OnTicks()
  }

  /** The same for one client among others. */
  lemma {:induction false} ClientCallOnTicks(m: map<string, Bucket>, rps: int, client: string, now: real)
    requires AllRefillAt(m, Rate(rps) as real)
    ensures var b, tick := BucketOf(m, rps, client, now), BucketOf(m, rps, client, now).refillRate * now;
            && b.refillRate == Rate(rps) as real
            && b.Accepts(now) == MeterOf(AllOnTicks(m), Rate(rps), client, tick).Accepts(tick)
            && AllRefillAt(m[client := b.After(now)], Rate(rps) as real)
            && AllOnTicks(m[client := b.After(now)]) == Apply(AllOnTicks(m), Rate(rps), Call(client, tick))
  {
    OneCallOnTicks(BucketOf(m, rps, client, now), now);
  }

  /** Seconds to ticks. */
  function OnTicks(rate: int, h: seq<Action>): seq<Action> {
    seq(|h|, k requires 0 <= k < |h| => h[k].(tick := rate as real * h[k].tick))
  }

  lemma {:induction false} ActionsOrdered(rate: int, since: real, h: seq<Action>)
    requires rate >= 0 && Timely(since, h)
    ensures Timely(rate as real * since, OnTicks(rate, h))
  {
    var g := OnTicks(rate, h);
    forall k | 0 <= k < |g| ensures rate as real * since <= g[k].tick {
      Later(rate, since, h[k].tick);
    }
    forall k, l | 0 <= k < l < |g| ensures g[k].tick <= g[l].tick {
      Later(rate, h[k].tick, h[l].tick);
    }
  }

  lemma {:induction false} LastOnTicks(rate: int, start: real, h: seq<Action>, end: real)
    requires rate >= 1 && end >= (if h == [] then start else h[|h| - 1].tick)
    ensures var g := OnTicks(rate, h);
            rate as real * end >= if g == [] then rate as real * start else g[|g| - 1].tick
  {
    Later(rate, if h == [] then start else h[|h| - 1].tick, end);
  }

  lemma {:induction false} SpentOnTicks(rate: int, before: seq<Action>, window: seq<Action>, client: string,
                                        start: real, since: real, end: real)
    returns (from: real, to: real)
    requires rate >= 1 && Timely(start, before) && Timely(since, window)
    requires since >= (if before == [] then start else before[|before| - 1].tick)
    requires end >= (if window == [] then since else window[|window| - 1].tick)
    ensures to - from == rate as real * (end - since)
    ensures var m, g := AfterActions(map[], rate, OnTicks(rate, before)), OnTicks(rate, window);
            Accepted(DecisionsFor(m, rate, g, client)) as real <= rate as real + (to - from) + Refunds(g, rate)
  {
    var first;
    first, from, to := OrderOnTicks(rate, before, window, start, since, end);
    ClientSpent(rate, OnTicks(rate, before), OnTicks(rate, window), client, first, from, to);
  }

  lemma {:induction false} OrderOnTicks(rate: int, before: seq<Action>, window: seq<Action>, start: real, since: real,
                                        end: real)
    returns (first: real, from: real, to: real)
    requires rate >= 1 && Timely(start, before) && Timely(since, window)
    requires since >= (if before == [] then start else before[|before| - 1].tick)
    requires end >= (if window == [] then since else window[|window| - 1].tick)
    ensures var h, g := OnTicks(rate, before), OnTicks(rate, window);
            && Timely(first, h) && Timely(from, g)
            && from >= (if h == [] then first else h[|h| - 1].tick)
            && to >= (if g == [] then from else g[|g| - 1].tick)
    ensures to - from == rate as real * (end - since)
  {
    ActionsOrdered(rate, start, before);
    ActionsOrdered(rate, since, window);
    LastOnTicks(rate, start, before, since);
    LastOnTicks(rate, since, window, end);
    first, from, to := rate as real * start, rate as real * since, rate as real * end;
  }

  /** In any history of all clients' calls and of cleanups, from any point of it on, a client is
      granted at most (1 + cleanups) * rate + rate * (end - since) calls. */
  lemma {:induction false} ClientRateBound(rate: int, before: seq<Action>, window: seq<Action>, client: string,
                                           start: real, since: real, end: real)
    requires rate >= 1 && Timely(start, before) && Timely(since, window)
    requires since >= (if before == [] then start else before[|before| - 1].tick)
    requires end >= (if window == [] then since else window[|window| - 1].tick)
    ensures var m, g := AfterActions(map[], rate, OnTicks(rate, before)), OnTicks(rate, window);
            Accepted(DecisionsFor(m, rate, g, client)) as real
            <= rate as real + rate as real * (end - since) + rate as real * Cleanups(g) as real
  {
    var from, to := SpentOnTicks(rate, before, window, client, start, since, end);
    RefundsAre(OnTicks(rate, window), rate);
  }
}
