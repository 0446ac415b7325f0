/** Exponential backoff with jitter (internal/task/retry.go), over the reals. */
module Backoff {

  datatype RetryPolicy = RetryPolicy(
    initialBackoff: real,
    maxBackoff: real,
    backoffFactor: real,
    jitterFactor: real)
  {
    /** The configurations the defaults belong to. */
    predicate Sensible() {
      0.0 < initialBackoff <= maxBackoff && 1.0 < backoffFactor && 0.0 <= jitterFactor <= 1.0
    }

    function Grown(attempt: nat): real {
      initialBackoff * Pow(backoffFactor, attempt)
    }

    /** Initial * Factor^attempt, capped: the delay before jitter. */
    function Nominal(attempt: nat): real {
      if Grown(attempt) > maxBackoff then maxBackoff else Grown(attempt)
    }

    /** `u` is the random draw, in [0, 1). The result is a Duration, truncated toward zero. */
    method CalculateBackoff(attempt: int, u: real) returns (delay: int)
      requires 0.0 <= u < 1.0
      ensures delay == Delay(attempt, u)
    {
      if attempt <= 0 {
        return Truncated(initialBackoff);
      }
      var backoff := Grown(attempt);
      if backoff > maxBackoff {
        backoff := maxBackoff;
      }
      if jitterFactor > 0.0 {
        var jitter := backoff * jitterFactor * (u * 2.0 - 1.0);
        backoff := backoff + jitter;
      }
      if backoff < 0.0 {
        backoff := initialBackoff;
      }
      delay := Truncated(backoff);
    }

    function Delay(attempt: int, u: real): int {
      Truncated(if attempt <= 0 then initialBackoff else NonNegative(Jittered(attempt, u)))
    }

    function Jittered(attempt: nat, u: real): real {
      WithJitter(Nominal(attempt), jitterFactor, u * 2.0 - 1.0)
    }

    function NonNegative(backoff: real): real {
      if backoff < 0.0 then initialBackoff else backoff
    }
  }

  /** `w` is the draw mapped to [-1, 1). */
  function WithJitter(b: real, j: real, w: real): real {
    if j > 0.0 then b + b * j * w else b
  }

  function Pow(base: real, n: nat): real {
    if n == 0 then 1.0 else base * Pow(base, n - 1)
  }

  /** Go's conversion of a float64 to an integer. */
  function Truncated(x: real): int {
    if x >= 0.0 then x.Floor else -((-x).Floor)
  }

  lemma Product(x: real, y: real)
    requires x >= 0.0 && y >= 0.0
    ensures x * y >= 0.0
  {
  }

  lemma BernoulliStep(power: real, m: real, d: real)
    requires d >= 0.0 && m >= 0.0 && power >= 1.0 + m * d
    ensures (1.0 + d) * power >= 1.0 + (m + 1.0) * d
  {
    Product(m, d);
    Product(d, power - 1.0);
  }

  /** Bernoulli's inequality. */
  lemma {:induction false} Bernoulli(base: real, n: nat)
    requires base > 1.0
    ensures Pow(base, n) >= 1.0 + n as real * (base - 1.0)
    ensures Pow(base, n) >= 1.0
  {
    if n > 0 {
      Bernoulli(base, n - 1);
      BernoulliStep(Pow(base, n - 1), (n - 1) as real, base - 1.0);
    }
    Product(n as real, base - 1.0);
  }

  /** A step of the exponential never shrinks. */
  lemma GrowthStep(p: RetryPolicy, n: nat)
    requires p.Sensible() && n > 0
    ensures 0.0 < p.Grown(n - 1) <= p.Grown(n)
  {
    Bernoulli(p.backoffFactor, n - 1);
    Ordered(p.initialBackoff, p.backoffFactor, Pow(p.backoffFactor, n - 1), Pow(p.backoffFactor, n));
  }

  lemma Ordered(initial: real, f: real, power: real, next: real)
    requires initial > 0.0 && f > 1.0 && power >= 1.0 && next == f * power
    ensures 0.0 < initial * power <= initial * next
  {
    Product(f - 1.0, power);
    Product(initial, next - power);
    Positive(initial, power);
  }

  /** Whatever the random draw, the delay stays in the band of relative width `jitterFactor` around
      the nominal delay, and the guard against a negative result never fires. */
  lemma JitterBand(p: RetryPolicy, attempt: nat, u: real)
    requires p.Sensible() && 0.0 <= u < 1.0
    ensures 0.0 < p.Nominal(attempt) <= p.maxBackoff
    ensures (1.0 - p.jitterFactor) * p.Nominal(attempt) <= p.Jittered(attempt, u)
    ensures p.Jittered(attempt, u) <= (1.0 + p.jitterFactor) * p.Nominal(attempt)
    ensures p.NonNegative(p.Jittered(attempt, u)) == p.Jittered(attempt, u)
  {
    Bernoulli(p.backoffFactor, attempt);
    Positive(p.initialBackoff, Pow(p.backoffFactor, attempt));
    Band(p.Nominal(attempt), p.jitterFactor, u * 2.0 - 1.0);
  }

  lemma Positive(x: real, y: real)
    requires x > 0.0 && y > 0.0
    ensures x * y > 0.0
  {
  }

  lemma Band(b: real, j: real, w: real)
    requires b > 0.0 && 0.0 <= j <= 1.0 && -1.0 <= w <= 1.0
    ensures 0.0 <= (1.0 - j) * b <= WithJitter(b, j, w) <= (1.0 + j) * b
  {
    Product(b, j);
    Product(b, 1.0 - j);
    Product(b * j, 1.0 - w);
    Product(b * j, 1.0 + w);
  }

  lemma TruncatedIs(x: real)
    requires x >= 0.0
    ensures Truncated(x) == x.Floor && Truncated(x) as real <= x < Truncated(x) as real + 1.0
  {
  }

  /** The delay itself, in whole nanoseconds: the band holds up to the truncation, and the first
      argument that is not a retry gets the initial delay. */
  lemma DelayBand(p: RetryPolicy, attempt: int, u: real)
    requires p.Sensible() && 0.0 <= u < 1.0
    ensures attempt <= 0 ==> p.Delay(attempt, u) == p.initialBackoff.Floor
    ensures attempt > 0 ==>
      && p.Delay(attempt, u) as real <= p.Jittered(attempt, u) < p.Delay(attempt, u) as real + 1.0
      && (1.0 - p.jitterFactor) * p.Nominal(attempt) - 1.0 < p.Delay(attempt, u) as real
      && p.Delay(attempt, u) as real <= (1.0 + p.jitterFactor) * p.Nominal(attempt)
  {
    if attempt > 0 {
      JitterBand(p, attempt, u);
      JitterNotNegative(p, attempt, u);
      TruncatedIs(p.Jittered(attempt, u));
    } else {
      TruncatedIs(p.initialBackoff);
    }
  }

  lemma JitterNotNegative(p: RetryPolicy, attempt: nat, u: real)
    requires p.Sensible() && 0.0 <= u < 1.0
    ensures p.Jittered(attempt, u) >= 0.0
  {
    JitterBand(p, attempt, u);
    Product(1.0 - p.jitterFactor, p.Nominal(attempt));
  }

  /** The jitter uses the whole band: the nominal delay for the middle draw, the lower edge for the
      least one, and more for every greater draw, unless there is no jitter at all. */
  lemma JitterSpreads(p: RetryPolicy, attempt: nat, u: real, v: real)
    requires p.Sensible() && 0.0 <= u < v < 1.0
    ensures p.Jittered(attempt, 0.5) == p.Nominal(attempt)
    ensures p.Jittered(attempt, 0.0) == (1.0 - p.jitterFactor) * p.Nominal(attempt)
    ensures if p.jitterFactor > 0.0 then p.Jittered(attempt, u) < p.Jittered(attempt, v)
            else p.Jittered(attempt, u) == p.Nominal(attempt)
  {
    JitterBand(p, attempt, u);
    JitterAt(p.Nominal(attempt), p.jitterFactor);
    if p.jitterFactor > 0.0 {
      JitterGrows(p.Nominal(attempt), p.jitterFactor, u * 2.0 - 1.0, v * 2.0 - 1.0);
    }
  }

  lemma JitterAt(b: real, j: real)
    requires j >= 0.0
    ensures WithJitter(b, j, 0.0) == b && WithJitter(b, j, -1.0) == (1.0 - j) * b
  {
    assert b * j * 0.0 == 0.0;
    assert b + b * j * -1.0 == b - b * j == (1.0 - j) * b;
  }

  lemma JitterGrows(b: real, j: real, w: real, x: real)
    requires b > 0.0 && j > 0.0 && w < x
    ensures WithJitter(b, j, w) < WithJitter(b, j, x)
  {
    Positive(b, j);
    Positive(b * j, x - w);
    assert b * j * x - b * j * w == b * j * (x - w);
  }

  /** Each attempt waits Factor times as long as the one before, until the cap. */
  lemma NominalRecurs(p: RetryPolicy, n: nat)
    requires p.Sensible()
    ensures p.Nominal(0) == p.initialBackoff
    ensures var next := p.backoffFactor * p.Nominal(n);
            p.Nominal(n + 1) == if next > p.maxBackoff then p.maxBackoff else next
  {
    Multiplied(p.initialBackoff, p.backoffFactor, Pow(p.backoffFactor, n), Pow(p.backoffFactor, n + 1));
    if p.Grown(n) > p.maxBackoff {
      GrowthStep(p, n + 1);
      Product(p.backoffFactor - 1.0, p.maxBackoff);
      Positive(p.backoffFactor - 1.0, p.maxBackoff);
    }
  }

  lemma NominalStep(p: RetryPolicy, n: nat)
    requires p.Sensible() && n > 0
    ensures p.Nominal(n - 1) <= p.Nominal(n)
  {
    GrowthStep(p, n);
  }

  /** Later attempts never wait less. */
  lemma {:induction false} NominalMonotone(p: RetryPolicy, m: nat, n: nat)
    requires p.Sensible() && m <= n
    ensures p.Nominal(m) <= p.Nominal(n)
    decreases n - m
  {
    if m < n {
      NominalMonotone(p, m, n - 1);
      NominalStep(p, n);
    }
  }

  /** The cap is reached no later than attempt (Max/Initial - 1) / (Factor - 1). */
  lemma CapReached(p: RetryPolicy, n: nat)
    requires p.Sensible()
    requires n as real * (p.backoffFactor - 1.0) >= p.maxBackoff / p.initialBackoff - 1.0
    ensures p.Nominal(n) == p.maxBackoff
  {
    Bernoulli(p.backoffFactor, n);
    var ratio := p.maxBackoff / p.initialBackoff;
    var power := Pow(p.backoffFactor, n);
    assert power >= ratio;
    assert p.initialBackoff * (power - ratio) >= 0.0;
    assert p.initialBackoff * ratio == p.maxBackoff;
  }

  /** Total nominal delay of the first n retries. */
  function TotalNominal(p: RetryPolicy, n: nat): real {
    if n == 0 then 0.0 else TotalNominal(p, n - 1) + p.Nominal(n)
  }

  /** Until the cap bites, the total is the closed form of the geometric series:
      Initial * Factor * (Factor^n - 1) / (Factor - 1). */
  lemma {:induction false} UncappedTotal(p: RetryPolicy, n: nat)
    requires p.Sensible()
    requires p.Grown(n) <= p.maxBackoff
    ensures TotalNominal(p, n) * (p.backoffFactor - 1.0) == p.backoffFactor * (p.Grown(n) - p.initialBackoff)
  {
    if n > 0 {
      GrowthStep(p, n);
      UncappedTotal(p, n - 1);
      Multiplied(p.initialBackoff, p.backoffFactor, Pow(p.backoffFactor, n - 1), Pow(p.backoffFactor, n));
      GeometricStep(TotalNominal(p, n - 1), p.initialBackoff, p.backoffFactor, p.Grown(n - 1), p.Grown(n));
    }
  }

  lemma Multiplied(initial: real, f: real, power: real, next: real)
    requires next == f * power
    ensures initial * next == f * (initial * power)
  {
  }

  lemma GeometricStep(total: real, initial: real, f: real, grown: real, next: real)
    requires total * (f - 1.0) == f * (grown - initial)
    requires next == f * grown
    ensures (total + next) * (f - 1.0) == f * (next - initial)
  {
    assert (total + next) * (f - 1.0) == total * (f - 1.0) + next * f - next;
  }
}
