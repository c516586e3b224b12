/** Retry delays (retry_delay_seconds). The two digest bytes are an arbitrary
    value, so every bound below holds whatever jitter the hash picks. */
module Backoff {

  type Digest = d: int | 0 <= d <= 65535
  type Positive = n: int | n >= 1 witness 1

  function Pow2(n: nat): (p: nat)
    ensures p >= 1
  {
    if n == 0 then 1 else 2 * Pow2(n - 1)
  }

  function Exponential(attempt: int, base: Positive): (e: int)
    ensures e >= 1
  {
    var e := base * Pow2(if attempt - 1 > 0 then attempt - 1 else 0);
    AtLeastFactor(base, Pow2(if attempt - 1 > 0 then attempt - 1 else 0));
    e
  }

  lemma AtLeastFactor(a: int, b: int)
    requires a >= 1 && b >= 1
    ensures a * b >= 1
  {
    calc { a * b; >= 1 * b; >= 1; }
  }

  function JitterRatio(digest: Digest): real {
    (digest as real / 65535.0 - 0.5) * 0.4
  }

  function RetryDelay(digest: Digest, attempt: int, base: Positive): real {
    var delay := Exponential(attempt, base) as real * (1.0 + JitterRatio(digest));
    if delay < 1.0 then 1.0 else delay
  }

  lemma JitterIsBounded(digest: Digest)
    ensures -0.2 <= JitterRatio(digest) <= 0.2
  {
    assert 0.0 <= digest as real / 65535.0 <= 1.0;
  }

  lemma ProductNonNegative(a: real, b: real)
    requires a >= 0.0 && b >= 0.0
    ensures a * b >= 0.0
  {}

  lemma ScaleBounds(e: real, j: real, d: real)
    requires e >= 1.0 && -0.2 <= j <= 0.2 && d == e * (1.0 + j)
    ensures 0.8 * e <= d <= 1.2 * e
  {
    ProductNonNegative(e, j + 0.2);
    ProductNonNegative(e, 0.2 - j);
    assert d == e + e * j;
    assert e * (j + 0.2) == e * j + 0.2 * e;
    assert e * (0.2 - j) == 0.2 * e - e * j;
  }

  /** At least a second, and within 20% of base * 2^(attempt-1) with the lower end raised to 1. */
  lemma DelayWithinBand(digest: Digest, attempt: int, base: Positive)
    ensures var e := Exponential(attempt, base) as real;
            var d := RetryDelay(digest, attempt, base);
            d >= 1.0 && 0.8 * e <= d <= 1.2 * e
  {
    var e := Exponential(attempt, base) as real;
    var j := JitterRatio(digest);
    JitterIsBounded(digest);
    ScaleBounds(e, j, e * (1.0 + j));
  }

  lemma ExponentialDoubles(attempt: int, base: Positive)
    requires attempt >= 1
    ensures Exponential(attempt + 1, base) == 2 * Exponential(attempt, base)
  {
    var p := Pow2(attempt - 1);
    assert Pow2(attempt) == 2 * p;
    assert base * (2 * p) == 2 * (base * p);
  }

  /** Later attempts wait strictly longer, however the jitter falls. */
  lemma {:induction false} DelaysStrictlyIncrease(d1: Digest, d2: Digest, a1: int, a2: int, base: Positive)
    requires 1 <= a1 < a2
    ensures RetryDelay(d1, a1, base) < RetryDelay(d2, a2, base)
    decreases a2 - a1
  {
    if a2 == a1 + 1 {
      DelayWithinBand(d1, a1, base);
      DelayWithinBand(d2, a2, base);
      ExponentialDoubles(a1, base);
    } else {
      DelaysStrictlyIncrease(d1, 0, a1, a2 - 1, base);
      DelaysStrictlyIncrease(0, d2, a2 - 1, a2, base);
    }
  }

  /** The waiting of attempts 1..n, with one digest per attempt. */
  function TotalDelay(digests: seq<Digest>, base: Positive): real {
    if digests == [] then 0.0 else
    TotalDelay(digests[..|digests| - 1], base) + RetryDelay(digests[|digests| - 1], |digests|, base)
  }

  function TotalExponential(n: nat, base: Positive): int {
    if n == 0 then 0 else TotalExponential(n - 1, base) + Exponential(n, base)
  }

  lemma {:induction false} GeometricSum(n: nat, base: Positive)
    ensures TotalExponential(n, base) == base * (Pow2(n) - 1)
  {
    if n > 0 {
      GeometricSum(n - 1, base);
      var p := Pow2(n - 1);
      assert base * (2 * p - 1) == base * (p - 1) + base * p;
    }
  }

  /** An attempt budget of m waits m-1 times, in total within 20% of the sum of the
      exponentials, which is base * (2^(m-1) - 1). */
  lemma {:induction false} TotalDelayBounded(digests: seq<Digest>, base: Positive)
    ensures 0.8 * TotalExponential(|digests|, base) as real
            <= TotalDelay(digests, base)
            <= 1.2 * TotalExponential(|digests|, base) as real
  {
    var n := |digests|;
    if n > 0 {
      TotalDelayBounded(digests[..n - 1], base);
      DelayWithinBand(digests[n - 1], n, base);
    }
  }

  /** The retries of one attempt budget wait at most 1.2 * base * (2^(max_attempts-1) - 1). */
  lemma BudgetWaitBounded(digests: seq<Digest>, base: Positive, maxAttempts: Positive)
    requires |digests| == maxAttempts - 1
    ensures var total := (base * (Pow2(maxAttempts - 1) - 1)) as real;
            0.8 * total <= TotalDelay(digests, base) <= 1.2 * total
  {
    TotalDelayBounded(digests, base);
    GeometricSum(maxAttempts - 1, base);
  }

  /** The jitter spans its band evenly: 20% off at digest 0, 20% on at 65535, and every step of
      the digest adds the same. The floor of one second comes last. */
  lemma DelayFollowsDigest(digest: Digest, attempt: int, base: Positive)
    ensures var e := Exponential(attempt, base) as real;
            var jittered := 0.8 * e + 0.4 * e * digest as real / 65535.0;
            RetryDelay(digest, attempt, base) == if jittered < 1.0 then 1.0 else jittered
  {
    var e, d := Exponential(attempt, base) as real, digest as real;
    assert 1.0 + JitterRatio(digest) == 0.8 + 0.4 * (d / 65535.0);
    assert e * (0.8 + 0.4 * (d / 65535.0)) == 0.8 * e + 0.4 * e * (d / 65535.0);
    assert 0.4 * e * (d / 65535.0) == 0.4 * e * d / 65535.0;
  }

  /** A first attempt waits around the base, and each further attempt doubles that. */
  lemma ExponentialMeans(attempt: int, base: Positive)
    ensures attempt <= 1 ==> Exponential(attempt, base) == base
    ensures attempt >= 1 ==> Exponential(attempt + 1, base) == 2 * Exponential(attempt, base)
  {
    if attempt >= 1 {
      ExponentialDoubles(attempt, base);
    }
  }
}
