/**
 Bounded retry timing: exponential backoff in 64-bit durations, jitter, a
 provider's hint, and the sampling of repeated failures.
 */
module Retry {
  import opened Results

  const MAX_DURATION: int := 0x7FFF_FFFF_FFFF_FFFF
  const WORD: nat := 0x1_0000_0000_0000_0000
  const MAX_WORD: nat := WORD - 1
  const DEFAULT_INITIAL: int := 1_000_000_000
  const DEFAULT_SAMPLE_EVERY: nat := 8

  datatype Policy = Policy(initial: int, max: int, hintMax: int, jitterPercent: nat)

  predicate Representable(p: Policy) {
    && -MAX_DURATION - 1 <= p.initial <= MAX_DURATION && -MAX_DURATION - 1 <= p.max <= MAX_DURATION
    && -MAX_DURATION - 1 <= p.hintMax <= MAX_DURATION && p.jitterPercent <= MAX_WORD
  }

  predicate Normal(p: Policy) { 0 < p.initial <= p.max <= p.hintMax <= MAX_DURATION && p.jitterPercent <= 100 }

  function Normalize(p: Policy): (n: Policy)
    requires Representable(p)
    ensures Normal(n) && (Normal(p) ==> n == p) && p.max <= n.max && p.hintMax <= n.hintMax
    // every value that can stay, stays, and the others move no further than they have to
    ensures n.initial == p.initial || (p.initial <= 0 && n.initial == 1_000_000_000)
    ensures n.max == p.max || n.max == n.initial
    ensures n.hintMax == p.hintMax || n.hintMax == n.max
    ensures n.jitterPercent == p.jitterPercent || (100 < p.jitterPercent && n.jitterPercent == 100)
  {
    var initial := if p.initial <= 0 then DEFAULT_INITIAL else p.initial;
    var max := if p.max < initial then initial else p.max;
    Policy(initial, max, if p.hintMax < max then max else p.hintMax, if 100 < p.jitterPercent then 100 else p.jitterPercent)
  }

  function PowerOfTwo(n: nat): nat { if n == 0 then 1 else 2 * PowerOfTwo(n - 1) }

  lemma Doubling(initial: int, n: nat)
    ensures initial * PowerOfTwo(n + 1) == 2 * (initial * PowerOfTwo(n))
  {
  }

  lemma {:induction false} PowersGrow(initial: int, n: nat, m: nat)
    requires 0 < initial && n <= m
    ensures initial * PowerOfTwo(n) <= initial * PowerOfTwo(m)
    decreases m - n
  {
    if n < m {
      PowersGrow(initial, n, m - 1);
      Doubling(initial, m - 1);
      Positive(initial, m - 1);
    }
  }

  lemma {:induction false} Positive(initial: int, n: nat)
    requires 0 < initial
    ensures 0 < initial * PowerOfTwo(n)
  {
    if 0 < n {
      Positive(initial, n - 1);
      Doubling(initial, n - 1);
    }
  }

  /** The exponential delay in unbounded arithmetic. */
  function Exponential(p: Policy, failures: nat): (delay: int)
    requires Normal(p)
    ensures p.initial <= delay <= p.max
  {
    PowersGrow(p.initial, 0, failures);
    Min(p.initial * PowerOfTwo(failures), p.max)
  }

  /** The delay starts at the initial one and doubles with every failure until it reaches the maximum. */
  lemma DelayDoubles(p: Policy, failures: nat)
    requires Normal(p)
    ensures Exponential(p, 0) == p.initial
    ensures Exponential(p, failures + 1) == Min(Exponential(p, failures) + Exponential(p, failures), p.max)
  {
    Doubling(p.initial, failures);
    Positive(p.initial, failures);
  }

  lemma SixtyThreeIsEnough(initial: int, n: nat)
    requires 0 < initial && 63 <= n
    ensures MAX_DURATION < initial * PowerOfTwo(n)
  {
    assert PowerOfTwo(63) == 0x8000_0000_0000_0000 by {
      assert PowerOfTwo(8) == 256;
      assert PowerOfTwo(16) == 0x1_0000;
      assert PowerOfTwo(24) == 0x100_0000;
      assert PowerOfTwo(32) == 0x1_0000_0000;
      assert PowerOfTwo(40) == 0x100_0000_0000;
      assert PowerOfTwo(48) == 0x1_0000_0000_0000;
      assert PowerOfTwo(56) == 0x100_0000_0000_0000;
    }
    PowersGrow(initial, 63, n);
    assert initial * PowerOfTwo(63) == initial * 0x8000_0000_0000_0000;
  }

  // ---- Scaling and jitter ----

  /** `value * numerator / denominator` through a double-width product and quotient. */
  function ScaleDuration(value: int, numerator: nat, denominator: nat): int
    requires value <= MAX_DURATION && numerator <= MAX_WORD && denominator <= MAX_WORD
  {
    if value <= 0 || numerator == 0 || denominator == 0 then 0
    else
      var high, low := value * numerator / WORD, value * numerator % WORD;
      if denominator <= high then MAX_DURATION
      else
        var scaled := (high * WORD + low) / denominator;
        if MAX_DURATION < scaled then MAX_DURATION else scaled
  }

  lemma Factor(k: int, m: int, e: int)
    requires k * m == e && 0 < m
    ensures e < m ==> k <= 0
    ensures -m < e ==> 0 <= k
  {
    assert 1 <= k ==> m <= k * m;
    assert k <= -1 ==> k * m <= -m;
  }

  lemma Quotient(n: nat, d: nat, q: nat)
    requires 0 < d && q * d <= n
    ensures q <= n / d
  {
    var k := q - n / d;
    assert k * d == q * d - n / d * d && n == n / d * d + n % d;
    Factor(k, d, k * d);
  }

  /** It is the exact floor, capped at the largest duration. */
  lemma ScaleIsSaturatedFloor(value: int, numerator: nat, denominator: nat)
    requires 0 < value <= MAX_DURATION && 0 < numerator <= MAX_WORD && 0 < denominator <= MAX_WORD
    ensures ScaleDuration(value, numerator, denominator) == Min(value * numerator / denominator, MAX_DURATION)
  {
    var product: nat := value * numerator;
    var high, low := product / WORD, product % WORD;
    assert product == high * WORD + low;
    if denominator <= high {
      assert denominator * WORD <= high * WORD;
      Quotient(product, denominator, WORD);
    }
  }

  function Jitter(base: int, max: int, percent: nat, random: nat): int
    requires 0 < base <= max <= MAX_DURATION && percent <= 100 && random <= MAX_WORD
  {
    if percent == 0 || base <= 1 then base
    else
      var span := ScaleDuration(base, percent, 100);
      if span <= 0 then base
      else
        var lower := base - span;
        var width := span * 2;
        var offset := if width == MAX_WORD then random else random % (width + 1);
        if max - lower <= offset then max else lower + offset
  }

  function Span(base: int, percent: nat): int
    requires 0 < base
  {
    base * percent / 100
  }

  lemma Percentage(base: int, percent: nat)
    requires 0 < base && percent <= 100
    ensures 0 <= base * percent / 100 <= base
  {
    var product := base * percent;
    assert product == base * 100 - base * (100 - percent);
    assert 0 <= base * (100 - percent);
  }

  lemma SmallRemainder(a: nat, m: nat)
    requires a < m
    ensures a % m == a
  {
  }

  lemma NextRemainder(n: nat, m: nat)
    requires 2 <= m
    ensures (n + 1) % m == if n % m + 1 == m then 0 else n % m + 1
  {
    var q, r := n / m, n % m;
    assert n == q * m + r;
    if r + 1 == m {
      assert n + 1 == (q + 1) * m + 0;
      Multiple(n + 1, q + 1, m, 0);
    } else {
      Multiple(n + 1, q, m, r + 1);
    }
  }

  lemma Multiple(n: nat, q: nat, m: nat, r: nat)
    requires r < m && n == q * m + r
    ensures n % m == r
  {
    var k := q - n / m;
    assert n == n / m * m + n % m;
    assert k * m == q * m - n / m * m;
    Factor(k, m, k * m);
  }

  lemma SpanIsScaled(base: int, percent: nat)
    requires 0 < base <= MAX_DURATION && 0 < percent <= 100
    ensures ScaleDuration(base, percent, 100) == Span(base, percent) && 0 <= Span(base, percent) <= base
  {
    ScaleIsSaturatedFloor(base, percent, 100);
    Percentage(base, percent);
  }

  /** The jittered delay is within the span around the base, capped at the maximum, and never negative. */
  lemma JitterStaysInBand(base: int, max: int, percent: nat, random: nat)
    requires 0 < base <= max <= MAX_DURATION && percent <= 100 && random <= MAX_WORD
    ensures var d := Jitter(base, max, percent, random);
      0 <= base - Span(base, percent) <= d <= Min(max, base + Span(base, percent))
  {
    if 0 < percent { SpanIsScaled(base, percent); }
  }

  /** Every delay of the band can come up. */
  lemma JitterReachesBand(base: int, max: int, percent: nat, delay: int) returns (random: nat)
    requires 1 < base <= max <= MAX_DURATION && percent <= 100
    requires base - Span(base, percent) <= delay <= Min(max, base + Span(base, percent))
    ensures random <= MAX_WORD && Jitter(base, max, percent, random) == delay
  {
    if percent == 0 { return 0; }
    SpanIsScaled(base, percent);
    var span := Span(base, percent);
    hide Span, ScaleDuration;
    random := delay - (base - span);
    if span != 0 { SmallRemainder(random, span * 2 + 1); }
  }

  // ---- Backoff ----

  datatype Attempt = Attempt(delay: int, consecutive: nat)

  function SaturatingIncrement(n: nat): nat { if n == MAX_WORD then n else n + 1 }

  class Backoff {
    const policy: Policy
    var failures: nat

    constructor (policy: Policy)
      requires Representable(policy)
      ensures Valid() && this.policy == Normalize(policy) && failures == 0
    {
      this.policy := Normalize(policy);
      failures := 0;
    }

    predicate Valid()
      reads this
    {
      Normal(policy) && failures <= MAX_WORD
    }

    /** Doubles until the maximum, in at most 63 rounds and without leaving the 64-bit range. */
    method Base() returns (base: int, rounds: nat)
      requires Valid()
      ensures base == Exponential(policy, failures) && policy.initial <= base <= policy.max && rounds <= 63
    {
      base := policy.initial;
      rounds := 0;
      var step := 0;
      while step < failures && base < policy.max
        invariant step <= failures && rounds == step && policy.initial <= base <= policy.max
        invariant base == policy.initial * PowerOfTwo(step) && step <= 63
        decreases failures - step
      {
        Doubling(policy.initial, step);
        if 63 <= step { SixtyThreeIsEnough(policy.initial, step); }
        if policy.max / 2 < base {
          PowersGrow(policy.initial, step + 1, failures);
          base := policy.max;
          rounds := rounds + 1;
          return;
        }
        base := base * 2;
        step := step + 1;
        rounds := rounds + 1;
      }
      PowersGrow(policy.initial, step, failures);
      if policy.max < base { base := policy.max; }
    }

    /**
     The next delay: within the jitter band around the exponential base, unless a stronger
     hint takes over, which is itself capped.
     */
    method Failure(hint: int, random: nat) returns (attempt: Attempt)
      requires Valid() && random <= MAX_WORD
      modifies this`failures
      ensures Valid()
      ensures var base := Exponential(policy, old(failures));
        var own := Jitter(base, policy.max, policy.jitterPercent, random);
        && attempt.delay == Max(own, Min(hint, policy.hintMax))
        && base - Span(base, policy.jitterPercent) <= own <= Min(policy.max, base + Span(base, policy.jitterPercent))
        && 0 <= attempt.delay <= policy.hintMax
      ensures failures == SaturatingIncrement(old(failures)) == attempt.consecutive
    {
      var base, _ := Base();
      JitterStaysInBand(base, policy.max, policy.jitterPercent, random);
      var delay := Jitter(base, policy.max, policy.jitterPercent, random);
      var capped := hint;
      if policy.hintMax < capped { capped := policy.hintMax; }
      if delay < capped { delay := capped; }
      failures := SaturatingIncrement(failures);
      attempt := Attempt(delay, failures);
    }

    method Reset() returns (before: nat)
      requires Valid()
      modifies this`failures
      ensures Valid() && before == old(failures) && failures == 0
    {
      before := failures;
      failures := 0;
    }
  }

  /** Without jitter, delays never shrink from one failure to the next. */
  lemma DelaysNeverShrink(p: Policy, n: nat, m: nat)
    requires Normal(p) && n <= m
    ensures p.initial <= Exponential(p, n) <= Exponential(p, m) <= p.max
    ensures 63 <= m ==> Exponential(p, m) == p.max
  {
    PowersGrow(p.initial, n, m);
    PowersGrow(p.initial, 0, n);
    if 63 <= m { SixtyThreeIsEnough(p.initial, m); }
  }

  // ---- Sampling repeated failures ----

  datatype SampleKind = SampleNone | SampleFirst | SamplePeriodic | SampleRecovery

  datatype Sample = Sample(kind: SampleKind, consecutive: nat, suppressed: nat)

  class Sampler {
    const every: nat
    var consecutive: nat
    var suppressed: nat
    /** Failures of this streak, those that were logged themselves, and those a later log line accounted for. */
    ghost var streak: nat
    ghost var logged: nat
    ghost var reported: nat

    constructor (every: nat)
      ensures Valid() && streak == 0 && this.every == if every < 2 then DEFAULT_SAMPLE_EVERY else every
    {
      this.every := if every < 2 then DEFAULT_SAMPLE_EVERY else every;
      consecutive, suppressed, streak, logged, reported := 0, 0, 0, 0, 0;
    }

    /** While the counters are exact, every failure was logged, reported as suppressed, or waits to be. */
    ghost predicate Valid()
      reads this
    {
      && 2 <= every && consecutive == Min(streak, MAX_WORD)
      && (streak <= MAX_WORD ==>
            && streak == logged + reported + suppressed
            && suppressed <= streak % every && (0 < streak ==> 0 < logged))
    }

    method Failure() returns (sample: Sample)
      requires Valid()
      modifies this
      ensures Valid() && streak == old(streak) + 1 && sample.consecutive == consecutive
      ensures sample.kind.SampleFirst? <==> old(streak) == 0
      ensures old(streak) < MAX_WORD ==>
        && (sample.kind.SamplePeriodic? <==> 0 < old(streak) && streak % every == 0)
        && logged == old(logged) + (if sample.kind.SampleNone? then 0 else 1)
        && reported == old(reported) + sample.suppressed
        && sample.suppressed < every
    {
      NextRemainder(streak, every);
      streak := streak + 1;
      consecutive := SaturatingIncrement(consecutive);
      if consecutive == 1 {
        logged := logged + 1;
        return Sample(SampleFirst, consecutive, 0);
      }
      if consecutive % every == 0 {
        sample := Sample(SamplePeriodic, consecutive, suppressed);
        logged, reported := logged + 1, reported + suppressed;
        suppressed := 0;
        return;
      }
      suppressed := SaturatingIncrement(suppressed);
      sample := Sample(SampleNone, consecutive, 0);
    }

    /** A recovery settles the account of the whole streak. */
    method Recovery() returns (sample: Sample)
      requires Valid()
      modifies this
      ensures Valid() && streak == 0 && suppressed == 0
      ensures sample.kind.SampleRecovery? <==> old(streak) != 0
      ensures old(streak) <= MAX_WORD ==>
        sample.consecutive == old(streak) && old(streak) == old(logged) + old(reported) + sample.suppressed
    {
      if consecutive == 0 {
        sample := Sample(SampleNone, 0, 0);
      } else {
        sample := Sample(SampleRecovery, consecutive, suppressed);
      }
      consecutive, suppressed, streak, logged, reported := 0, 0, 0, 0, 0;
    }
  }
}
