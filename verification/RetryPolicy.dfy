/** Per-category retry policies, the delay before the next attempt, and the retry decision
    (app/services/error_classifier.py, worker/retry_scheduler.py). Delays are real numbers, in seconds;
    a random draw is a parameter between 0 and 1. */
module RetryPolicy {
  import opened Prelude

  datatype Category = RateLimited | Transient | Blocked | NotFound | FormatUnavailable | Timeout | Storage | Unknown

  datatype Jitter = Decorrelated | Full | NoJitter

  datatype Policy = Policy(maxRetries: nat, baseDelay: real, maxDelay: real, jitter: Jitter, respectsRetryAfter: bool)

  function PolicyFor(c: Category): Policy {
    match c
    case RateLimited => Policy(5, 60.0, 1200.0, Decorrelated, true)
    case Transient => Policy(3, 10.0, 600.0, Decorrelated, false)
    case Blocked => Policy(0, 0.0, 0.0, NoJitter, false)
    case NotFound => Policy(0, 0.0, 0.0, NoJitter, false)
    case FormatUnavailable => Policy(0, 0.0, 0.0, NoJitter, false)
    case Timeout => Policy(2, 30.0, 600.0, Full, false)
    case Storage => Policy(1, 300.0, 300.0, Full, false)
    case Unknown => Policy(2, 30.0, 600.0, Full, false)
  }

  predicate NonRetryable(c: Category) {
    PolicyFor(c).maxRetries == 0
  }

  function EffectiveMax(c: Category, jobMax: int): int {
    if PolicyFor(c).maxRetries <= jobMax then PolicyFor(c).maxRetries else jobMax
  }

  /** `evaluate` gives up exactly on these attempts. */
  predicate IsFinal(c: Category, retryCount: int, jobMax: int) {
    NonRetryable(c) || retryCount >= EffectiveMax(c, jobMax)
  }

  /** The policies in numbers: retries, base and longest delay in seconds, and the kind of jitter. */
  lemma PoliciesInNumbers(c: Category)
    ensures var p := PolicyFor(c);
      match c
      case RateLimited => p.maxRetries == 5 && p.baseDelay == 60.0 && p.maxDelay == 1200.0 && p.jitter.Decorrelated?
      case Transient => p.maxRetries == 3 && p.baseDelay == 10.0 && p.maxDelay == 600.0 && p.jitter.Decorrelated?
      case Timeout => p.maxRetries == 2 && p.baseDelay == 30.0 && p.maxDelay == 600.0 && p.jitter.Full?
      case Unknown => p.maxRetries == 2 && p.baseDelay == 30.0 && p.maxDelay == 600.0 && p.jitter.Full?
      case Storage => p.maxRetries == 1 && p.baseDelay == 300.0 && p.maxDelay == 300.0 && p.jitter.Full?
      case _ => p.maxRetries == 0
    ensures NonRetryable(c) <==> c.Blocked? || c.NotFound? || c.FormatUnavailable?
    ensures PolicyFor(c).respectsRetryAfter <==> c.RateLimited?
  {
  }

  // The delay.

  function Min(a: real, b: real): real {
    if a <= b then a else b
  }

  function Max(a: real, b: real): real {
    if a >= b then a else b
  }

  function Uniform(a: real, b: real, draw: real): real {
    a + (b - a) * draw
  }

  function Doubled(x: real, n: nat): real {
    if n == 0 then x else 2.0 * Doubled(x, n - 1)
  }

  /** A Retry-After of zero counts as none. */
  predicate Honours(c: Category, retryAfter: Option<nat>) {
    PolicyFor(c).respectsRetryAfter && retryAfter.Some? && retryAfter.value != 0
  }

  function Base(c: Category, retryAfter: Option<nat>): real {
    if Honours(c, retryAfter) then Max(PolicyFor(c).baseDelay, retryAfter.value as real) else PolicyFor(c).baseDelay
  }

  function CalculateDelay(c: Category, attempt: nat, prev: Option<real>, retryAfter: Option<nat>, draw: real): real {
    var base := Base(c, retryAfter);
    var cap := PolicyFor(c).maxDelay;
    match PolicyFor(c).jitter
    case NoJitter => base
    case Decorrelated =>
      if attempt == 0 || prev.None? then Uniform(0.0, base, draw)
      else Min(cap, Uniform(base, prev.value * 3.0, draw))
    case Full => Uniform(0.0, Min(cap, Doubled(base, attempt)), draw)
  }

  lemma Product(x: real, y: real)
    requires x >= 0.0 && y >= 0.0
    ensures x * y >= 0.0
  {
  }

  lemma Scaled(x: real, draw: real)
    requires x >= 0.0 && 0.0 <= draw <= 1.0
    ensures 0.0 <= x * draw <= x
  {
    Product(x, draw);
    Product(x, 1.0 - draw);
    assert x * (1.0 - draw) == x - x * draw;
  }

  lemma UniformBetween(a: real, b: real, draw: real)
    requires 0.0 <= draw <= 1.0
    ensures Min(a, b) <= Uniform(a, b, draw) <= Max(a, b)
  {
    if a <= b {
      Scaled(b - a, draw);
    } else {
      Scaled(a - b, draw);
      assert (b - a) * draw == -((a - b) * draw);
    }
  }

  lemma {:induction false} DoubledGrows(x: real, n: nat)
    requires x >= 0.0
    ensures Doubled(x, n) >= x
  {
    if n > 0 {
      DoubledGrows(x, n - 1);
    }
  }

  /** The delay is never negative, and within the cap unless a Retry-After above it is honoured; then it
      is at most that value. */
  lemma DelayBounds(c: Category, attempt: nat, prev: Option<real>, retryAfter: Option<nat>, draw: real)
    requires 0.0 <= draw <= 1.0 && (prev.Some? ==> prev.value >= 0.0)
    ensures var d := CalculateDelay(c, attempt, prev, retryAfter, draw); var cap := PolicyFor(c).maxDelay;
      && 0.0 <= d
      && (d <= cap || (Honours(c, retryAfter) && cap < retryAfter.value as real && d <= retryAfter.value as real))
  {
    var base := Base(c, retryAfter);
    UniformBetween(0.0, base, draw);
    DoubledGrows(base, attempt);
    UniformBetween(0.0, Min(PolicyFor(c).maxDelay, Doubled(base, attempt)), draw);
    if prev.Some? {
      UniformBetween(base, prev.value * 3.0, draw);
    }
  }

  predicate CanExceedCap(c: Category, attempt: nat, prev: Option<real>, retryAfter: Option<nat>) {
    Honours(c, retryAfter) && retryAfter.value as real > PolicyFor(c).maxDelay && (attempt == 0 || prev.None?)
  }

  /** Some draw exceeds the cap exactly on a first draw with a Retry-After above the cap. */
  lemma ExceedsCapExactly(c: Category, attempt: nat, prev: Option<real>, retryAfter: Option<nat>)
    ensures CanExceedCap(c, attempt, prev, retryAfter) <==>
            exists draw :: 0.0 <= draw <= 1.0 && CalculateDelay(c, attempt, prev, retryAfter, draw) > PolicyFor(c).maxDelay
  {
    if CanExceedCap(c, attempt, prev, retryAfter) {
      assert CalculateDelay(c, attempt, prev, retryAfter, 1.0) > PolicyFor(c).maxDelay;
    } else {
      forall draw: real | 0.0 <= draw <= 1.0
        ensures CalculateDelay(c, attempt, prev, retryAfter, draw) <= PolicyFor(c).maxDelay
      {
        WithinCap(c, attempt, prev, retryAfter, draw);
      }
    }
  }

  lemma WithinCap(c: Category, attempt: nat, prev: Option<real>, retryAfter: Option<nat>, draw: real)
    requires 0.0 <= draw <= 1.0 && !CanExceedCap(c, attempt, prev, retryAfter)
    ensures CalculateDelay(c, attempt, prev, retryAfter, draw) <= PolicyFor(c).maxDelay
  {
    var base := Base(c, retryAfter);
    UniformBetween(0.0, base, draw);
    DoubledGrows(base, attempt);
    UniformBetween(0.0, Min(PolicyFor(c).maxDelay, Doubled(base, attempt)), draw);
  }

  /** The decorrelated draw lies between its two ends, clipped by the cap. */
  lemma DecorrelatedBetween(c: Category, attempt: nat, prev: real, retryAfter: Option<nat>, draw: real)
    requires 0.0 <= draw <= 1.0 && attempt > 0 && PolicyFor(c).jitter.Decorrelated?
    ensures var d := CalculateDelay(c, attempt, Some(prev), retryAfter, draw);
      var base := Base(c, retryAfter); var cap := PolicyFor(c).maxDelay;
      Min(cap, Min(base, 3.0 * prev)) <= d <= Min(cap, Max(base, 3.0 * prev))
  {
    UniformBetween(Base(c, retryAfter), prev * 3.0, draw);
  }

  /** With full jitter the delay is a share of a ceiling, which starts at the base and doubles with each
      attempt until it reaches the cap. */
  lemma FullDoubles(c: Category, n: nat, prev: Option<real>, retryAfter: Option<nat>, draw: real)
    requires PolicyFor(c).jitter.Full?
    ensures var cap := PolicyFor(c).maxDelay;
      && CalculateDelay(c, 0, prev, retryAfter, 1.0) == Min(cap, PolicyFor(c).baseDelay)
      && CalculateDelay(c, n + 1, prev, retryAfter, 1.0) == Min(cap, 2.0 * CalculateDelay(c, n, prev, retryAfter, 1.0))
      && CalculateDelay(c, n, prev, retryAfter, draw) == draw * CalculateDelay(c, n, prev, retryAfter, 1.0)
  {
    DoubledGrows(PolicyFor(c).baseDelay, n);
  }

  /** With decorrelated jitter the first delay, and every one without a previous, is a share of the base;
      later ones reach from the base to three times the previous one, as far as the cap allows. */
  lemma DecorrelatedDraws(c: Category, n: nat, prev: real, retryAfter: Option<nat>, draw: real)
    requires PolicyFor(c).jitter.Decorrelated?
    ensures var base := if c.RateLimited? && retryAfter.Some? && retryAfter.value > 60 then retryAfter.value as real else PolicyFor(c).baseDelay;
      && CalculateDelay(c, 0, Some(prev), retryAfter, draw) == base * draw
      && CalculateDelay(c, n, None, retryAfter, draw) == base * draw
      && (n > 0 ==> CalculateDelay(c, n, Some(prev), retryAfter, 0.0) == Min(PolicyFor(c).maxDelay, base))
      && (n > 0 ==> CalculateDelay(c, n, Some(prev), retryAfter, 1.0) == Min(PolicyFor(c).maxDelay, 3.0 * prev))
  {
  }

  // The decision.

  datatype Decision = Final(limit: int) | Again(delay: real, at: real)

  /** The previous delay as `evaluate` reconstructs it: what is left until the last planned retry. */
  function PreviousDelay(nextRetryAt: Option<real>, now: real): Option<real> {
    if nextRetryAt.Some? && nextRetryAt.value - now >= 0.0 then Some(nextRetryAt.value - now) else None
  }

  function JobMax(maxRetries: Option<int>): int {
    if maxRetries.Some? then maxRetries.value else 3
  }

  /** A planned time counts as long as it has not passed, and its distance is the previous delay. A job
      without a limit of its own has three retries. */
  lemma WhatEvaluateReads(nextRetryAt: Option<real>, now: real, maxRetries: Option<int>)
    ensures PreviousDelay(nextRetryAt, now).Some? <==> nextRetryAt.Some? && now <= nextRetryAt.value
    ensures PreviousDelay(nextRetryAt, now).Some? ==> now + PreviousDelay(nextRetryAt, now).value == nextRetryAt.value
    ensures JobMax(maxRetries) == (match maxRetries case Some(m) => m case None => 3)
  {
  }

  /** `now` is read twice: for the previous delay and for the new retry time. */
  function Evaluate(c: Category, retryCount: nat, maxRetries: Option<int>, nextRetryAt: Option<real>,
                    now: real, later: real, retryAfter: Option<nat>, draw: real): Decision
  {
    var limit := EffectiveMax(c, JobMax(maxRetries));
    if NonRetryable(c) || retryCount >= limit then Final(limit)
    else
      var delay := CalculateDelay(c, retryCount, PreviousDelay(nextRetryAt, now), retryAfter, draw);
      Again(delay, later + delay)
  }

  /** Another attempt is planned exactly below the smaller of the category's and the job's limit; it is
      planned in the future, by no more than the delay bound. */
  lemma DecisionIsBounded(c: Category, retryCount: nat, maxRetries: Option<int>, nextRetryAt: Option<real>,
                          now: real, later: real, retryAfter: Option<nat>, draw: real)
    requires 0.0 <= draw <= 1.0
    ensures var d := Evaluate(c, retryCount, maxRetries, nextRetryAt, now, later, retryAfter, draw);
      && (d.Again? <==> !NonRetryable(c) && retryCount < PolicyFor(c).maxRetries && retryCount < JobMax(maxRetries))
      && (d.Again? ==> retryCount < 5 && d.at == later + d.delay && later <= d.at)
      && (d.Final? ==> d.limit == (if PolicyFor(c).maxRetries <= JobMax(maxRetries) then PolicyFor(c).maxRetries else JobMax(maxRetries)))
      && (d.Final? <==> IsFinal(c, retryCount, JobMax(maxRetries)))
      && (d.Again? ==> d.at <= later + (if Honours(c, retryAfter)
            then Max(PolicyFor(c).maxDelay, retryAfter.value as real) else PolicyFor(c).maxDelay))
  {
    DelayBounds(c, retryCount, PreviousDelay(nextRetryAt, now), retryAfter, draw);
  }

  /** A run that fails after its job's planned retry time has no previous delay to go by, and its
      "decorrelated" draw is a plain draw from zero. A run can come earlier: at-least-once delivery may
      leave a copy of the id in the list, which is claimed without waiting for that time. */
  lemma DecorrelatedIsPlain(c: Category, retryCount: nat, maxRetries: Option<int>, nextRetryAt: Option<real>,
                            now: real, later: real, retryAfter: Option<nat>, draw: real)
    requires 0.0 <= draw <= 1.0 && PolicyFor(c).jitter.Decorrelated?
    requires nextRetryAt.Some? ==> nextRetryAt.value < now
    ensures var d := Evaluate(c, retryCount, maxRetries, nextRetryAt, now, later, retryAfter, draw);
      d.Again? ==> d.delay == Base(c, retryAfter) * draw
  {
  }

  function AttemptTimeout(attempt: nat): real {
    Min(600.0, 300.0 * (1.0 + attempt as real * 0.5))
  }

  /** Each attempt gets at least as long as the one before, between five and ten minutes. */
  lemma TimeoutsGrow(a: nat, b: nat)
    requires a <= b
    ensures 300.0 <= AttemptTimeout(a) <= AttemptTimeout(b) <= 600.0
    ensures AttemptTimeout(a) == if a == 0 then 300.0 else if a == 1 then 450.0 else 600.0
  {
  }
}
