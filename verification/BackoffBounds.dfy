/** How long the retries of one task wait, one by one and altogether. */
module BackoffBounds {
  import opened Wrappers
  import opened RetryPolicies

  // ---------- Powers ----------

  lemma ScaledUp(factor: real, x: real)
    requires factor >= 1.0 && x >= 0.0
    ensures factor * x >= x
  {
    assert (factor - 1.0) * x >= 0.0;
  }

  lemma {:induction false} PowerGrows(base: real, i: nat, j: nat)
    requires base >= 1.0 && i <= j
    ensures 1.0 <= Power(base, i) <= Power(base, j)
    decreases i + j
  {
    if i < j {
      PowerGrows(base, i, j - 1);
      ScaledUp(base, Power(base, j - 1));
    } else if i > 0 {
      PowerGrows(base, i - 1, i - 1);
      ScaledUp(base, Power(base, i - 1));
    }
  }

  lemma ScaleMonotone(factor: real, x: real, y: real)
    requires factor >= 0.0 && 0.0 <= x <= y
    ensures 0.0 <= factor * x <= factor * y
  {
    assert factor * (y - x) >= 0.0;
  }

  // ---------- Single delays ----------

  /** A later attempt never waits less. */
  lemma DelaysGrow(p: RetryPolicy, i: nat, j: nat)
    requires ValidPolicy(p) && 1 <= i <= j
    ensures 0.0 <= DelayFor(p, i) <= DelayFor(p, j)
    ensures p.maxDelay.Some? ==> DelayFor(p, j) <= p.maxDelay.value
  {
    PowerGrows(p.multiplier, i - 1, j - 1);
    ScaleMonotone(p.initialDelay, Power(p.multiplier, i - 1), Power(p.multiplier, j - 1));
  }

  /** The delays themselves: the first is the initial delay, each further one the multiplier times the
      one before, and with a cap each is the smaller of the cap and the delay without it. */
  lemma DelaysAre(p: RetryPolicy, k: nat)
    requires ValidPolicy(p) && k >= 1
    ensures var free := p.(maxDelay := None);
            && DelayFor(free, 1) == p.initialDelay
            && DelayFor(free, k + 1) == p.multiplier * DelayFor(free, k)
            && DelayFor(p, k) == if p.maxDelay.Some? && p.maxDelay.value <= DelayFor(free, k) then p.maxDelay.value else DelayFor(free, k)
  {
    var q := Power(p.multiplier, k - 1);
    assert Power(p.multiplier, k) == p.multiplier * q;
    assert p.initialDelay * (p.multiplier * q) == p.multiplier * (p.initialDelay * q);
  }

  // ---------- A whole chain ----------

  /** The delays scheduled after the first `failures` failed attempts. */
  function TotalDelay(p: RetryPolicy, failures: nat): real {
    if failures == 0 then 0.0 else TotalDelay(p, failures - 1) + DelayFor(p, failures)
  }

  lemma {:induction false} TotalGrows(p: RetryPolicy, i: nat, j: nat)
    requires ValidPolicy(p) && i <= j
    ensures TotalDelay(p, i) <= TotalDelay(p, j)
    decreases j
  {
    if i < j {
      TotalGrows(p, i, j - 1);
      DelaysGrow(p, j, j);
    }
  }

  lemma {:induction false} CappedTotal(p: RetryPolicy, failures: nat)
    requires ValidPolicy(p) && p.maxDelay.Some?
    ensures TotalDelay(p, failures) <= failures as real * p.maxDelay.value
  {
    if failures > 0 {
      CappedTotal(p, failures - 1);
      DelaysGrow(p, failures, failures);
      var cap := p.maxDelay.value;
      assert failures as real * cap == (failures - 1) as real * cap + cap;
    }
  }

  function GeometricSum(base: real, terms: nat): real {
    if terms == 0 then 0.0 else GeometricSum(base, terms - 1) + Power(base, terms - 1)
  }

  lemma {:induction false} GeometricClosedForm(base: real, terms: nat)
    ensures (base - 1.0) * GeometricSum(base, terms) == Power(base, terms) - 1.0
    ensures base == 1.0 ==> GeometricSum(base, terms) == terms as real
  {
    if terms > 0 {
      GeometricClosedForm(base, terms - 1);
      var g, q := GeometricSum(base, terms - 1), Power(base, terms - 1);
      assert (base - 1.0) * (g + q) == (base - 1.0) * g + (base * q - q);
      if base == 1.0 {
        PowerOfOne(terms - 1);
      }
    }
  }

  lemma {:induction false} PowerOfOne(exponent: nat)
    ensures Power(1.0, exponent) == 1.0
  {
    if exponent > 0 {
      PowerOfOne(exponent - 1);
    }
  }

  lemma {:induction false} GeometricTotal(p: RetryPolicy, failures: nat)
    ensures TotalDelay(p, failures) <= p.initialDelay * GeometricSum(p.multiplier, failures)
    ensures p.maxDelay.None? ==> TotalDelay(p, failures) == p.initialDelay * GeometricSum(p.multiplier, failures)
  {
    if failures > 0 {
      GeometricTotal(p, failures - 1);
      var g, q := GeometricSum(p.multiplier, failures - 1), Power(p.multiplier, failures - 1);
      assert p.initialDelay * (g + q) == p.initialDelay * g + p.initialDelay * q;
    }
  }

  function CapBound(p: RetryPolicy): real
    requires p.maxDelay.Some?
  {
    (p.maxAttempts - 1) as real * p.maxDelay.value
  }

  function SumBound(p: RetryPolicy): real
    requires p.maxAttempts >= 1
  {
    p.initialDelay * GeometricSum(p.multiplier, p.maxAttempts - 1)
  }

  lemma TotalWithinBounds(p: RetryPolicy)
    requires ValidPolicy(p)
    ensures p.maxDelay.Some? ==> TotalDelay(p, p.maxAttempts - 1) <= CapBound(p)
    ensures TotalDelay(p, p.maxAttempts - 1) <= SumBound(p)
    ensures p.maxDelay.None? ==> TotalDelay(p, p.maxAttempts - 1) == SumBound(p)
  {
    hide TotalDelay, GeometricSum;
    GeometricTotal(p, p.maxAttempts - 1);
    if p.maxDelay.Some? {
      CappedTotal(p, p.maxAttempts - 1);
    }
  }

  /** All the waiting of a chain of attempts: every failed attempt but the last is followed by a
      delay, so at most one less than the limit; the total is bounded by the cap, when one is set,
      and by the geometric sum, which it equals when none is set. */
  lemma ChainDelayIsBounded(p: RetryPolicy, failures: nat)
    requires ValidPolicy(p) && failures < p.maxAttempts
    ensures 0.0 <= TotalDelay(p, failures) <= SumBound(p)
    ensures p.maxDelay.Some? ==> TotalDelay(p, failures) <= CapBound(p)
    ensures p.maxDelay.None? ==> TotalDelay(p, p.maxAttempts - 1) == SumBound(p)
  {
    hide SumBound, CapBound;
    TotalGrows(p, 0, failures);
    TotalGrows(p, failures, p.maxAttempts - 1);
    TotalWithinBounds(p);
  }
}
