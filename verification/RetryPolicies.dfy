/** Retry limits and delays, in exact reals. */
module RetryPolicies {
  import opened Wrappers

  datatype RetryPolicy = RetryPolicy(maxAttempts: int, initialDelay: real, multiplier: real, maxDelay: Option<real>)

  /** What the constructor accepts. */
  predicate ValidPolicy(p: RetryPolicy) {
    && p.maxAttempts >= 1 && p.initialDelay >= 0.0 && p.multiplier >= 1.0
    && (p.maxDelay.Some? ==> p.maxDelay.value >= 0.0)
  }

  function Power(base: real, exponent: nat): real {
    if exponent == 0 then 1.0 else base * Power(base, exponent - 1)
  }

  function Capped(p: RetryPolicy, delay: real): real {
    if p.maxDelay.Some? && p.maxDelay.value < delay then p.maxDelay.value else delay
  }

  /** The delay before the attempt that follows attempt `number`. */
  function DelayFor(p: RetryPolicy, number: nat): real
    requires number >= 1
  {
    Capped(p, p.initialDelay * Power(p.multiplier, number - 1))
  }
}
