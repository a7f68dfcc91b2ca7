/** The retry policy of safe reads, and clipping by what is left of a budget. */
module HttpPolicy {

  function Max0(r: real): real {
    if r > 0.0 then r else 0.0
  }

  function Min(a: real, b: real): real {
    if a < b then a else b
  }

  datatype RetryPolicy = RetryPolicy(maxRetries: int, base: real, statuses: set<int>) {
    /** Exponential backoff for a zero-based attempt. */
    function BackoffFor(attempt: nat): real {
      base * Pow2(attempt) as real
    }

    /** The backoff before attempts 1 to n. */
    function BackoffSum(n: nat): real {
      if n == 0 then 0.0 else BackoffSum(n - 1) + BackoffFor(n - 1)
    }

    /** Requests one call may make. */
    function Attempts(retryable: bool): int {
      if retryable then maxRetries + 1 else 1
    }

    /** Requests one status read may make. */
    function Reads(): nat {
      if maxRetries < 0 then 0 else maxRetries + 1
    }
  }

  function Pow2(n: nat): nat {
    if n == 0 then 1 else 2 * Pow2(n - 1)
  }

  /** All the waiting of a call with `n` retries: `base * (2^n - 1)`. */
  lemma {:induction false} BackoffTotal(p: RetryPolicy, n: nat)
    ensures p.BackoffSum(n) == p.base * (Pow2(n) - 1) as real
  {
    if n > 0 {
      BackoffTotal(p, n - 1);
      var x := Pow2(n - 1) as real;
      assert (Pow2(n) - 1) as real == x + (Pow2(n - 1) - 1) as real;
      assert p.base * x + p.base * (Pow2(n - 1) - 1) as real == p.base * (x + (Pow2(n - 1) - 1) as real);
    }
  }

  lemma BackoffPositive(p: RetryPolicy, n: nat)
    requires p.base >= 0.0
    ensures p.BackoffFor(n) >= 0.0
  {
    var x := Pow2(n) as real;
    assert p.base * x >= 0.0;
  }

  lemma {:induction false} BackoffSumGrows(p: RetryPolicy, m: nat, n: nat)
    requires p.base >= 0.0 && m <= n
    ensures 0.0 <= p.BackoffSum(m) <= p.BackoffSum(n)
    decreases n
  {
    if m < n {
      BackoffSumGrows(p, m, n - 1);
      BackoffPositive(p, n - 1);
    } else if n > 0 {
      BackoffSumGrows(p, n - 1, n - 1);
      BackoffPositive(p, n - 1);
    }
  }
}
