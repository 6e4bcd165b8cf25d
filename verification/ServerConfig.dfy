/** The retry policy of src/ws/server/config.rs. Durations are nanoseconds. */
module ServerConfig {
  import opened Prelude

  /** The largest `Duration`. */
  const DURATION_MAX: nat := U64_MAX * 1_000_000_000 + 999_999_999

  datatype Field = InitialBackoff | MaxBackoff | MaxAttempts

  datatype RetryPolicy = RetryPolicy(initialBackoff: nat, maxBackoff: nat, maxAttempts: Option<nat>) {

    /** The field a configuration error names, or None. */
    function Validate(): Option<Field> {
      if initialBackoff == 0 then Some(InitialBackoff)
      else if maxBackoff < initialBackoff then Some(MaxBackoff)
      else if maxAttempts == Some(0) then Some(MaxAttempts)
      else None
    }

    /** What a server can be started with. */
    predicate Valid() {
      Validate() == None && maxBackoff <= DURATION_MAX
    }

    /** Saturating doubling, capped. */
    function NextBackoff(current: nat): nat {
      Min(Min(current * 2, DURATION_MAX), maxBackoff)
    }

    predicate IsExhausted(attempts: nat) {
      maxAttempts.Some? && attempts >= maxAttempts.value
    }

    /** The wait after the k-th consecutive failure. */
    function BackoffAt(k: nat): nat
      requires k >= 1
    {
      Min(initialBackoff * Pow2(k - 1), maxBackoff)
    }

    /** Doubling the stored wait yields the next one of the closed form. */
    lemma NextIsBackoffAt(k: nat)
      requires Valid() && k >= 1
      ensures NextBackoff(BackoffAt(k)) == BackoffAt(k + 1)
    {
      assert Pow2(k) == 2 * Pow2(k - 1);
      var term := initialBackoff * Pow2(k - 1);
      assert initialBackoff * Pow2(k) == 2 * term;
      assert term >= 0;
    }

    lemma FirstBackoff()
      requires Valid()
      ensures BackoffAt(1) == initialBackoff
    {
    }
  }

  function Pow2(n: nat): nat {
    if n == 0 then 1 else 2 * Pow2(n - 1)
  }
}
