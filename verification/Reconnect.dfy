/** The exponential backoff of src/core/reconnect.rs, over the reals. */
module Reconnect {
  import opened Prelude

  datatype Policy = Policy(base: real, max: real, factor: real) {
    predicate Valid() {
      base >= 0.0 && max >= 0.0 && factor > 1.0
    }
  }

  function RealMin(a: real, b: real): real {
    if a <= b then a else b
  }

  function Power(x: real, n: nat): real {
    if n == 0 then 1.0 else x * Power(x, n - 1)
  }

  /** The delay handed out after `k` others: the base first, then the capped power. */
  function DelayAt(p: Policy, k: nat): real {
    if k == 0 then p.base else RealMin(p.base * Power(p.factor, k), p.max)
  }

  /** One draw multiplies the stored delay and caps it. */
  function Next(p: Policy, current: real): real {
    RealMin(current * p.factor, p.max)
  }

  lemma PowerAtLeastOne(x: real, n: nat)
    requires x >= 1.0
    ensures Power(x, n) >= 1.0
  {
    if n > 0 {
      PowerAtLeastOne(x, n - 1);
      assert x * Power(x, n - 1) >= 1.0 * Power(x, n - 1);
    }
  }

  lemma ScaleUp(a: real, x: real)
    requires a >= 0.0 && x >= 1.0
    ensures a * x >= a
  {
    assert a * (x - 1.0) >= 0.0;
  }

  /** The stored delay always is the next term of the closed form. */
  lemma NextIsDelayAt(p: Policy, k: nat)
    requires p.Valid()
    ensures Next(p, DelayAt(p, k)) == DelayAt(p, k + 1)
  {
    var term := p.base * Power(p.factor, k);
    PowerAtLeastOne(p.factor, k);
    assert term >= 0.0;
    assert p.base * Power(p.factor, k + 1) == term * p.factor;
    ScaleUp(term, p.factor);
    ScaleUp(p.max, p.factor);
    ScaleUp(p.base, p.factor);
  }

  lemma FirstDelay(p: Policy)
    ensures DelayAt(p, 0) == p.base
  {
  }

  lemma DelayBounds(p: Policy, k: nat)
    requires p.Valid() && p.base <= p.max
    ensures 0.0 <= DelayAt(p, k) <= p.max
  {
    PowerAtLeastOne(p.factor, k);
    ScaleUp(p.base, Power(p.factor, k));
  }

  /** The delays never fall and never exceed the maximum exactly when the base does not. */
  lemma RisesToMaxIffBaseBelow(p: Policy)
    requires p.Valid()
    ensures (forall k: nat :: DelayAt(p, k) <= DelayAt(p, k + 1) && DelayAt(p, k) <= p.max) <==> p.base <= p.max
  {
    hide DelayAt, Power;
    if p.base <= p.max {
      forall k: nat
        ensures DelayAt(p, k) <= DelayAt(p, k + 1) && DelayAt(p, k) <= p.max
      {
        NextIsDelayAt(p, k);
        DelayBounds(p, k);
        ScaleUp(DelayAt(p, k), p.factor);
      }
    } else {
      FirstDelay(p);
    }
  }

  class ExponentialBackoffReconnect {
    const base: real
    const max: real
    const factor: real
    var current: real
    const retry: bool
    ghost var draws: nat   // since construction or the last reset

    ghost function Terms(): Policy {
      Policy(base, max, factor)
    }

    ghost predicate Valid()
      reads this
    {
      Terms().Valid() && current == DelayAt(Terms(), draws)
    }

    /** A factor that is not finite (None) or not above one is replaced by 1.5. */
    constructor (base: real, max: real, factor: Option<real>, retry: bool)
      requires base >= 0.0 && max >= 0.0
      ensures Valid() && draws == 0 && this.retry == retry
      ensures Terms() == Policy(base, max, if factor.Some? && factor.value > 1.0 then factor.value else 1.5)
    {
      this.base := base;
      this.max := max;
      this.factor := if factor.Some? && factor.value > 1.0 then factor.value else 1.5;
      this.current := base;
      this.retry := retry;
      this.draws := 0;
    }

    method NextDelay() returns (delay: real)
      requires Valid()
      modifies this
      ensures Valid() && draws == old(draws) + 1
      ensures delay == DelayAt(Terms(), old(draws))
    {
      delay := current;
      var next := current * factor;
      current := if next <= max then next else max;
      NextIsDelayAt(Terms(), draws);
      draws := draws + 1;
    }

    method Reset()
      requires Valid()
      modifies this
      ensures Valid() && draws == 0
    {
      current := base;
      draws := 0;
    }
  }
}
