// Exponential sojourn times drawn from one shared pseudorandom stream.
//
// The simulation draws u uniformly from [0, 1) and turns it into a sojourn
// time -ln(u) / rho. The logarithm is left abstract: a Stream hands out the
// unit-exponential variates -ln(u_0), -ln(u_1), ... in draw order, and the
// division by the rate is modelled exactly. The draw counter makes "exactly
// one draw per resample" a checkable statement.
module Sampling {

  /** The shared random state: every stochastic component holds the same Stream. */
  class Stream {
    /** variate(n) is -ln(u_n) for the n-th uniform draw u_n, which lies in
        [0, 1). A draw of exactly 0 (an infinite variate) is not representable
        here: every variate is a finite positive real. */
    const variate: nat -> real
    /** How many draws have been consumed so far. */
    var count: nat

    ghost predicate Valid() {
      forall n: nat :: variate(n) > 0.0
    }

    constructor (variate: nat -> real)
      requires forall n: nat :: variate(n) > 0.0
      ensures Valid() && this.variate == variate && count == 0
    {
      this.variate := variate;
      count := 0;
    }

    /** Consumes the next draw. */
    method Draw() returns (e: real)
      requires Valid()
      modifies this`count
      ensures count == old(count) + 1
      ensures e == variate(old(count)) && e > 0.0
    {
      e := variate(count);
      count := count + 1;
    }
  }

  /** The sojourn time -ln(u) / rho for the variate e = -ln(u) and the hourly rate rho. */
  function Sojourn(e: real, rate: real): (t: real)
    requires rate > 0.0
    ensures e > 0.0 ==> t > 0.0
  {
    e / rate
  }

  /** The sojourn is the time at which rate * t reaches the variate. */
  lemma SojournTimesRate(e: real, rate: real)
    requires rate > 0.0
    ensures Sojourn(e, rate) * rate == e
  {
  }

  /** A larger variate (a smaller uniform draw) never gives a shorter sojourn,
      and a smaller rate never gives a shorter sojourn for the same draw. */
  lemma SojournMonotone(e1: real, e2: real, rate1: real, rate2: real)
    requires 0.0 <= e1 <= e2
    requires 0.0 < rate2 <= rate1
    ensures Sojourn(e1, rate1) <= Sojourn(e2, rate2)
  {
    var t1, mid, t2 := Sojourn(e1, rate1), Sojourn(e2, rate1), Sojourn(e2, rate2);
    SojournTimesRate(e1, rate1);
    SojournTimesRate(e2, rate1);
    SojournTimesRate(e2, rate2);
    // the same rate, a larger variate
    assert (mid - t1) * rate1 == e2 - e1;
    NegativeTimesPositive(mid - t1, rate1);
    // the same variate, a smaller rate
    NegativeTimesPositive(mid, rate1);
    assert mid * (rate1 - rate2) >= 0.0;
    assert (t2 - mid) * rate2 == mid * (rate1 - rate2);
    NegativeTimesPositive(t2 - mid, rate2);
  }

  /** A negative number times a positive one is negative. */
  lemma NegativeTimesPositive(a: real, b: real)
    requires b > 0.0
    ensures a < 0.0 ==> a * b < 0.0
  {
    if a < 0.0 {
      assert (-a) * b > 0.0;
    }
  }
}
