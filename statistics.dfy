// The convergence statistic of montecarlo.py:288-296: the population standard
// deviation of the running yearly averages divided by the mean of the yearly
// unserved durations, compared against 5 %. The square root is avoided: for a
// positive mean, sd / mean <= 0.05 holds exactly when variance <= (0.05 * mean)^2.
module Statistics {

  /** The coefficient-of-variation limit for convergence. */
  const CvLimit: real := 0.05

  function Sum(s: seq<real>): real
  {
    if s == [] then 0.0 else Sum(s[..|s| - 1]) + s[|s| - 1]
  }

  function Mean(s: seq<real>): real
    requires |s| > 0
  {
    Sum(s) / |s| as real
  }

  /** The running means of s: one entry per prefix of s. */
  function RunningMeans(s: seq<real>): (r: seq<real>)
    ensures |r| == |s|
  {
    if s == [] then [] else RunningMeans(s[..|s| - 1]) + [Mean(s)]
  }

  /** Entry i of the running means is the mean of the first i + 1 values. */
  lemma {:induction false} RunningMeansAt(s: seq<real>, i: nat)
    requires i < |s|
    ensures RunningMeans(s)[i] == Mean(s[..i + 1])
    decreases |s|
  {
    if i < |s| - 1 {
      var init := s[..|s| - 1];
      RunningMeansAt(init, i);
      assert init[..i + 1] == s[..i + 1];
    } else {
      assert s[..i + 1] == s;
    }
  }

  /** Sum of squared deviations from m. */
  function SquaredDeviations(s: seq<real>, m: real): (r: real)
    ensures r >= 0.0
  {
    if s == [] then 0.0
    else SquaredDeviations(s[..|s| - 1], m) + Square(s[|s| - 1] - m)
  }

  function Square(x: real): (r: real)
    ensures r >= 0.0
  {
    x * x
  }

  /** Population variance (numpy's default of no degrees-of-freedom correction). */
  function Variance(s: seq<real>): (v: real)
    requires |s| > 0
    ensures v >= 0.0
  {
    SquaredDeviations(s, Mean(s)) / |s| as real
  }

  /** The convergence test on the yearly averages and the yearly durations. When
      the mean is zero the source's ratio is not a number (or infinite) and the
      comparison is false, so the test fails. */
  predicate CvWithin(averages: seq<real>, yearly: seq<real>)
    requires |averages| > 0 && |yearly| > 0
  {
    Mean(yearly) > 0.0 && Variance(averages) <= Square(CvLimit * Mean(yearly))
  }

  lemma SumAppend(s: seq<real>, x: real)
    ensures Sum(s + [x]) == Sum(s) + x
  {
    assert (s + [x])[..|s|] == s;
  }

  /** No entry of s is negative. */
  predicate NonNegative(s: seq<real>)
  {
    forall i :: 0 <= i < |s| ==> s[i] >= 0.0
  }

  /** Sums of non-negative values are non-negative. */
  lemma {:induction false} SumNonNegative(s: seq<real>)
    requires NonNegative(s)
    ensures Sum(s) >= 0.0
    decreases |s|
  {
    if s != [] {
      SumNonNegative(s[..|s| - 1]);
    }
  }

  lemma ProductSign(a: real, b: real)
    requires b > 0.0
    ensures a <= 0.0 <==> a * b <= 0.0
  {
    if a <= 0.0 {
      assert (-a) * b >= 0.0;
    } else {
      assert a * b > 0.0;
    }
  }

  /** The square-root-free test agrees with the source's ratio: for any
      standard deviation sd (sd >= 0 with sd * sd the variance) and a positive
      mean, sd / mean <= 0.05 exactly when CvWithin holds. */
  lemma CvWithinMatchesRatio(averages: seq<real>, yearly: seq<real>, sd: real)
    requires |averages| > 0 && |yearly| > 0
    requires sd >= 0.0 && sd * sd == Variance(averages)
    requires Mean(yearly) > 0.0
    ensures CvWithin(averages, yearly) <==> sd / Mean(yearly) <= CvLimit
  {
    var m := Mean(yearly);
    var bound := CvLimit * m;
    assert bound > 0.0;
    var q := sd / m;
    assert q * m == sd;
    assert sd - bound == (q - CvLimit) * m;
    ProductSign(q - CvLimit, m);
    assert Square(bound) == bound * bound;
    if sd <= bound {
      assert sd * sd <= sd * bound <= bound * bound;
    } else {
      assert sd * sd > sd * bound > bound * bound;
    }
  }
}
