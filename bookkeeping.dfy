// The run-level accumulators of the simulation loop and how one event updates
// them, montecarlo.py:243-255 and :263-292: unserved time and loss onsets are
// charged first, then the intra-year clock either advances or closes the year.
module Bookkeeping {
  import opened Statistics

  /** Years that must pass before convergence may be declared. */
  const MinYears: nat := 50

  /** The year clock closes a year once it has passed this many hours. */
  const YearHours: real := 8760.0

  /** The accumulators of the loop in `main`. */
  datatype Tally = Tally(
    time: real,          // hours elapsed in the current year
    totalTime: real,     // hours of all closed years
    lossTime: real,      // unserved hours charged to the current year
    lossCount: nat,      // onsets of loss of load
    served: bool,        // load-served status at the start of the next event
    prevServed: bool,    // the status at the start of the previous event
    year: nat,           // closed years
    yearly: seq<real>,   // unserved hours of each closed year
    averages: seq<real>) // running mean of `yearly` after each closed year

  /** The state of the loop before the first event. */
  const Start: Tally := Tally(0.0, 0.0, 0.0, 0, true, true, 0, [], [])

  /** One entry per closed year in both yearly arrays, and each running average
      is the mean of the yearly durations up to its year. */
  ghost predicate YearArrays(t: Tally)
  {
    |t.yearly| == t.year && t.averages == RunningMeans(t.yearly)
  }

  /** The status seen by the previous event: true before any event. */
  function LastServed(history: seq<bool>): bool
  {
    if history == [] then true else history[|history| - 1]
  }

  /** The number of served-to-unserved transitions in a history of statuses
      that starts from served. */
  function Onsets(history: seq<bool>): nat
  {
    if history == [] then 0
    else
      var before := history[..|history| - 1];
      Onsets(before) + (if LastServed(before) && !history[|history| - 1] then 1 else 0)
  }

  /** Charging an event of length delta: if the load was unserved at its start,
      the current year's unserved time grows by delta, and the onset counter
      grows when the event before was served. The status becomes the previous one. */
  function Account(t: Tally, delta: real): (r: Tally)
    ensures r.lossTime == t.lossTime + (if t.served then 0.0 else delta)
    ensures r.lossCount == t.lossCount + (if !t.served && t.prevServed then 1 else 0)
    ensures r.prevServed == t.served
    ensures r == t.(lossTime := r.lossTime, lossCount := r.lossCount, prevServed := r.prevServed)
  {
    var charged :=
      if t.served then t
      else t.(lossTime := t.lossTime + delta,
              lossCount := if t.prevServed then t.lossCount + 1 else t.lossCount);
    charged.(prevServed := t.served)
  }

  /** The year test comes before the clock moves: a clock past 8760 hours closes
      the year (the event's delta is not added to any clock), otherwise the clock
      advances by delta. */
  function Tick(t: Tally, delta: real): Tally
  {
    if t.time > YearHours then
      var yearly := t.yearly + [t.lossTime];
      t.(year := t.year + 1,
         totalTime := t.totalTime + t.time,
         time := 0.0,
         yearly := yearly,
         lossTime := 0.0,
         averages := t.averages + [Mean(yearly)])
    else
      t.(time := t.time + delta)
  }

  /** The stopping rule checked right after a year closes. */
  predicate MeetsStoppingRule(t: Tally)
  {
    t.year > MinYears && |t.yearly| > 0 && |t.averages| > 0 && CvWithin(t.averages, t.yearly)
  }

  /** The invariant of the accumulators, given the statuses every event started
      from and the total unserved time ever charged: the year arrays are in
      step, the onset counter counts the served-to-unserved transitions, and
      the charged time is split between the closed years and the current one,
      none of which is negative. */
  ghost predicate Balanced(t: Tally, history: seq<bool>, charged: real)
  {
    YearArrays(t) &&
    t.lossCount == Onsets(history) && t.prevServed == LastServed(history) &&
    Sum(t.yearly) + t.lossTime == charged &&
    t.lossTime >= 0.0 && NonNegative(t.yearly)
  }

  /** The balance does not depend on the current load-served status. */
  lemma ServedIsNotTracked(t: Tally, served: bool, history: seq<bool>, charged: real)
    requires Balanced(t, history, charged)
    ensures Balanced(t.(served := served), history, charged)
  {
  }

  /** Charging an event keeps the accumulators balanced once its status joins
      the history and its delta, when unserved, joins the charged time. */
  lemma AccountBalanced(t: Tally, delta: real, history: seq<bool>, charged: real)
    requires Balanced(t, history, charged) && delta >= 0.0
    ensures Balanced(Account(t, delta), history + [t.served], charged + (if t.served then 0.0 else delta))
  {
    AccountCountsOnsets(t, delta, history);
  }

  /** The clock keeps the accumulators balanced. */
  lemma TickBalanced(t: Tally, delta: real, history: seq<bool>, charged: real)
    requires Balanced(t, history, charged)
    ensures Balanced(Tick(t, delta), history, charged)
  {
    TickKeepsYearArrays(t, delta);
    TickConservesLoss(t, delta);
    if t.time > YearHours {
      var yearly := t.yearly + [t.lossTime];
      assert Tick(t, delta).yearly == yearly;
      forall i | 0 <= i < |yearly|
        ensures yearly[i] >= 0.0
      {
        if i < |t.yearly| {
          assert yearly[i] == t.yearly[i];
        }
      }
    }
  }

  /** The loss counter counts exactly the served-to-unserved transitions among
      the statuses the events started from. */
  lemma AccountCountsOnsets(t: Tally, delta: real, history: seq<bool>)
    requires t.lossCount == Onsets(history) && t.prevServed == LastServed(history)
    ensures Account(t, delta).lossCount == Onsets(history + [t.served])
    ensures Account(t, delta).prevServed == LastServed(history + [t.served])
  {
    assert (history + [t.served])[..|history|] == history;
  }

  /** Closing a year or advancing the clock keeps one entry per closed year in
      both arrays, with each average the mean up to its year. */
  lemma TickKeepsYearArrays(t: Tally, delta: real)
    requires YearArrays(t)
    ensures YearArrays(Tick(t, delta))
  {
    if t.time > YearHours {
      var yearly := t.yearly + [t.lossTime];
      assert yearly[..|yearly| - 1] == t.yearly;
    }
  }

  /** The yearly arrays always have one entry per closed year, and entry i of
      the running averages is the mean of the first i + 1 yearly durations. */
  lemma YearArraysAt(t: Tally, i: nat)
    requires YearArrays(t) && i < t.year
    ensures |t.yearly| == t.year && |t.averages| == t.year
    ensures t.averages[i] == Mean(t.yearly[..i + 1])
  {
    RunningMeansAt(t.yearly, i);
  }

  /** No unserved time is lost when a year closes: the current year's unserved
      time plus the closed years' total is unchanged by the clock. */
  lemma TickConservesLoss(t: Tally, delta: real)
    ensures Sum(Tick(t, delta).yearly) + Tick(t, delta).lossTime == Sum(t.yearly) + t.lossTime
  {
    SumAppend(t.yearly, t.lossTime);
  }

  /** Elapsed time is conserved except on a year-closing event, whose delta is
      dropped: it reaches the unserved time of the closing year but no clock. */
  lemma TickDropsClosingDelta(t: Tally, delta: real)
    ensures Tick(t, delta).totalTime + Tick(t, delta).time ==
      t.totalTime + t.time + (if t.time > YearHours then 0.0 else delta)
    ensures t.time > YearHours ==> Tick(t, delta).year == t.year + 1 && Tick(t, delta).time == 0.0
    ensures t.time <= YearHours ==> Tick(t, delta).year == t.year
  {
  }

  /** On every balanced tally with a closed year, the square-root-free test is
      the ratio test std(averages) / mean(yearly) <= 0.05 for any standard
      deviation sd: the yearly mean is never negative, and a zero mean, whose
      ratio is not a number or infinite, fails the test. */
  lemma BalancedCvMatchesRatio(t: Tally, history: seq<bool>, charged: real, sd: real)
    requires Balanced(t, history, charged) && t.year > 0
    requires sd >= 0.0 && sd * sd == Variance(t.averages)
    ensures |t.yearly| > 0 && |t.averages| > 0 && Mean(t.yearly) >= 0.0
    ensures CvWithin(t.averages, t.yearly) <==> Mean(t.yearly) > 0.0 && sd / Mean(t.yearly) <= CvLimit
  {
    YearArraysAt(t, 0);
    SumNonNegative(t.yearly);
    if Mean(t.yearly) > 0.0 {
      CvWithinMatchesRatio(t.averages, t.yearly, sd);
    }
  }
}
