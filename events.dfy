// What one event of the next-event loop does to the components, as values
// (montecarlo.py:258-306): the component with the least time to change fires,
// and, unless the loop stops on that event, every other component loses the
// elapsed time. The component list of the source is, in order, G1, G2, G3,
// the weather, T1, T2 and the load; components are numbered 0..6 that way.
module Events {
  import opened Sampling
  import opened TwoStates
  import opened DailyLoad
  import opened Capacity

  /** The number of components. */
  const Components: nat := 7
  const WeatherIndex: nat := 3
  const LoadIndex: nat := 6

  /** The values of all components and the number of draws consumed so far. */
  datatype World = World(g1: Unit, g2: Unit, g3: Unit, weather: Unit,
                         t1: LineUnit, t2: LineUnit, load: LoadUnit, draws: nat)
  {
    predicate Valid()
    {
      g1.Valid() && g2.Valid() && g3.Valid() && weather.Valid() &&
      t1.Valid() && t2.Valid() && load.Valid()
    }

    /** Times to change in the order of the component list. */
    function Ttcs(): (s: seq<real>)
      ensures |s| == Components
    {
      [g1.ttc, g2.ttc, g3.ttc, weather.ttc, t1.ttc, t2.ttc, load.ttc]
    }

    /** Up flags of the six two-state components, in list order. */
    function Ups(): (s: seq<bool>)
      ensures |s| == LoadIndex
    {
      [g1.up, g2.up, g3.up, weather.up, t1.up, t2.up]
    }

    /** Both lines hold a sojourn sampled under the current weather. */
    predicate Synced()
    {
      t1.seenWeather == weather.up && t2.seenWeather == weather.up
    }

    /** No component has a negative time to change. */
    predicate NonNeg()
    {
      g1.ttc >= 0.0 && g2.ttc >= 0.0 && g3.ttc >= 0.0 && weather.ttc >= 0.0 &&
      t1.ttc >= 0.0 && t2.ttc >= 0.0 && load.ttc >= 0.0
    }

    function Generators(): seq<bool>
    {
      [g1.up, g2.up, g3.up]
    }

    function Lines(): seq<bool>
    {
      [t1.up, t2.up]
    }

    /** Whether the present generators and lines cover the present demand. */
    predicate Served()
      requires load.Valid()
    {
      Available(Generators(), Lines()) >= load.Demand()
    }
  }

  /** Yearly failure and repair rates of the components. */
  datatype Config = Config(
    generatorFailure: real, generatorRepair: real,
    weatherFailure: real, weatherRepair: real,
    lineFailureNormal: real, lineFailureAdverse: real, lineRepair: real)
  {
    predicate Valid()
    {
      generatorFailure > 0.0 && generatorRepair > 0.0 && weatherFailure > 0.0 && weatherRepair > 0.0 &&
      lineFailureNormal > 0.0 && lineFailureAdverse > 0.0 && lineRepair > 0.0
    }
  }

  /** The rates used by the original study. */
  const Reference: Config := Config(36.5, 1095.0, 43.8, 438.0, 10.0, 100.0, 1095.0)

  /** The study's rates are all positive. */
  lemma ReferenceValid()
    ensures Reference.Valid()
  {
  }

  /** The components as `main` builds them: every two-state component up with
      one draw each in list order, the lines under fair weather, the load at
      its first level. */
  function Startup(cfg: Config, variate: nat -> real, n: nat): World
    requires cfg.Valid()
  {
    var gf, gr := cfg.generatorFailure / HoursPerYear, cfg.generatorRepair / HoursPerYear;
    var wf, wr := cfg.weatherFailure / HoursPerYear, cfg.weatherRepair / HoursPerYear;
    World(
      Unit(gf, gr, true, Sojourn(variate(n), gf)),
      Unit(gf, gr, true, Sojourn(variate(n + 1), gf)),
      Unit(gf, gr, true, Sojourn(variate(n + 2), gf)),
      Unit(wf, wr, true, Sojourn(variate(n + 3), wf)),
      StartLine(cfg, variate(n + 4)),
      StartLine(cfg, variate(n + 5)),
      LoadUnit(0, Dwell(0) as real),
      n + 6)
  }

  /** A line as built at startup from draw e: up, under fair weather, its
      sojourn drawn at the fair-weather failure rate per hour. */
  function StartLine(cfg: Config, e: real): LineUnit
    requires cfg.Valid()
  {
    var ln := cfg.lineFailureNormal / HoursPerYear;
    LineUnit(ln, cfg.lineFailureAdverse / HoursPerYear, cfg.lineRepair / HoursPerYear, true, Sojourn(e, ln), true)
  }

  /** The starting components are ready for the loop: valid, lines synced, no
      negative time to change, and the first demand of 60 served. */
  lemma StartupReady(cfg: Config, variate: nat -> real, n: nat)
    requires cfg.Valid() && forall m: nat :: variate(m) > 0.0
    ensures Startup(cfg, variate, n).Valid()
    ensures Startup(cfg, variate, n).Synced() && Startup(cfg, variate, n).NonNeg()
    ensures Startup(cfg, variate, n).Served()
  {
    var w := Startup(cfg, variate, n);
    assert variate(n) > 0.0 && variate(n + 1) > 0.0 && variate(n + 2) > 0.0;
    assert variate(n + 3) > 0.0 && variate(n + 4) > 0.0 && variate(n + 5) > 0.0;
    PeakServedIffAllUp(w.Generators(), w.Lines());
  }

  /** Component k of s has the least value. */
  predicate IsMinimum(s: seq<real>, k: nat)
  {
    k < |s| && forall j :: 0 <= j < |s| ==> s[k] <= s[j]
  }

  /** Every non-empty list of times has a least element. */
  lemma {:induction false} MinimumExists(s: seq<real>)
    requires |s| > 0
    ensures exists k :: 0 <= k < |s| && IsMinimum(s, k)
    decreases |s|
  {
    if |s| == 1 {
      assert IsMinimum(s, 0);
    } else {
      var rest := s[..|s| - 1];
      MinimumExists(rest);
      var k :| 0 <= k < |rest| && IsMinimum(rest, k);
      if s[|s| - 1] < s[k] {
        assert IsMinimum(s, |s| - 1);
      } else {
        assert IsMinimum(s, k);
      }
    }
  }

  /** After sorting by time to change, T1 precedes T2 when its time is smaller
      and follows it when its time is larger; a tie may go either way. */
  predicate LineOrder(w: World, t1First: bool)
  {
    (w.t1.ttc < w.t2.ttc ==> t1First) && (w.t2.ttc < w.t1.ttc ==> !t1First)
  }

  /** Component k fires: a two-state component changes state and resamples with
      the next draw; the load moves to its next level without drawing. */
  function Fire(w: World, k: nat, variate: nat -> real): (r: World)
    requires w.Valid() && k < Components
    ensures r.Valid()
    ensures r.draws == w.draws + (if k == LoadIndex then 0 else 1)
  {
    var e := variate(w.draws);
    var n := w.draws + 1;
    if k == 0 then w.(g1 := Flip(w.g1, e), draws := n)
    else if k == 1 then w.(g2 := Flip(w.g2, e), draws := n)
    else if k == 2 then w.(g3 := Flip(w.g3, e), draws := n)
    else if k == 3 then w.(weather := Flip(w.weather, e), draws := n)
    else if k == 4 then w.(t1 := LineFlip(w.t1, w.weather.up, e), draws := n)
    else if k == 5 then w.(t2 := LineFlip(w.t2, w.weather.up, e), draws := n)
    else w.(load := Advance(w.load))
  }

  /** A line that is decayed unless it is the one that fired. */
  function LineDecayUnless(fired: bool, l: LineUnit, fair: bool, e: real, delta: real): LineUnit
    requires l.Valid()
  {
    if fired then l else LineDecay(l, fair, e, delta)
  }

  /** Draws taken by a line that is decayed unless it fired. */
  function LineDrawsUnless(fired: bool, l: LineUnit, fair: bool): nat
  {
    if fired then 0 else ReadDraws(l, fair)
  }

  /** The generators and the weather, except k, lose delta (clamped at zero). */
  function DecayUnits(w: World, k: nat, delta: real): (r: World)
    requires w.Valid()
    ensures r.Valid()
  {
    w.(g1 := if k == 0 then w.g1 else Decay(w.g1, delta),
       g2 := if k == 1 then w.g2 else Decay(w.g2, delta),
       g3 := if k == 2 then w.g3 else Decay(w.g3, delta),
       weather := if k == 3 then w.weather else Decay(w.weather, delta))
  }

  /** The lines, except k, lose delta after reading their time to change in
      their sorted order, so when both resample the first takes the first draw. */
  function DecayLines(w: World, k: nat, delta: real, t1First: bool, variate: nat -> real): (r: World)
    requires w.Valid()
    ensures r.Valid()
  {
    var fair := w.weather.up;
    var d1 := LineDrawsUnless(k == 4, w.t1, fair);
    var d2 := LineDrawsUnless(k == 5, w.t2, fair);
    var n1 := if t1First then w.draws else w.draws + d2;
    var n2 := if t1First then w.draws + d1 else w.draws;
    w.(t1 := LineDecayUnless(k == 4, w.t1, fair, variate(n1), delta),
       t2 := LineDecayUnless(k == 5, w.t2, fair, variate(n2), delta),
       draws := w.draws + d1 + d2)
  }

  /** The load, unless it fired, loses delta without a clamp. */
  function DecayLoad(w: World, k: nat, delta: real): (r: World)
    requires w.Valid()
    ensures r.Valid()
  {
    if k == LoadIndex then w else w.(load := LoadDecay(w.load, delta))
  }

  /** Every component except k loses delta. */
  function DecayOthers(w: World, k: nat, delta: real, t1First: bool, variate: nat -> real): (r: World)
    requires w.Valid()
    ensures r.Valid()
  {
    DecayLoad(DecayLines(DecayUnits(w, k, delta), k, delta, t1First, variate), k, delta)
  }

  /** The components after a whole continuing event. */
  function Event(w: World, k: nat, delta: real, t1First: bool, variate: nat -> real): (r: World)
    requires w.Valid() && k < Components
    ensures r.Valid()
  {
    DecayOthers(Fire(w, k, variate), k, delta, t1First, variate)
  }

  /** Draws consumed by a continuing event that fires component k from a synced
      state: one to resample k (none for the load), plus one per line when the
      weather changed. */
  function EventDraws(k: nat): nat
  {
    if k == LoadIndex then 0 else if k == WeatherIndex then 3 else 1
  }

  /** Exactly the fired component changes its up/down state. */
  lemma {:induction false} EventFlipsOnlyFired(w: World, k: nat, delta: real, t1First: bool, variate: nat -> real)
    requires w.Valid() && k < Components
    ensures forall j :: 0 <= j < LoadIndex ==>
      Event(w, k, delta, t1First, variate).Ups()[j] == (w.Ups()[j] != (j == k))
    ensures k != LoadIndex ==> Event(w, k, delta, t1First, variate).load == LoadDecay(w.load, delta)
    ensures k == LoadIndex ==> Event(w, k, delta, t1First, variate).load == Advance(w.load)
  {
    var f := Fire(w, k, variate);
    DecayKeepsUps(f, k, delta, t1First, variate);
    FireFlipsOne(w, k, variate);
  }

  /** Firing flips the up state of the fired two-state component and of no
      other; firing the load flips none. */
  lemma FireFlipsOne(w: World, k: nat, variate: nat -> real)
    requires w.Valid() && k < Components
    ensures forall j :: 0 <= j < LoadIndex ==> Fire(w, k, variate).Ups()[j] == (w.Ups()[j] != (j == k))
  {
    var f := Fire(w, k, variate);
    assert f.g1.up == (w.g1.up != (k == 0));
    assert f.g2.up == (w.g2.up != (k == 1));
    assert f.g3.up == (w.g3.up != (k == 2));
    assert f.weather.up == (w.weather.up != (k == 3));
    assert f.t1.up == (w.t1.up != (k == 4));
    assert f.t2.up == (w.t2.up != (k == 5));
    FlipsOnly(w, f, k);
  }

  /** A world whose two-state components differ from w's exactly at k differs
      from it exactly at k in its up flags. */
  lemma FlipsOnly(w: World, f: World, k: nat)
    requires f.g1.up == (w.g1.up != (k == 0)) && f.g2.up == (w.g2.up != (k == 1))
    requires f.g3.up == (w.g3.up != (k == 2)) && f.weather.up == (w.weather.up != (k == 3))
    requires f.t1.up == (w.t1.up != (k == 4)) && f.t2.up == (w.t2.up != (k == 5))
    ensures forall j :: 0 <= j < LoadIndex ==> f.Ups()[j] == (w.Ups()[j] != (j == k))
  {
    forall j | 0 <= j < LoadIndex
      ensures f.Ups()[j] == (w.Ups()[j] != (j == k))
    {
      UpAt(f, j);
      UpAt(w, j);
    }
  }

  /** The j-th up flag names the j-th two-state component. */
  lemma UpAt(w: World, j: nat)
    requires j < LoadIndex
    ensures w.Ups()[j] ==
      if j == 0 then w.g1.up else if j == 1 then w.g2.up else if j == 2 then w.g3.up
      else if j == 3 then w.weather.up else if j == 4 then w.t1.up else w.t2.up
  {
  }

  /** Decay changes no component's up/down state. */
  lemma DecayKeepsUps(w: World, k: nat, delta: real, t1First: bool, variate: nat -> real)
    requires w.Valid()
    ensures DecayOthers(w, k, delta, t1First, variate).Ups() == w.Ups()
    ensures k != LoadIndex ==> DecayOthers(w, k, delta, t1First, variate).load == LoadDecay(w.load, delta)
    ensures k == LoadIndex ==> DecayOthers(w, k, delta, t1First, variate).load == w.load
  {
  }

  /** From a synced state, an event takes one draw per resample: the fired
      component's, and one for each line when the weather changed; the load
      draws nothing. */
  lemma {:induction false} EventDrawCount(w: World, k: nat, delta: real, t1First: bool, variate: nat -> real)
    requires w.Valid() && w.Synced() && k < Components
    ensures Event(w, k, delta, t1First, variate).draws == w.draws + EventDraws(k)
  {
  }

  /** After a continuing event both lines are synced with the weather again: a
      weather change is caught up by the lines' reads during the decay. */
  lemma {:induction false} EventSyncsLines(w: World, k: nat, delta: real, t1First: bool, variate: nat -> real)
    requires w.Valid() && w.Synced() && k < Components
    ensures Event(w, k, delta, t1First, variate).Synced()
  {
  }

  /** When the event belongs to a component of least time to change, no time
      to change is negative afterwards: the fired component samples a positive
      sojourn, two-state components clamp at zero, and the load's unclamped
      time is at least delta. */
  lemma {:induction false} EventKeepsNonNeg(w: World, k: nat, delta: real, t1First: bool, variate: nat -> real)
    requires w.Valid() && IsMinimum(w.Ttcs(), k) && delta == w.Ttcs()[k]
    requires forall n: nat :: variate(n) > 0.0
    ensures Event(w, k, delta, t1First, variate).NonNeg()
  {
    var r := Event(w, k, delta, t1First, variate);
    var f := Fire(w, k, variate);
    assert variate(w.draws) > 0.0;
    assert k != LoadIndex ==> w.load.ttc >= delta by {
      assert w.Ttcs()[LoadIndex] == w.load.ttc;
    }
  }

  /** A least time to change is never negative when none is. */
  lemma MinimumOfNonNeg(w: World, k: nat)
    requires w.NonNeg() && IsMinimum(w.Ttcs(), k)
    ensures w.Ttcs()[k] >= 0.0
  {
  }
}
