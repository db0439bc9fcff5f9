// Two-state stochastic components (generators, the weather process) and the
// weather-modulated transmission line, montecarlo.py:13-64 and :111-139.
// Each class has a value snapshot (Unit, LineUnit) and every method states its
// effect as a function of the old snapshot.
module TwoStates {
  import opened Sampling

  /** Yearly rates are converted to hourly ones by dividing by this. */
  const HoursPerYear: real := 8760.0

  /** The decayed time to change: ttc - delta, clamped at zero (montecarlo.py:60-64).
      It is the least value that is both non-negative and at least ttc - delta. */
  function Decayed(ttc: real, delta: real): (r: real)
    ensures r >= 0.0 && r >= ttc - delta
    ensures r == ttc - delta || r == 0.0
  {
    if ttc - delta < 0.0 then 0.0 else ttc - delta
  }

  /** The value of a two-state component: hourly rates, whether it is up, and
      the hours left until it changes state. */
  datatype Unit = Unit(failureRate: real, repairRate: real, up: bool, ttc: real)
  {
    predicate Valid()
    {
      failureRate > 0.0 && repairRate > 0.0
    }

    /** The rate of leaving the current state: failure when up, repair when down. */
    function Rate(): real
    {
      if up then failureRate else repairRate
    }
  }

  /** The component changes state and samples the sojourn in the new state from variate e. */
  function Flip(u: Unit, e: real): (r: Unit)
    requires u.Valid()
    ensures r.Valid() && r.up == !u.up
    ensures r.failureRate == u.failureRate && r.repairRate == u.repairRate
    ensures r.ttc == Sojourn(e, r.Rate())
    ensures e > 0.0 ==> r.ttc > 0.0
  {
    var flipped := u.(up := !u.up);
    flipped.(ttc := Sojourn(e, flipped.Rate()))
  }

  /** Time passes for a component that does not change state. */
  function Decay(u: Unit, delta: real): (r: Unit)
    ensures r.ttc >= 0.0 && r.ttc >= u.ttc - delta
    ensures r == u.(ttc := r.ttc)
  {
    u.(ttc := Decayed(u.ttc, delta))
  }

  /** The value of a transmission line: its failure rates in normal and adverse
      weather, its repair rate, whether it is up, the stored time to change, and
      the weather state under which that time was sampled. */
  datatype LineUnit = LineUnit(normalRate: real, adverseRate: real, repairRate: real,
                               up: bool, ttc: real, seenWeather: bool)
  {
    predicate Valid()
    {
      normalRate > 0.0 && adverseRate > 0.0 && repairRate > 0.0
    }

    /** The effective failure rate: normal-weather rate exactly when the weather is up. */
    function FailureRate(fair: bool): (r: real)
      ensures fair ==> r == normalRate
      ensures !fair ==> r == adverseRate
    {
      if fair then normalRate else adverseRate
    }

    /** The rate of leaving the current state under the given weather. */
    function Rate(fair: bool): real
    {
      if up then FailureRate(fair) else repairRate
    }
  }

  /** The line changes state and samples the sojourn in the new state under
      the current weather; the remembered weather is left as it was. */
  function LineFlip(l: LineUnit, fair: bool, e: real): (r: LineUnit)
    requires l.Valid()
    ensures r.Valid() && r.up == !l.up && r.seenWeather == l.seenWeather
    ensures r.ttc == Sojourn(e, r.Rate(fair))
    ensures e > 0.0 ==> r.ttc > 0.0
  {
    var flipped := l.(up := !l.up);
    flipped.(ttc := Sojourn(e, flipped.Rate(fair)))
  }

  /** Draws taken by one read of the time to change: one exactly when the
      weather differs from the one the stored time was sampled under. */
  function ReadDraws(l: LineUnit, fair: bool): nat
  {
    if l.seenWeather != fair then 1 else 0
  }

  /** The line after one read of its time to change: resampled from variate e
      under the current weather if the weather changed, otherwise untouched. */
  function LineRead(l: LineUnit, fair: bool, e: real): (r: LineUnit)
    requires l.Valid()
    ensures r.Valid() && r.up == l.up && r.seenWeather == fair
    ensures ReadDraws(l, fair) == 0 ==> r == l
    ensures ReadDraws(l, fair) == 1 ==> r.ttc == Sojourn(e, r.Rate(fair))
  {
    if l.seenWeather != fair then l.(ttc := Sojourn(e, l.Rate(fair)), seenWeather := fair) else l
  }

  /** Time passes for a line that does not change state. The decay reads the
      time to change through the getter, so it first resamples after a
      weather change and then loses delta from the fresh value. */
  function LineDecay(l: LineUnit, fair: bool, e: real, delta: real): (r: LineUnit)
    requires l.Valid()
    ensures r.Valid() && r.up == l.up && r.seenWeather == fair
    ensures r.ttc >= 0.0
  {
    var read := LineRead(l, fair, e);
    read.(ttc := Decayed(read.ttc, delta))
  }

  /** A second read under unchanged weather returns the same line and draws nothing. */
  lemma {:induction false} SecondReadIsStable(l: LineUnit, fair: bool, e1: real, e2: real)
    requires l.Valid()
    ensures ReadDraws(LineRead(l, fair, e1), fair) == 0
    ensures LineRead(LineRead(l, fair, e1), fair, e2) == LineRead(l, fair, e1)
  {
  }

  /** A component that is either up (state == true) or down, with an exponential
      sojourn time in each state. */
  class TwoState {
    const failureRate: real
    const repairRate: real
    const rng: Stream
    var state: bool
    var ttc: real

    ghost predicate Valid() {
      failureRate > 0.0 && repairRate > 0.0 && rng.Valid()
    }

    function Value(): Unit
      reads this
    {
      Unit(failureRate, repairRate, state, ttc)
    }

    /** A new component starts up and samples its first sojourn with one draw. */
    constructor (failurePerYear: real, repairPerYear: real, rng: Stream)
      requires failurePerYear > 0.0 && repairPerYear > 0.0 && rng.Valid()
      modifies rng
      ensures Valid() && this.rng == rng
      ensures failureRate == failurePerYear / HoursPerYear
      ensures repairRate == repairPerYear / HoursPerYear
      ensures state
      ensures rng.count == old(rng.count) + 1
      ensures ttc == Sojourn(rng.variate(old(rng.count)), failureRate) && ttc > 0.0
    {
      failureRate := failurePerYear / HoursPerYear;
      repairRate := repairPerYear / HoursPerYear;
      this.rng := rng;
      state := true;
      new;
      ttc := TimeToChange();
    }

    /** A fresh sojourn for the current state: failure rate when up, repair rate when down. */
    method TimeToChange() returns (t: real)
      requires Valid()
      modifies rng
      ensures rng.count == old(rng.count) + 1
      ensures t == Sojourn(rng.variate(old(rng.count)), Value().Rate())
      ensures t > 0.0
    {
      var e := rng.Draw();
      t := Sojourn(e, Value().Rate());
    }

    /** The component changes state and resamples its sojourn for the new state. */
    method ChangeStateUpdateTtc()
      requires Valid()
      modifies this`state, this`ttc, rng
      ensures Valid()
      ensures rng.count == old(rng.count) + 1
      ensures Value() == Flip(old(Value()), rng.variate(old(rng.count)))
    {
      state := !state;
      ttc := TimeToChange();
    }

    /** Time passes: the remaining sojourn shrinks by delta but never below zero. */
    method UpdateTtc(delta: real)
      modifies this`ttc
      ensures Value() == Decay(old(Value()), delta)
    {
      var t := ttc - delta;
      if t < 0.0 {
        t := 0.0;
      }
      ttc := t;
    }
  }

  /** A transmission line whose failure rate depends on a shared weather component.
      Reading its time to change resamples it once after every weather change. */
  class Line {
    const weather: TwoState
    const normalRate: real
    const adverseRate: real
    const repairRate: real
    const rng: Stream
    /** The weather state seen at the last read of the time to change. */
    var prevWeatherState: bool
    var state: bool
    /** The stored time to change (the attribute behind the property). */
    var storedTtc: real

    ghost predicate Valid() {
      normalRate > 0.0 && adverseRate > 0.0 && repairRate > 0.0 && rng.Valid()
    }

    function Value(): LineUnit
      reads this
    {
      LineUnit(normalRate, adverseRate, repairRate, state, storedTtc, prevWeatherState)
    }

    /** The stored sojourn was sampled under the current weather. */
    predicate Synced()
      reads this, weather
    {
      prevWeatherState == weather.state
    }

    /** The effective failure rate, chosen by the weather (true = normal weather). */
    function FailureRate(): (r: real)
      reads this, weather
      ensures weather.state ==> r == normalRate
      ensures !weather.state ==> r == adverseRate
    {
      Value().FailureRate(weather.state)
    }

    /** A new line starts up, remembers the current weather, and samples its
        first sojourn at the failure rate for that weather with one draw. */
    constructor (weather: TwoState, normalPerYear: real, adversePerYear: real, repairPerYear: real, rng: Stream)
      requires normalPerYear > 0.0 && adversePerYear > 0.0 && repairPerYear > 0.0 && rng.Valid()
      modifies rng
      ensures Valid() && this.weather == weather && this.rng == rng && Synced()
      ensures normalRate == normalPerYear / HoursPerYear
      ensures adverseRate == adversePerYear / HoursPerYear
      ensures repairRate == repairPerYear / HoursPerYear
      ensures state
      ensures rng.count == old(rng.count) + 1
      ensures storedTtc == Sojourn(rng.variate(old(rng.count)), FailureRate()) && storedTtc > 0.0
    {
      this.weather := weather;
      prevWeatherState := weather.state;
      normalRate := normalPerYear / HoursPerYear;
      adverseRate := adversePerYear / HoursPerYear;
      repairRate := repairPerYear / HoursPerYear;
      this.rng := rng;
      state := true;
      new;
      storedTtc := TimeToChange();
    }

    method TimeToChange() returns (t: real)
      requires Valid()
      modifies rng
      ensures rng.count == old(rng.count) + 1
      ensures t == Sojourn(rng.variate(old(rng.count)), Value().Rate(weather.state))
      ensures t > 0.0
    {
      var e := rng.Draw();
      t := Sojourn(e, Value().Rate(weather.state));
    }

    /** The time-to-change getter. If the weather changed since the last read,
        the sojourn is resampled with one draw under the new weather; otherwise
        the read draws nothing and changes nothing. */
    method Ttc() returns (t: real)
      requires Valid()
      modifies this`storedTtc, this`prevWeatherState, rng
      ensures Synced() && t == storedTtc
      ensures rng.count == old(rng.count) + ReadDraws(old(Value()), weather.state)
      ensures Value() == LineRead(old(Value()), weather.state, rng.variate(old(rng.count)))
    {
      if prevWeatherState != weather.state {
        storedTtc := TimeToChange();
        prevWeatherState := weather.state;
      }
      t := storedTtc;
    }

    /** The line changes state and resamples under the current weather. */
    method ChangeStateUpdateTtc()
      requires Valid()
      modifies this`state, this`storedTtc, rng
      ensures rng.count == old(rng.count) + 1
      ensures Value() == LineFlip(old(Value()), weather.state, rng.variate(old(rng.count)))
    {
      state := !state;
      storedTtc := TimeToChange();
    }

    /** Decay goes through the getter: after a weather change the line first
        resamples and then loses delta from the fresh value. */
    method UpdateTtc(delta: real)
      requires Valid()
      modifies this`storedTtc, this`prevWeatherState, rng
      ensures rng.count == old(rng.count) + ReadDraws(old(Value()), weather.state)
      ensures Value() == LineDecay(old(Value()), weather.state, rng.variate(old(rng.count)), delta)
    {
      var current := Ttc();
      var t := current - delta;
      if t < 0.0 {
        t := 0.0;
      }
      storedTtc := t;
    }
  }
}
