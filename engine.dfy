// The next-event simulation loop of `main`, montecarlo.py:186-306: three
// generators, a weather process, two weather-modulated lines and the daily
// load, all sharing one random stream. Each event takes a component with the
// least time to change, charges the elapsed time, fires that component,
// moves the year clock and lets time pass for every other component.
module Engine {
  import opened Sampling
  import opened TwoStates
  import opened DailyLoad
  import opened Capacity
  import opened Statistics
  import opened Bookkeeping
  import opened Events

  /** The loop runs for at most this many events. */
  const MaxIterations: nat := 999999

  /** How an event ends: the loop goes on, the stopping rule is met, or the
      least time to change was negative (the source raises an error). */
  datatype Outcome = Running | Converged | NegativeDelta

  /** The generators G1, G2, G3 and then the weather, built in the order of
      the component list with one draw each. */
  method NewUnits(cfg: Config, rng: Stream) returns (g1: TwoState, g2: TwoState, g3: TwoState, weather: TwoState)
    requires cfg.Valid() && rng.Valid()
    modifies rng
    ensures fresh(g1) && fresh(g2) && fresh(g3) && fresh(weather)
    ensures g1 != g2 && g1 != g3 && g2 != g3 && weather != g1 && weather != g2 && weather != g3
    ensures g1.rng == rng && g2.rng == rng && g3.rng == rng && weather.rng == rng
    ensures g1.Valid() && g2.Valid() && g3.Valid() && weather.Valid()
    ensures rng.count == old(rng.count) + 4
    ensures
      var expected := Startup(cfg, rng.variate, old(rng.count));
      g1.Value() == expected.g1 && g2.Value() == expected.g2 &&
      g3.Value() == expected.g3 && weather.Value() == expected.weather
  {
    ghost var expected := Startup(cfg, rng.variate, rng.count);
    g1 := new TwoState(cfg.generatorFailure, cfg.generatorRepair, rng);
    ghost var u1 := g1.Value();
    assert u1 == expected.g1;
    g2 := new TwoState(cfg.generatorFailure, cfg.generatorRepair, rng);
    ghost var u2 := g2.Value();
    assert u2 == expected.g2;
    g3 := new TwoState(cfg.generatorFailure, cfg.generatorRepair, rng);
    ghost var u3 := g3.Value();
    assert u3 == expected.g3;
    weather := new TwoState(cfg.weatherFailure, cfg.weatherRepair, rng);
    assert weather.Value() == expected.weather;
    assert g1.Value() == u1 && g2.Value() == u2 && g3.Value() == u3;
  }

  /** The lines T1 and T2, built after the weather with one draw each. */
  method NewLines(cfg: Config, weather: TwoState, rng: Stream) returns (t1: Line, t2: Line)
    requires cfg.Valid() && rng.Valid() && weather.state
    modifies rng
    ensures fresh(t1) && fresh(t2) && t1 != t2
    ensures t1.rng == rng && t2.rng == rng && t1.weather == weather && t2.weather == weather
    ensures t1.Valid() && t2.Valid()
    ensures rng.count == old(rng.count) + 2
    ensures t1.Value() == StartLine(cfg, rng.variate(old(rng.count)))
    ensures t2.Value() == StartLine(cfg, rng.variate(old(rng.count) + 1))
  {
    t1 := new Line(weather, cfg.lineFailureNormal, cfg.lineFailureAdverse, cfg.lineRepair, rng);
    ghost var l1 := t1.Value();
    t2 := new Line(weather, cfg.lineFailureNormal, cfg.lineFailureAdverse, cfg.lineRepair, rng);
    assert t1.Value() == l1;
  }

  class Sim {
    const rng: Stream
    const g1: TwoState
    const g2: TwoState
    const g3: TwoState
    const weather: TwoState
    const t1: Line
    const t2: Line
    const load: Load

    var time: real
    var totalTime: real
    var lossTime: real
    var lossCount: nat
    var served: bool
    var prevServed: bool
    var year: nat
    var yearly: seq<real>
    var averages: seq<real>

    /** The load-served status at the start of every event so far. */
    ghost var statuses: seq<bool>
    /** The total of all deltas charged as unserved time. */
    ghost var charged: real

    function Acc(): Tally
      reads this
    {
      Tally(time, totalTime, lossTime, lossCount, served, prevServed, year, yearly, averages)
    }

    /** The values of all components and the number of draws consumed. */
    function State(): World
      reads g1, g2, g3, weather, t1, t2, load, rng
    {
      World(g1.Value(), g2.Value(), g3.Value(), weather.Value(), t1.Value(), t2.Value(), load.Value(), rng.count)
    }

    ghost predicate Valid()
      reads this, load
    {
      Wired() && load.Valid() && Tracked()
    }

    /** The fixed topology: distinct components with valid rates, one shared
        stream, one weather process. It depends on constants only. */
    ghost predicate Wired()
    {
      g1 != g2 && g1 != g3 && g2 != g3 && weather != g1 && weather != g2 && weather != g3 && t1 != t2 &&
      g1.rng == rng && g2.rng == rng && g3.rng == rng && weather.rng == rng && t1.rng == rng && t2.rng == rng &&
      t1.weather == weather && t2.weather == weather &&
      g1.Valid() && g2.Valid() && g3.Valid() && weather.Valid() && t1.Valid() && t2.Valid()
    }

    /** The accumulators agree with the history of the run. */
    ghost predicate Tracked()
      reads this
    {
      Balanced(Acc(), statuses, charged)
    }

    /** Builds the components in the order of the source, so that G1, G2, G3,
        the weather, T1 and T2 take one draw each, and starts the clock. */
    constructor (cfg: Config, rng: Stream)
      requires cfg.Valid() && rng.Valid()
      modifies rng
      ensures Valid() && this.rng == rng && Acc() == Start
      ensures State() == Startup(cfg, rng.variate, old(rng.count))
      ensures fresh(g1) && fresh(g2) && fresh(g3) && fresh(weather) && fresh(t1) && fresh(t2) && fresh(load)
    {
      this.rng := rng;
      ghost var expected := Startup(cfg, rng.variate, rng.count);
      var gen1, gen2, gen3, w := NewUnits(cfg, rng);
      var line1, line2 := NewLines(cfg, w, rng);
      var d := new Load();
      g1, g2, g3, weather, t1, t2, load := gen1, gen2, gen3, w, line1, line2, d;
      time, totalTime, lossTime, lossCount := 0.0, 0.0, 0.0, 0;
      served, prevServed := true, true;
      year, yearly, averages := 0, [], [];
      statuses, charged := [], 0.0;
      new;
      assert State() == expected;
      assert YearArrays(Acc());
      assert lossCount == Onsets(statuses) && prevServed == LastServed(statuses);
      assert Sum(yearly) + lossTime == charged;
    }

    /** One event of the loop. The event belongs to a component with the
        least time to change, and a negative least time is an error. */
    method Step() returns (outcome: Outcome, k: nat, delta: real, t1First: bool)
      requires Valid() && State().Synced()
      modifies this, g1, g2, g3, weather, t1, t2, load, rng
      ensures Valid()
      ensures IsMinimum(old(State()).Ttcs(), k) && delta == old(State()).Ttcs()[k]
      ensures LineOrder(old(State()), t1First)
      ensures outcome == NegativeDelta <==> delta < 0.0
      ensures outcome == NegativeDelta ==> State() == old(State()) && Acc() == old(Acc())
      // the accumulators: charge, then close the year or advance the clock
      ensures outcome != NegativeDelta ==>
        var t := Tick(Account(old(Acc()), delta), delta);
        (outcome == Converged <==> old(time) > YearHours && MeetsStoppingRule(t)) &&
        Acc() == t.(served := served)
      // the loop stops after the component fired and before anything decays
      ensures outcome == Converged ==>
        served == old(served) && State() == Events.Fire(old(State()), k, rng.variate)
      // a continuing event fires the component, decays the others and
      // recomputes the status from the new states
      ensures outcome == Running ==>
        State() == Event(old(State()), k, delta, t1First, rng.variate) && (served <==> State().Served())
    {
      k, delta, t1First := Select();
      if delta < 0.0 {
        outcome := NegativeDelta;
        return;
      }
      outcome := Process(k, delta, t1First);
    }

    /** The event of component k, once delta is known not to be negative:
        charge the elapsed time, fire k, move the year clock, stop if the
        stopping rule is met, and otherwise decay the other components and
        recompute the load-served status. */
    method Process(k: nat, delta: real, t1First: bool) returns (outcome: Outcome)
      requires Valid() && k < Components && delta >= 0.0
      modifies this, g1, g2, g3, weather, t1, t2, load, rng
      ensures Valid() && outcome != NegativeDelta
      ensures
        var t := Tick(Account(old(Acc()), delta), delta);
        (outcome == Converged <==> old(time) > YearHours && MeetsStoppingRule(t)) &&
        Acc() == t.(served := served)
      ensures outcome == Converged ==>
        served == old(served) && State() == Events.Fire(old(State()), k, rng.variate)
      ensures outcome == Running ==>
        State() == Event(old(State()), k, delta, t1First, rng.variate) && (served <==> State().Served())
    {
      Charge(delta);
      ChangeState(k);
      ghost var fired := State();
      var closed := CloseOrAdvance(delta);
      if closed && year > MinYears && CvWithin(averages, yearly) {
        outcome := Converged;
        return;
      }
      UpdateOthers(k, delta, t1First);
      assert State() == DecayOthers(fired, k, delta, t1First, rng.variate);
      Recompute();
      outcome := Running;
    }

    /** The load-served status is recomputed from the present generators,
        lines and demand. */
    method Recompute()
      requires Tracked() && load.Valid()
      modifies this`served
      ensures Tracked() && Acc() == old(Acc()).(served := served)
      ensures served <==> State().Served()
    {
      var generators, lines := [g1.state, g2.state, g3.state], [t1.state, t2.state];
      ghost var now, before := State(), Acc();
      assert generators == now.Generators() && lines == now.Lines();
      served := LoadServed(generators, lines, load.state);
      assert Acc() == before.(served := served);
      ServedIsNotTracked(before, served, statuses, charged);
    }

    /** Sorting the component list reads every time to change; the lines are
        synced, so their getters neither draw nor change anything. */
    method Select() returns (k: nat, delta: real, t1First: bool)
      requires Wired() && State().Synced()
      modifies t1, t2, rng
      ensures State() == old(State())
      ensures IsMinimum(State().Ttcs(), k) && delta == State().Ttcs()[k]
      ensures LineOrder(State(), t1First)
    {
      var ttcT1 := t1.Ttc();
      var ttcT2 := t2.Ttc();
      var ttcs := [g1.ttc, g2.ttc, g3.ttc, weather.ttc, ttcT1, ttcT2, load.ttc];
      assert ttcs == State().Ttcs();
      MinimumExists(ttcs);
      k :| 0 <= k < |ttcs| && IsMinimum(ttcs, k);
      delta := ttcs[k];
      t1First :| (ttcT1 < ttcT2 ==> t1First) && (ttcT2 < ttcT1 ==> !t1First);
    }

    /** Charges the event to the unserved time and the onset counter. */
    method Charge(delta: real)
      requires Tracked() && delta >= 0.0
      modifies this`lossTime, this`lossCount, this`prevServed, this`statuses, this`charged
      ensures Tracked()
      ensures Acc() == Account(old(Acc()), delta)
    {
      ghost var t, h, c := Acc(), statuses, charged;
      if !served {
        lossTime := lossTime + delta;
        charged := charged + delta;
        if prevServed {
          lossCount := lossCount + 1;
        }
      }
      statuses := statuses + [served];
      prevServed := served;
      assert Acc() == Account(t, delta);
      AccountBalanced(t, delta, h, c);
    }

    /** The chosen component changes state (or the load advances). */
    method ChangeState(k: nat)
      requires Wired() && load.Valid() && k < Components
      modifies g1, g2, g3, weather, t1, t2, load, rng
      ensures load.Valid()
      ensures State() == Events.Fire(old(State()), k, rng.variate)
    {
      if k == 0 {
        g1.ChangeStateUpdateTtc();
      } else if k == 1 {
        g2.ChangeStateUpdateTtc();
      } else if k == 2 {
        g3.ChangeStateUpdateTtc();
      } else if k == 3 {
        weather.ChangeStateUpdateTtc();
      } else if k == 4 {
        t1.ChangeStateUpdateTtc();
      } else if k == 5 {
        t2.ChangeStateUpdateTtc();
      } else {
        load.ChangeStateUpdateTtc();
      }
    }

    /** Closes the year when the clock is already past it, else advances the clock. */
    method CloseOrAdvance(delta: real) returns (closed: bool)
      requires Tracked()
      modifies this`time, this`totalTime, this`lossTime, this`year, this`yearly, this`averages
      ensures Tracked()
      ensures closed == (old(time) > YearHours)
      ensures Acc() == Tick(old(Acc()), delta)
    {
      ghost var before := Acc();
      closed := time > YearHours;
      if closed {
        year := year + 1;
        totalTime := totalTime + time;
        time := 0.0;
        yearly := yearly + [lossTime];
        lossTime := 0.0;
        averages := averages + [Mean(yearly)];
        assert Acc() == Tick(before, delta);
      } else {
        time := time + delta;
        assert Acc() == Tick(before, delta);
      }
      TickBalanced(before, delta, statuses, charged);
    }

    /** Every component but the chosen one loses delta, in the order of the
        sorted list; only the relative order of the two lines can matter,
        since only their reads draw. */
    method UpdateOthers(k: nat, delta: real, t1First: bool)
      requires Wired() && load.Valid()
      modifies g1, g2, g3, weather, t1, t2, load, rng
      ensures load.Valid()
      ensures State() == DecayOthers(old(State()), k, delta, t1First, rng.variate)
    {
      UpdateUnits(k, delta);
      UpdateLines(k, delta, t1First);
      ghost var decayed := State();
      if k != LoadIndex {
        load.UpdateTtc(delta);
      }
      assert State() == DecayLoad(decayed, k, delta);
    }

    /** The generators and the weather, which never draw when they decay. */
    method UpdateUnits(k: nat, delta: real)
      requires Wired() && load.Valid()
      modifies g1, g2, g3, weather
      ensures State() == DecayUnits(old(State()), k, delta)
    {
      if k != 0 {
        g1.UpdateTtc(delta);
      }
      if k != 1 {
        g2.UpdateTtc(delta);
      }
      if k != 2 {
        g3.UpdateTtc(delta);
      }
      if k != 3 {
        weather.UpdateTtc(delta);
      }
    }

    /** The lines, each read through its getter first, in sorted order. */
    method UpdateLines(k: nat, delta: real, t1First: bool)
      requires Wired() && load.Valid()
      modifies t1, t2, rng
      ensures State() == DecayLines(old(State()), k, delta, t1First, rng.variate)
    {
      if t1First {
        UpdateLine(t1, k == 4, delta);
        UpdateLine(t2, k == 5, delta);
      } else {
        UpdateLine(t2, k == 5, delta);
        UpdateLine(t1, k == 4, delta);
      }
    }

    /** One line loses delta unless it is the component that fired. */
    method UpdateLine(l: Line, fired: bool, delta: real)
      requires Wired() && (l == t1 || l == t2)
      modifies l, rng
      ensures l.Value() == LineDecayUnless(fired, old(l.Value()), weather.state, rng.variate(old(rng.count)), delta)
      ensures rng.count == old(rng.count) + LineDrawsUnless(fired, old(l.Value()), weather.state)
    {
      if !fired {
        l.UpdateTtc(delta);
      }
    }

    /** The loop: events until the stopping rule is met or the iteration cap
        is reached. From the constructed state no delta is ever negative. */
    method Run() returns (outcome: Outcome, iterations: nat)
      requires Valid() && State().Synced() && State().NonNeg()
      modifies this, g1, g2, g3, weather, t1, t2, load, rng
      ensures Valid() && outcome != NegativeDelta && iterations <= MaxIterations
      ensures outcome == Converged ==> MeetsStoppingRule(Acc())
      ensures outcome == Running ==> iterations == MaxIterations
    {
      outcome := Running;
      iterations := 0;
      while iterations < MaxIterations
        invariant Valid() && State().Synced() && State().NonNeg() && iterations <= MaxIterations
        invariant outcome == Running
      {
        ghost var before := State();
        var k, delta, t1First;
        outcome, k, delta, t1First := Step();
        MinimumOfNonNeg(before, k);
        iterations := iterations + 1;
        if outcome == Converged {
          return;
        }
        EventSyncsLines(before, k, delta, t1First, rng.variate);
        EventKeepsNonNeg(before, k, delta, t1First, rng.variate);
      }
    }
  }

  /** The simulation of `main` with the rates of the original study: the
      components are built from one stream and the loop is run. It never meets
      a negative delta, and it stops early only when the stopping rule holds. */
  method Simulate(rng: Stream) returns (sim: Sim, outcome: Outcome, iterations: nat)
    requires rng.Valid()
    modifies rng
    ensures sim.rng == rng && sim.Valid()
    ensures outcome != NegativeDelta && iterations <= MaxIterations
    ensures outcome == Converged ==> MeetsStoppingRule(sim.Acc())
    ensures outcome == Running ==> iterations == MaxIterations
  {
    ReferenceValid();
    sim := new Sim(Reference, rng);
    StartupReady(Reference, rng.variate, old(rng.count));
    outcome, iterations := sim.Run();
  }
}
