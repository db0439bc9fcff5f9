# Monte Carlo reliability simulation of a small power system, in Dafny

`montecarlo.py` estimates the loss-of-load statistics of a small power system by
next-event simulation. The system has:

- three generators;
- a two-state weather process;
- two transmission lines whose failure rate depends on the weather;
- a deterministic daily load curve.

Each event does the following:

1. Picks a component with the least time to change.
2. Charges the elapsed time to the unserved time if the load was unserved.
3. Fires that component.
4. Closes the simulated year when the year clock is already past 8760 hours.
5. Lets the time pass for every other component.
6. Recomputes whether the load is served.

The loop stops when more than 50 years have closed and the coefficient of
variation is at most 5 %, or after 999,999 events.

The model has one module per part of the program:

- `Sampling`: the shared random stream. It hands out the unit-exponential
  variates `-ln(u)` in draw order and counts the draws. A sojourn is the variate
  divided by the hourly rate.
- `TwoStates`: the `TwoState` class (generators, weather) and the `Line` class.
  Each class has a value snapshot (`Unit`, `LineUnit`), and every method states
  its new snapshot as a pure function of the old one. Among them is the line's
  time-to-change getter, which resamples on read.
- `DailyLoad`: the `Load` class and the cyclic load table: five levels, their
  dwell times, and the day as one full cycle.
- `Capacity`: `load_served`, as the accumulator loops of the source proved
  against the capacity formula.
- `Statistics`: sums, means, running means, the population variance, and a
  coefficient-of-variation test without a square root.
- `Bookkeeping`: the loop's accumulators as a `Tally` value. The functions
  `Account` (charge an event) and `Tick` (close the year or advance the clock)
  describe one event, and `Balanced` is the invariant they keep.
- `Events`: the seven components as one `World` value. It defines firing a
  component, the decay of the others (including the draws the lines take when
  the weather changed), and the initial world.
- `Engine`: the class `Sim`, which holds the component objects and the
  accumulators. `Step` is one iteration of the loop in `main`. `Run` is the
  bounded loop; it proves that no delta is ever negative and that stopping
  early means the stopping rule held.

The source has two details that the model keeps exactly:

- **The year-boundary test comes first.** The test `time > 8760` is made before
  the event's delta is added. On a year-closing event the delta is charged to
  the unserved time of the closing year (if unserved), but it is added to no
  clock (`Bookkeeping.TickDropsClosingDelta`).
- **Lines decay through the getter.** When the weather changed on this event,
  each other line first resamples under the new weather and then loses delta
  from the fresh value. Each line takes one draw. The two lines draw in the
  order the sorted component list gives them. The model captures that order by
  the `t1First` result of `Step`, which is tied to the lines' times to change
  (`Events.LineOrder`).

## Model

Definitions that carry no contract of their own are stated through the rows of
the lemmas about them: `Capacity.Available` (montecarlo.py:67-99) through
`Capacity.LoadServed` and the capacity lemmas, `DailyLoad.Dwell`
(montecarlo.py:160-166) through `DailyLoad.DwellsPositive` and the cycle lemmas,
`Bookkeeping.Tick` (montecarlo.py:277-301) through `Bookkeeping.TickDropsClosingDelta`,
`TickConservesLoss` and `TickKeepsYearArrays`, `Events.Startup`
(montecarlo.py:197-225) through `Events.StartupReady` and `Engine.Sim.constructor`,
`Events.StartLine` (montecarlo.py:218-221) through `Engine.NewLines`,
`Statistics.CvWithin` (montecarlo.py:291-296) through
`Statistics.CvWithinMatchesRatio` and `Bookkeeping.BalancedCvMatchesRatio`,
`Bookkeeping.MeetsStoppingRule` (the test `year > 50` and CV at most 0.05,
montecarlo.py:296) through `Engine.Sim.Step`, `Engine.Sim.Run` and
`Bookkeeping.BalancedCvMatchesRatio`, and `Events.LineOrder` (the order the sort
at montecarlo.py:258 gives the two lines, which fixes which line draws first in
the decay loop at montecarlo.py:303-304) through `Engine.Sim.Select` and
`Engine.Sim.Step`.

| member | source | states |
|---|---|---|
| Sampling.Stream.constructor | montecarlo.py:188 | a new random state has consumed no draws and hands out positive variates |
| Sampling.Stream.Draw | montecarlo.py:47 | a draw consumes exactly one value of the stream, the next in order, and it is positive |
| Sampling.Sojourn | montecarlo.py:104-105 | a positive variate gives a positive sojourn time |
| Sampling.SojournTimesRate | montecarlo.py:104-105 | the sojourn times the rate is the variate, so it is the variate divided by the rate |
| Sampling.SojournMonotone | montecarlo.py:104-105 | a larger variate or a smaller rate never gives a shorter sojourn |
| TwoStates.Decayed | montecarlo.py:60-64 | the decayed time is the least value that is both non-negative and at least ttc - delta |
| TwoStates.Flip | montecarlo.py:51-54 | a flip negates the up state, keeps the rates, and samples the sojourn of the new state from the draw |
| TwoStates.Decay | montecarlo.py:56-64 | decay changes only the time to change, which stays non-negative and at least ttc - delta |
| TwoStates.LineUnit.FailureRate | montecarlo.py:126-131 | the effective failure rate is the normal-weather rate when the weather is up and the adverse-weather rate otherwise |
| TwoStates.LineFlip | montecarlo.py:51-54 | a line flip negates the up state, keeps the remembered weather, and samples under the current weather |
| TwoStates.LineRead | montecarlo.py:133-139 | a read leaves the line synced with the weather; it is unchanged when no draw is needed, and otherwise it resamples under the current weather |
| TwoStates.LineDecay | montecarlo.py:56-64 | a line's decay keeps its up state, syncs it with the weather, and leaves a non-negative time |
| TwoStates.SecondReadIsStable | montecarlo.py:133-139 | a second read with no weather change draws nothing and returns the same line |
| TwoStates.TwoState.constructor | montecarlo.py:14-23 | hourly rates are the yearly rates / 8760; the component starts up with a positive sojourn from one draw at the failure rate |
| TwoStates.TwoState.TimeToChange | montecarlo.py:40-49 | one draw, divided by the failure rate when up and by the repair rate when down |
| TwoStates.TwoState.ChangeStateUpdateTtc | montecarlo.py:51-54 | the state flips and the new sojourn uses exactly one draw (Flip of the old value) |
| TwoStates.TwoState.UpdateTtc | montecarlo.py:56-64 | the time to change decays with a clamp at zero (Decay of the old value) |
| TwoStates.Line.FailureRate | montecarlo.py:126-131 | the normal-weather rate exactly when the weather is up, else the adverse-weather rate |
| TwoStates.Line.constructor | montecarlo.py:112-124 | the line remembers the current weather, starts up, and samples one sojourn at the weather's failure rate |
| TwoStates.Line.TimeToChange | montecarlo.py:40-49 | one draw, divided by the weather-dependent failure rate when up and by the repair rate when down |
| TwoStates.Line.Ttc | montecarlo.py:133-139 | the getter draws once exactly when the weather differs from the remembered one, resamples then, and returns the stored, now synced, time |
| TwoStates.Line.ChangeStateUpdateTtc | montecarlo.py:51-54 | the line flips and resamples with one draw under the current weather |
| TwoStates.Line.UpdateTtc | montecarlo.py:56-64 | decay reads through the getter: it resamples after a weather change, then subtracts delta with a clamp at zero |
| DailyLoad.NextIndex | montecarlo.py:168-176 | the next level is (index + 1) mod 5 |
| DailyLoad.AfterIsModular | montecarlo.py:168-176 | n level changes from level i lead to level (i + n) mod 5 |
| DailyLoad.DwellsPositive | montecarlo.py:160-166 | every dwell time is positive, and the last one is 24 - 16 = 8 hours |
| DailyLoad.ElapsedFromMidnight | montecarlo.py:145-166 | from midnight, the dwell times add up to the table's start hours |
| DailyLoad.ElapsedFullDayFromMidnight | montecarlo.py:145-166 | the five dwell times sum to 24 hours |
| DailyLoad.DayIsOneCycle | montecarlo.py:145-178 | from any level, five changes take exactly 24 hours and return to that level |
| DailyLoad.ElapsedPeriodic | montecarlo.py:145-178 | the load schedule repeats with a period of one day |
| DailyLoad.Advance | montecarlo.py:168-178 | the next level is (index + 1) mod 5, and its time to change is that level's positive dwell time |
| DailyLoad.LoadDecay | montecarlo.py:180-181 | the load loses exactly delta from its time to change, with no clamp, and keeps its level |
| DailyLoad.LoadDecayCanGoNegative | montecarlo.py:180-181 | the load's time to change can become negative, unlike a two-state component's |
| DailyLoad.Load.TimeToChange | montecarlo.py:160-166 | the time to the next start hour (to hour 24 after the last level), always positive |
| DailyLoad.Load.constructor | montecarlo.py:150-154 | the load starts at level 0 with demand 60 and four hours to change |
| DailyLoad.Load.ChangeStateUpdateTtc | montecarlo.py:168-178 | the index advances mod 5, and the demand and the dwell follow the new index |
| DailyLoad.Load.UpdateTtc | montecarlo.py:180-181 | the time to change loses delta with no clamp |
| Capacity.LoadServed | montecarlo.py:67-99 | served exactly when min(75·#up(G1,G2), 100·#up(lines)) + 75·[G3 up] is at least the load |
| Capacity.CountUpMonotone | montecarlo.py:72-82 | turning components up never lowers the count of components that are up |
| Capacity.AvailableMonotone | montecarlo.py:67-99 | turning generators or lines up never lowers the available capacity |
| Capacity.RepairKeepsServed | montecarlo.py:67-99 | repairing one generator or line never turns served into unserved, for a fixed load |
| Capacity.PeakServedIffAllUp | montecarlo.py:67-99 | the peak demand 205 is served exactly when all three generators and both lines are up |
| Capacity.AllUpServesEveryLevel | montecarlo.py:148 | with everything up, every demand level of the load table is served |
| Capacity.OneLineOneGeneratorMissesPeak | montecarlo.py:72-98 | with T1 down and exactly one of G1, G2 up, at most 150 is available, short of the peak demand 205 |
| Statistics.RunningMeans | montecarlo.py:288-289 | the running averages have one entry per yearly value |
| Statistics.RunningMeansAt | montecarlo.py:288-289 | entry i of the running averages is the mean of the first i + 1 yearly values |
| Statistics.Variance | montecarlo.py:291 | the population variance is never negative |
| Statistics.SumNonNegative | montecarlo.py:285 | a sum of non-negative yearly durations is non-negative |
| Statistics.CvWithinMatchesRatio | montecarlo.py:291-296 | for a positive mean, the square-root-free test holds exactly when std / mean <= 0.05 |
| Bookkeeping.Account | montecarlo.py:263-271 | unserved time grows by delta only when the status at the event's start is unserved; the onset count grows only on a served-to-unserved change; the status becomes the previous status |
| Bookkeeping.AccountCountsOnsets | montecarlo.py:263-271 | the loss count equals the number of served-to-unserved transitions in the history of statuses |
| Bookkeeping.AccountBalanced | montecarlo.py:263-271 | charging an event of non-negative length keeps the accumulators balanced with the history and the charged time, and keeps every unserved duration non-negative |
| Bookkeeping.TickBalanced | montecarlo.py:277-301 | the year clock keeps the accumulators balanced, with no negative yearly duration |
| Bookkeeping.BalancedCvMatchesRatio | montecarlo.py:291-296 | on every balanced tally with a closed year the yearly mean is non-negative, and the stopping test holds exactly when the mean is positive and std / mean <= 0.05; a zero mean (NaN or infinity in the source) fails |
| Bookkeeping.TickKeepsYearArrays | montecarlo.py:285-289 | closing a year appends to both arrays in step: one entry per closed year, averages the running means |
| Bookkeeping.YearArraysAt | montecarlo.py:285-289 | both arrays have length year, and average i is the mean of the first i + 1 yearly losses |
| Bookkeeping.TickConservesLoss | montecarlo.py:285-286 | closing a year moves the current unserved time into the yearly array without losing any |
| Bookkeeping.TickDropsClosingDelta | montecarlo.py:277-301 | a clock past 8760 closes the year and resets the clock, and the closing delta reaches no clock; otherwise time grows by delta and the year stays |
| Bookkeeping.ServedIsNotTracked | montecarlo.py:306 | recomputing the served status does not disturb the accumulators' invariant |
| Events.StartupReady | montecarlo.py:197-225 | the initial components are valid, the lines are synced, no time is negative, and the first demand is served |
| Events.MinimumExists | montecarlo.py:258-259 | sorting always finds a component of least time to change |
| Events.ReferenceValid | montecarlo.py:191-212 | the rates of the original study are all positive |
| Events.Event | montecarlo.py:273-304 | a continuing event fires component k and then decays every other component; the result stays valid |
| Events.DecayOthers | montecarlo.py:303-304 | every component but k loses delta (two-state components through the clamp, lines through the getter, the load without a clamp); the result stays valid |
| Events.Fire | montecarlo.py:273-275 | firing a two-state component takes exactly one draw; advancing the load takes none |
| Events.DecayKeepsUps | montecarlo.py:303-304 | decaying the other components changes no up/down state; the load loses delta unless it fired |
| Events.FireFlipsOne | montecarlo.py:273-275 | firing component k flips the up state of k and of no other two-state component; firing the load flips none |
| Events.EventFlipsOnlyFired | montecarlo.py:273-304 | after an event exactly the fired component has changed its up state; the load advances if fired, else loses delta |
| Events.EventDrawCount | montecarlo.py:258-304 | from a synced state an event takes one draw for the fired component (none for the load) plus one per line when the weather fired |
| Events.EventSyncsLines | montecarlo.py:303-304 | after a continuing event both lines are synced with the weather again |
| Events.EventKeepsNonNeg | montecarlo.py:258-304 | an event of a least-ttc component leaves no time to change negative |
| Events.MinimumOfNonNeg | montecarlo.py:260-262 | with no negative time, the least time to change is not negative, so the error is never raised |
| Engine.NewUnits | montecarlo.py:197-206 | G1, G2, G3 and then the weather are built with one draw each, in that order, as distinct new up components with the startup values |
| Engine.NewLines | montecarlo.py:218-221 | T1 and then T2 are built on the shared weather with one draw each (the next draw for T1, the one after for T2), as distinct new up lines sampled at the fair-weather rate |
| Engine.Sim.constructor | montecarlo.py:188-255 | the components are built in list order with one draw each, and the accumulators start at zero with the status served |
| Engine.Sim.Select | montecarlo.py:258-260 | sorting reads every ttc without changing anything (lines synced); delta is a least ttc; the lines' sorted order follows their ttcs |
| Engine.Sim.Step | montecarlo.py:258-306 | one loop iteration: a least-ttc component; a negative delta is an error and changes nothing; the accumulators follow Account then Tick; it converges exactly when a year closes and the stopping rule holds, with nothing decayed; otherwise the world follows Event and the status is recomputed |
| Engine.Sim.Process | montecarlo.py:263-306 | the steps of an event once delta is known to be non-negative |
| Engine.Sim.Charge | montecarlo.py:263-271 | for a non-negative delta the accumulators follow Account and stay balanced |
| Engine.Sim.ChangeState | montecarlo.py:273-275 | the chosen component fires (Fire) |
| Engine.Sim.CloseOrAdvance | montecarlo.py:277-301 | the accumulators follow Tick, and the year closes exactly when the clock was past 8760 |
| Engine.Sim.UpdateOthers | montecarlo.py:303-304 | every component but the fired one decays (DecayOthers) |
| Engine.Sim.UpdateUnits | montecarlo.py:303-304 | the generators and the weather, except the fired one, decay with the clamp |
| Engine.Sim.UpdateLines | montecarlo.py:303-304 | the lines decay through the getter in their sorted order |
| Engine.Sim.UpdateLine | montecarlo.py:303-304 | one line decays unless it fired, and it draws only when resampling |
| Engine.Sim.Recompute | montecarlo.py:306 | the status is load_served of the current generators, lines and demand |
| Engine.Sim.Run | montecarlo.py:257-306 | at most 999,999 events; no delta is ever negative; stopping early means more than 50 years closed and the CV test held |
| Engine.Simulate | montecarlo.py:186-306 | `main` with the study's rates: the components built from one stream reach the loop synced and with no negative time, so the run never meets a negative delta and stops early only when the stopping rule holds |

## Left out

- The logarithm of the exponential sampling `-ln(u)/rho` is not modelled. The stream supplies the values `-ln(u_n)` as abstract positive reals, and only the division by the rate is modelled.
- The `numpy.random.RandomState` generator and `SEED` are not modelled. The draws form an arbitrary positive sequence, consumed in order.
- Sampling.Stream.constructor: `rand()` returns values in [0, 1), and a draw of exactly 0 makes the source's sojourn `-ln(0)/rho` infinite (a component that never changes again, with only a runtime warning). The model's variates are finite positive reals, so it excludes that draw.
- Floating point is not modelled: all times, rates and statistics are exact reals.
- Statistics.CvWithin: the test `std / mean <= 0.05` is decided exactly, without a square root. It compares the variance with `(0.05 · mean)²`, and `CvWithinMatchesRatio` ties the two forms together. When the mean is zero, numpy gives NaN or infinity, the comparison fails, and so does the model's test. A negative mean would make the source's ratio negative and its test pass while the model's fails; no reachable state has one, because only non-negative deltas are charged and `Bookkeeping.Balanced` keeps every yearly duration non-negative (`Bookkeeping.BalancedCvMatchesRatio`).
- `coeff_variation_array` is not kept. The source only appends to it and never reads it.
- Printing is not modelled: the final results, the ratios and the convergence message.
- matplotlib and scipy are not modelled: they are imported but not used by the loop.
- `__repr__` and the components' names are left out as cosmetic.
- The tie-break of Python's stable sort is not modelled. `Step` picks some component of least time to change, and when the two lines' times are equal either line may take the first draw.
- The parameter values in `main` are a `Config`, and `Events.Reference` holds the values of the study, which `Engine.Simulate` runs. All rates must be positive (`Config.Valid`). The source does not check this, and a zero rate would divide by zero.
- Line's `_failure_rate` attribute is not modelled. `TwoState.__init__` sets it from the weather-dependent rate divided by 8760 a second time, but the overriding getter hides it and nothing reads it.
- Engine.Sim.Run: after the converging event the lines may be unsynced, because the loop stops before the decay that would resync them. The contract says nothing about the lines after the loop.
- Engine.Sim.Step requires that the lines are synced at the start of the event. `Run` keeps this as an invariant, and the constructor establishes it (`Events.StartupReady`). Under this condition the reads made by the sort draw nothing.
