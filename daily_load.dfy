// The deterministic daily load curve, montecarlo.py:143-181: five demand
// levels, each starting at a fixed hour of a 24-hour day, visited cyclically.
module DailyLoad {

  /** Start hour of each demand level. */
  const StartingTime: seq<int> := [0, 4, 8, 12, 16]
  /** Demand of each level, in the same units as generation capacity. */
  const LoadLevels: seq<int> := [60, 105, 205, 105, 60]
  /** Length of the cycle in hours; the last level lasts until the day wraps. */
  const DayHours: int := 24

  /** Hours spent at level i: the gap to the next start hour, or to the end of
      the day after the last level. */
  function Dwell(i: nat): int
    requires i < |StartingTime|
  {
    if i + 1 < |StartingTime| then StartingTime[i + 1] - StartingTime[i] else DayHours - StartingTime[i]
  }

  /** The level after i, wrapping to the first after the last. */
  function NextIndex(i: nat): (j: nat)
    requires i < |StartingTime|
    ensures j < |StartingTime|
    ensures j == (i + 1) % |StartingTime|
  {
    if i + 1 == |StartingTime| then 0 else i + 1
  }

  /** The level reached from i after n changes. */
  function After(i: nat, n: nat): (j: nat)
    requires i < |StartingTime|
    ensures j < |StartingTime|
    decreases n
  {
    if n == 0 then i else After(NextIndex(i), n - 1)
  }

  /** The hours spent at the n levels visited from level i on. */
  function Elapsed(i: nat, n: nat): int
    requires i < |StartingTime|
    decreases n
  {
    if n == 0 then 0 else Dwell(i) + Elapsed(NextIndex(i), n - 1)
  }

  /** Every level lasts a positive whole number of hours; the last lasts 24 - 16 = 8. */
  lemma DwellsPositive()
    ensures forall i :: 0 <= i < |StartingTime| ==> Dwell(i) > 0
    ensures Dwell(|StartingTime| - 1) == 8
  {
  }

  /** n changes from level i lead to level (i + n) mod 5. */
  lemma {:induction false} AfterIsModular(i: nat, n: nat)
    requires i < |StartingTime|
    ensures After(i, n) == (i + n) % |StartingTime|
    decreases n
  {
    if n > 0 {
      AfterIsModular(NextIndex(i), n - 1);
    }
  }

  /** Splitting a run of changes into two consecutive runs. */
  lemma {:induction false} ElapsedSplit(i: nat, a: nat, b: nat)
    requires i < |StartingTime|
    ensures Elapsed(i, a + b) == Elapsed(i, a) + Elapsed(After(i, a), b)
    decreases a
  {
    if a > 0 {
      ElapsedSplit(NextIndex(i), a - 1, b);
      assert a + b - 1 == (a - 1) + b;
    }
  }

  /** Starting at midnight, the k-th change happens at the k-th start hour:
      the dwell times reproduce the table of start hours. */
  lemma {:induction false} ElapsedFromMidnight(k: nat)
    requires k < |StartingTime|
    ensures Elapsed(0, k) == StartingTime[k]
  {
    ElapsedSplit(0, 0, k);
    if k > 0 {
      ElapsedFromMidnight(k - 1);
      ElapsedSplit(0, k - 1, 1);
      AfterIsModular(0, k - 1);
    }
  }

  /** From any level, five changes take exactly one day and return to that level. */
  lemma {:induction false} DayIsOneCycle(i: nat)
    requires i < |StartingTime|
    ensures Elapsed(i, |StartingTime|) == DayHours
    ensures After(i, |StartingTime|) == i
  {
    AfterIsModular(i, |StartingTime|);
    ElapsedSplit(0, i, |StartingTime| - i);
    ElapsedSplit(i, |StartingTime| - i, i);
    ElapsedSplit(0, |StartingTime|, 0);
    AfterIsModular(0, i);
    AfterIsModular(i, |StartingTime| - i);
    ElapsedFullDayFromMidnight();
    if i > 0 {
      ElapsedFromMidnight(i);
    }
  }

  lemma ElapsedFullDayFromMidnight()
    ensures Elapsed(0, |StartingTime|) == DayHours
  {
    ElapsedFromMidnight(|StartingTime| - 1);
    ElapsedSplit(0, |StartingTime| - 1, 1);
    AfterIsModular(0, |StartingTime| - 1);
  }

  /** The load schedule is periodic with a period of one day. */
  lemma {:induction false} ElapsedPeriodic(i: nat, n: nat)
    requires i < |StartingTime|
    ensures Elapsed(i, n + |StartingTime|) == DayHours + Elapsed(i, n)
  {
    ElapsedSplit(i, |StartingTime|, n);
    DayIsOneCycle(i);
  }

  /** The value of the load entity: the current level and the hours left at it. */
  datatype LoadUnit = LoadUnit(index: nat, ttc: real)
  {
    predicate Valid()
    {
      index < |StartingTime|
    }

    /** The current demand. */
    function Demand(): int
      requires Valid()
    {
      LoadLevels[index]
    }
  }

  /** The next level starts and lasts its full dwell time. */
  function Advance(l: LoadUnit): (r: LoadUnit)
    requires l.Valid()
    ensures r.Valid() && r.index == (l.index + 1) % |StartingTime|
    ensures r.ttc > 0.0 && r.ttc == Dwell(r.index) as real
  {
    DwellsPositive();
    var next := NextIndex(l.index);
    LoadUnit(next, Dwell(next) as real)
  }

  /** Time passes for the load: delta comes off its remaining dwell with no
      clamp, so a delta larger than the remaining dwell leaves it negative. */
  function LoadDecay(l: LoadUnit, delta: real): (r: LoadUnit)
    ensures r.index == l.index
    ensures r.ttc + delta == l.ttc
  {
    l.(ttc := l.ttc - delta)
  }

  /** Unlike a two-state component, the load's time to change can go below zero. */
  lemma LoadDecayCanGoNegative()
    ensures LoadDecay(LoadUnit(0, 4.0), 5.0).ttc < 0.0
  {
  }

  /** The load entity: the current level and its remaining dwell time. */
  class Load {
    var index: nat
    /** The current demand. */
    var state: int
    var ttc: real

    predicate Valid()
      reads this
    {
      index < |StartingTime| && state == LoadLevels[index]
    }

    function Value(): LoadUnit
      reads this
    {
      LoadUnit(index, ttc)
    }

    /** The time from the current level's start to the next level's start. */
    function TimeToChange(): (t: real)
      reads this
      requires Valid()
      ensures t > 0.0
    {
      DwellsPositive();
      Dwell(index) as real
    }

    /** The day starts at midnight at the first level, which lasts four hours. */
    constructor ()
      ensures Valid() && index == 0 && state == 60
      ensures ttc == TimeToChange() && ttc == 4.0
    {
      index := 0;
      state := LoadLevels[0];
      ttc := Dwell(0) as real;
    }

    /** The next level starts: index advances modulo five, demand and dwell follow it. */
    method ChangeStateUpdateTtc()
      requires Valid()
      modifies this
      ensures Valid()
      ensures Value() == Advance(old(Value()))
    {
      var next := index + 1;
      if next == |StartingTime| {
        next := 0;
      }
      index := next;
      state := LoadLevels[index];
      ttc := TimeToChange();
    }

    /** Time passes: unlike the two-state components, no clamp at zero. */
    method UpdateTtc(delta: real)
      modifies this`ttc
      ensures Value() == LoadDecay(old(Value()), delta)
    {
      ttc := ttc - delta;
    }
  }
}
