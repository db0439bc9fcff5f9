// Whether the load is served, montecarlo.py:67-99. Generators 1 and 2 reach
// the load through the transmission lines, so their output is capped by the
// line capacity; generator 3 feeds the load directly.
module Capacity {
  import opened DailyLoad

  /** Output of one generator that is up. */
  const GeneratorOutput: int := 75
  /** Transfer capacity of one transmission line that is up. */
  const LineCapacity: int := 100

  /** The number of components that are up. */
  function CountUp(s: seq<bool>): nat
  {
    if s == [] then 0 else CountUp(s[..|s| - 1]) + (if s[|s| - 1] then 1 else 0)
  }

  function Min(a: int, b: int): int
  {
    if a <= b then a else b
  }

  /** The capacity that reaches the load: min(75 * #up(G1, G2), 100 * #up(lines))
      plus 75 if G3 is up. */
  function Available(generators: seq<bool>, lines: seq<bool>): int
    requires |generators| >= 3
  {
    Min(GeneratorOutput * CountUp(generators[..2]), LineCapacity * CountUp(lines))
      + (if generators[2] then GeneratorOutput else 0)
  }

  /** The source's accumulator loops; the load is served exactly when the
      available capacity covers the demand. */
  method LoadServed(generators: seq<bool>, lines: seq<bool>, load: int) returns (served: bool)
    requires |generators| >= 3
    ensures served <==> Available(generators, lines) >= load
  {
    var generationG1G2 := 0;
    var i := 0;
    while i < 2
      invariant 0 <= i <= 2
      invariant generationG1G2 == GeneratorOutput * CountUp(generators[..i])
    {
      assert generators[..i + 1][..i] == generators[..i];
      if generators[i] {
        generationG1G2 := generationG1G2 + GeneratorOutput;
      }
      i := i + 1;
    }
    var transmission := 0;
    var j := 0;
    while j < |lines|
      invariant 0 <= j <= |lines|
      invariant transmission == LineCapacity * CountUp(lines[..j])
    {
      assert lines[..j + 1][..j] == lines[..j];
      if lines[j] {
        transmission := transmission + LineCapacity;
      }
      j := j + 1;
    }
    assert lines[..|lines|] == lines;
    var viaLines := Min(generationG1G2, transmission);
    var g3 := 0;
    if generators[2] {
      g3 := g3 + GeneratorOutput;
    }
    served := viaLines + g3 >= load;
  }

  /** Turning components up never lowers the count of those that are up. */
  lemma {:induction false} CountUpMonotone(s: seq<bool>, t: seq<bool>)
    requires |s| == |t|
    requires forall i :: 0 <= i < |s| ==> s[i] ==> t[i]
    ensures CountUp(s) <= CountUp(t)
    decreases |s|
  {
    if s != [] {
      var n := |s| - 1;
      CountUpMonotone(s[..n], t[..n]);
    }
  }

  /** Availability is monotone: a configuration with every component of another
      up, and possibly more, has at least as much capacity. */
  lemma AvailableMonotone(generators: seq<bool>, lines: seq<bool>, generators': seq<bool>, lines': seq<bool>)
    requires |generators| >= 3 && |generators'| == |generators| && |lines'| == |lines|
    requires forall i :: 0 <= i < |generators| ==> generators[i] ==> generators'[i]
    requires forall i :: 0 <= i < |lines| ==> lines[i] ==> lines'[i]
    ensures Available(generators, lines) <= Available(generators', lines')
  {
    CountUpMonotone(generators[..2], generators'[..2]);
    CountUpMonotone(lines, lines');
  }

  /** Bringing one generator or one line up never turns a served load into an unserved one. */
  lemma RepairKeepsServed(generators: seq<bool>, lines: seq<bool>, g: nat, l: nat, load: int)
    requires |generators| >= 3 && g < |generators| && l < |lines|
    requires Available(generators, lines) >= load
    ensures Available(generators[g := true], lines) >= load
    ensures Available(generators, lines[l := true]) >= load
  {
    AvailableMonotone(generators, lines, generators[g := true], lines);
    AvailableMonotone(generators, lines, generators, lines[l := true]);
  }

  lemma CountUpTwo(s: seq<bool>)
    requires |s| == 2
    ensures CountUp(s) == (if s[0] then 1 else 0) + (if s[1] then 1 else 0)
  {
    var first := s[..1];
    assert s[..|s| - 1] == first && first[|first| - 1] == s[0];
    assert first[..0] == [];
    assert CountUp(first) == (if s[0] then 1 else 0);
  }

  /** With three generators and two lines, the peak demand of 205 is served
      exactly when all five components are up. */
  lemma {:induction false} PeakServedIffAllUp(generators: seq<bool>, lines: seq<bool>)
    requires |generators| == 3 && |lines| == 2
    ensures Available(generators, lines) >= 205 <==>
      generators[0] && generators[1] && generators[2] && lines[0] && lines[1]
  {
    CountUpTwo(generators[..2]);
    CountUpTwo(lines);
  }

  /** With every component up, every demand level of the daily curve is served. */
  lemma {:induction false} AllUpServesEveryLevel(generators: seq<bool>, lines: seq<bool>)
    requires |generators| == 3 && |lines| == 2
    requires forall i :: 0 <= i < 3 ==> generators[i]
    requires lines[0] && lines[1]
    ensures Available(generators, lines) == 225
    ensures forall i :: 0 <= i < |LoadLevels| ==> Available(generators, lines) >= LoadLevels[i]
  {
    CountUpTwo(generators[..2]);
    CountUpTwo(lines);
  }

  /** One line down and only one of G1, G2 up: 75 + 75 = 150 falls short of the peak. */
  lemma {:induction false} OneLineOneGeneratorMissesPeak(generators: seq<bool>, lines: seq<bool>)
    requires |generators| == 3 && |lines| == 2
    requires generators[0] != generators[1] && !lines[0]
    ensures Available(generators, lines) <= 150 < LoadLevels[2]
  {
    CountUpTwo(generators[..2]);
    CountUpTwo(lines);
  }
}
