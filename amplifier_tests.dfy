/**
 * The amplifier tests of `src/bin/day7.rs`: three programs wired in
 * series and one in a feedback loop. Each program's behaviour is proved
 * for every phase setting and input signal, then instantiated at the
 * tests' phase settings.
 */
module AmplifierTests {
  import opened SmallIntcode
  import opened Amplifiers

  const SERIES_ONE: seq<int> :=
    [3, 15, 3, 16, 1002, 16, 10, 16] +
    [1, 16, 15, 15, 4, 15, 99, 0] +
    [0]

  lemma {:induction false} SeriesOneLaunchFrom0(p: int, s: int, fuel: nat)
    requires fuel >= 6
    ensures Run(SERIES_ONE, 0, [p, s], fuel, [])
      == Run(SERIES_ONE[15 := p], 2, [s], fuel - 1, [])
  {
    RunGet(SERIES_ONE, 0, [p, s], fuel, [], 15, p, [s], 2, fuel - 1);
  }

  lemma {:induction false} SeriesOneLaunchFrom1(p: int, s: int, fuel: nat)
    requires fuel >= 6
    ensures Run(SERIES_ONE[15 := p], 2, [s], fuel - 1, [])
      == Run(SERIES_ONE[15 := p][16 := s], 4, [], fuel - 2, [])
  {
    RunGet(SERIES_ONE[15 := p], 2, [s], fuel - 1, [], 16, s, [], 4, fuel - 2);
  }

  lemma {:induction false} SeriesOneLaunchFrom2(p: int, s: int, fuel: nat)
    requires fuel >= 6
    ensures Run(SERIES_ONE[15 := p][16 := s], 4, [], fuel - 2, [])
      == Run(SERIES_ONE[15 := p][16 := s][16 := s * 10], 8, [], fuel - 3, [])
  {
    RunTernary(SERIES_ONE[15 := p][16 := s], 4, [], fuel - 2, [], 16, s * 10, 8, fuel - 3);
  }

  lemma {:induction false} SeriesOneLaunchFrom3(p: int, s: int, fuel: nat)
    requires fuel >= 6
    ensures Run(SERIES_ONE[15 := p][16 := s][16 := s * 10], 8, [], fuel - 3, [])
      == Run(SERIES_ONE[15 := p][16 := s][16 := s * 10][15 := s * 10 + p], 12, [], fuel - 4, [])
  {
    RunTernary(SERIES_ONE[15 := p][16 := s][16 := s * 10], 8, [], fuel - 3, [], 15, s * 10 + p, 12, fuel - 4);
  }

  lemma {:induction false} SeriesOneLaunchFrom4(p: int, s: int, fuel: nat)
    requires fuel >= 6
    ensures Run(SERIES_ONE[15 := p][16 := s][16 := s * 10][15 := s * 10 + p], 12, [], fuel - 4, [])
      == Run(SERIES_ONE[15 := p][16 := s][16 := s * 10][15 := s * 10 + p], 14, [], fuel - 5, [s * 10 + p])
  {
    var none: seq<int> := [];
    RunPut(SERIES_ONE[15 := p][16 := s][16 := s * 10][15 := s * 10 + p], 12, [], fuel - 4, [], s * 10 + p, 14, fuel - 5);
    assert none + [s * 10 + p] == [s * 10 + p];
  }

  lemma {:induction false} SeriesOneLaunchFrom5(p: int, s: int, fuel: nat)
    requires fuel >= 6
    ensures Run(SERIES_ONE[15 := p][16 := s][16 := s * 10][15 := s * 10 + p], 14, [], fuel - 5, [s * 10 + p])
      == Outcome(Halted, SERIES_ONE[15 := p][16 := s][16 := s * 10][15 := s * 10 + p], 14, [], [s * 10 + p], fuel - 5)
  {
    RunHalt(SERIES_ONE[15 := p][16 := s][16 := s * 10][15 := s * 10 + p], 14, [], fuel - 5, [s * 10 + p]);
  }

  /** The first amplifier test program outputs ten times its signal plus its phase setting. */
  lemma {:induction false} SeriesOneLaunch(p: int, s: int, fuel: nat)
    requires fuel >= 6
    ensures Launch(SERIES_ONE, p, s, fuel) == Got((Amp(SERIES_ONE[15 := p][16 := s][16 := s * 10][15 := s * 10 + p], 14), s * 10 + p))
  {
    SeriesOneLaunchFrom0(p, s, fuel); SeriesOneLaunchFrom1(p, s, fuel); SeriesOneLaunchFrom2(p, s, fuel); SeriesOneLaunchFrom3(p, s, fuel); SeriesOneLaunchFrom4(p, s, fuel); SeriesOneLaunchFrom5(p, s, fuel);
  }

  const SERIES_TWO: seq<int> :=
    [3, 23, 3, 24, 1002, 24, 10, 24] +
    [1002, 23, -1, 23, 101, 5, 23, 23] +
    [1, 24, 23, 23, 4, 23, 99, 0] +
    [0]

  lemma {:induction false} SeriesTwoLaunchFrom0(p: int, s: int, fuel: nat)
    requires fuel >= 8
    ensures Run(SERIES_TWO, 0, [p, s], fuel, [])
      == Run(SERIES_TWO[23 := p], 2, [s], fuel - 1, [])
  {
    RunGet(SERIES_TWO, 0, [p, s], fuel, [], 23, p, [s], 2, fuel - 1);
  }

  lemma {:induction false} SeriesTwoLaunchFrom1(p: int, s: int, fuel: nat)
    requires fuel >= 8
    ensures Run(SERIES_TWO[23 := p], 2, [s], fuel - 1, [])
      == Run(SERIES_TWO[23 := p][24 := s], 4, [], fuel - 2, [])
  {
    RunGet(SERIES_TWO[23 := p], 2, [s], fuel - 1, [], 24, s, [], 4, fuel - 2);
  }

  lemma {:induction false} SeriesTwoLaunchFrom2(p: int, s: int, fuel: nat)
    requires fuel >= 8
    ensures Run(SERIES_TWO[23 := p][24 := s], 4, [], fuel - 2, [])
      == Run(SERIES_TWO[23 := p][24 := s][24 := s * 10], 8, [], fuel - 3, [])
  {
    RunTernary(SERIES_TWO[23 := p][24 := s], 4, [], fuel - 2, [], 24, s * 10, 8, fuel - 3);
  }

  lemma {:induction false} SeriesTwoLaunchFrom3(p: int, s: int, fuel: nat)
    requires fuel >= 8
    ensures Run(SERIES_TWO[23 := p][24 := s][24 := s * 10], 8, [], fuel - 3, [])
      == Run(SERIES_TWO[23 := p][24 := s][24 := s * 10][23 := p * -1], 12, [], fuel - 4, [])
  {
    RunTernary(SERIES_TWO[23 := p][24 := s][24 := s * 10], 8, [], fuel - 3, [], 23, p * -1, 12, fuel - 4);
  }

  lemma {:induction false} SeriesTwoLaunchFrom4(p: int, s: int, fuel: nat)
    requires fuel >= 8
    ensures Run(SERIES_TWO[23 := p][24 := s][24 := s * 10][23 := p * -1], 12, [], fuel - 4, [])
      == Run(SERIES_TWO[23 := p][24 := s][24 := s * 10][23 := p * -1][23 := 5 + p * -1], 16, [], fuel - 5, [])
  {
    RunTernary(SERIES_TWO[23 := p][24 := s][24 := s * 10][23 := p * -1], 12, [], fuel - 4, [], 23, 5 + p * -1, 16, fuel - 5);
  }

  lemma {:induction false} SeriesTwoLaunchFrom5(p: int, s: int, fuel: nat)
    requires fuel >= 8
    ensures Run(SERIES_TWO[23 := p][24 := s][24 := s * 10][23 := p * -1][23 := 5 + p * -1], 16, [], fuel - 5, [])
      == Run(SERIES_TWO[23 := p][24 := s][24 := s * 10][23 := p * -1][23 := 5 + p * -1][23 := s * 10 + (5 + p * -1)], 20, [], fuel - 6, [])
  {
    RunTernary(SERIES_TWO[23 := p][24 := s][24 := s * 10][23 := p * -1][23 := 5 + p * -1], 16, [], fuel - 5, [], 23, s * 10 + (5 + p * -1), 20, fuel - 6);
  }

  lemma {:induction false} SeriesTwoLaunchFrom6(p: int, s: int, fuel: nat)
    requires fuel >= 8
    ensures Run(SERIES_TWO[23 := p][24 := s][24 := s * 10][23 := p * -1][23 := 5 + p * -1][23 := s * 10 + (5 + p * -1)], 20, [], fuel - 6, [])
      == Run(SERIES_TWO[23 := p][24 := s][24 := s * 10][23 := p * -1][23 := 5 + p * -1][23 := s * 10 + (5 + p * -1)], 22, [], fuel - 7, [s * 10 + (5 + p * -1)])
  {
    var none: seq<int> := [];
    RunPut(SERIES_TWO[23 := p][24 := s][24 := s * 10][23 := p * -1][23 := 5 + p * -1][23 := s * 10 + (5 + p * -1)], 20, [], fuel - 6, [], s * 10 + (5 + p * -1), 22, fuel - 7);
    assert none + [s * 10 + (5 + p * -1)] == [s * 10 + (5 + p * -1)];
  }

  lemma {:induction false} SeriesTwoLaunchFrom7(p: int, s: int, fuel: nat)
    requires fuel >= 8
    ensures Run(SERIES_TWO[23 := p][24 := s][24 := s * 10][23 := p * -1][23 := 5 + p * -1][23 := s * 10 + (5 + p * -1)], 22, [], fuel - 7, [s * 10 + (5 + p * -1)])
      == Outcome(Halted, SERIES_TWO[23 := p][24 := s][24 := s * 10][23 := p * -1][23 := 5 + p * -1][23 := s * 10 + (5 + p * -1)], 22, [], [s * 10 + (5 + p * -1)], fuel - 7)
  {
    RunHalt(SERIES_TWO[23 := p][24 := s][24 := s * 10][23 := p * -1][23 := 5 + p * -1][23 := s * 10 + (5 + p * -1)], 22, [], fuel - 7, [s * 10 + (5 + p * -1)]);
  }

  /** The second amplifier test program outputs ten times its signal plus five minus its phase setting. */
  lemma {:induction false} SeriesTwoLaunch(p: int, s: int, fuel: nat)
    requires fuel >= 8
    ensures Launch(SERIES_TWO, p, s, fuel) == Got((Amp(SERIES_TWO[23 := p][24 := s][24 := s * 10][23 := p * -1][23 := 5 + p * -1][23 := s * 10 + (5 + p * -1)], 22), s * 10 + (5 + p * -1)))
  {
    SeriesTwoLaunchFrom0(p, s, fuel); SeriesTwoLaunchFrom1(p, s, fuel); SeriesTwoLaunchFrom2(p, s, fuel); SeriesTwoLaunchFrom3(p, s, fuel); SeriesTwoLaunchFrom4(p, s, fuel); SeriesTwoLaunchFrom5(p, s, fuel); SeriesTwoLaunchFrom6(p, s, fuel); SeriesTwoLaunchFrom7(p, s, fuel);
  }

  const SERIES_THREE: seq<int> :=
    [3, 31, 3, 32, 1002, 32, 10, 32] +
    [1001, 31, -2, 31, 1007, 31, 0, 33] +
    [1002, 33, 7, 33, 1, 33, 31, 31] +
    [1, 32, 31, 31, 4, 31, 99, 0] +
    [0, 0]

  lemma {:induction false} SeriesThreeLaunchFrom0(p: int, s: int, fuel: nat)
    requires fuel >= 10
    ensures Run(SERIES_THREE, 0, [p, s], fuel, [])
      == Run(SERIES_THREE[31 := p], 2, [s], fuel - 1, [])
  {
    RunGet(SERIES_THREE, 0, [p, s], fuel, [], 31, p, [s], 2, fuel - 1);
  }

  lemma {:induction false} SeriesThreeLaunchFrom1(p: int, s: int, fuel: nat)
    requires fuel >= 10
    ensures Run(SERIES_THREE[31 := p], 2, [s], fuel - 1, [])
      == Run(SERIES_THREE[31 := p][32 := s], 4, [], fuel - 2, [])
  {
    RunGet(SERIES_THREE[31 := p], 2, [s], fuel - 1, [], 32, s, [], 4, fuel - 2);
  }

  lemma {:induction false} SeriesThreeLaunchFrom2(p: int, s: int, fuel: nat)
    requires fuel >= 10
    ensures Run(SERIES_THREE[31 := p][32 := s], 4, [], fuel - 2, [])
      == Run(SERIES_THREE[31 := p][32 := s][32 := s * 10], 8, [], fuel - 3, [])
  {
    RunTernary(SERIES_THREE[31 := p][32 := s], 4, [], fuel - 2, [], 32, s * 10, 8, fuel - 3);
  }

  lemma {:induction false} SeriesThreeLaunchFrom3(p: int, s: int, fuel: nat)
    requires fuel >= 10
    ensures Run(SERIES_THREE[31 := p][32 := s][32 := s * 10], 8, [], fuel - 3, [])
      == Run(SERIES_THREE[31 := p][32 := s][32 := s * 10][31 := p + -2], 12, [], fuel - 4, [])
  {
    RunTernary(SERIES_THREE[31 := p][32 := s][32 := s * 10], 8, [], fuel - 3, [], 31, p + -2, 12, fuel - 4);
  }

  lemma {:induction false} SeriesThreeLaunchFrom4(p: int, s: int, fuel: nat)
    requires fuel >= 10
    ensures Run(SERIES_THREE[31 := p][32 := s][32 := s * 10][31 := p + -2], 12, [], fuel - 4, [])
      == Run(SERIES_THREE[31 := p][32 := s][32 := s * 10][31 := p + -2][33 := (if p + -2 < 0 then 1 else 0)], 16, [], fuel - 5, [])
  {
    RunTernary(SERIES_THREE[31 := p][32 := s][32 := s * 10][31 := p + -2], 12, [], fuel - 4, [], 33, (if p + -2 < 0 then 1 else 0), 16, fuel - 5);
  }

  lemma {:induction false} SeriesThreeLaunchFrom5(p: int, s: int, fuel: nat)
    requires fuel >= 10
    ensures Run(SERIES_THREE[31 := p][32 := s][32 := s * 10][31 := p + -2][33 := (if p + -2 < 0 then 1 else 0)], 16, [], fuel - 5, [])
      == Run(SERIES_THREE[31 := p][32 := s][32 := s * 10][31 := p + -2][33 := (if p + -2 < 0 then 1 else 0)][33 := (if p + -2 < 0 then 1 else 0) * 7], 20, [], fuel - 6, [])
  {
    RunTernary(SERIES_THREE[31 := p][32 := s][32 := s * 10][31 := p + -2][33 := (if p + -2 < 0 then 1 else 0)], 16, [], fuel - 5, [], 33, (if p + -2 < 0 then 1 else 0) * 7, 20, fuel - 6);
  }

  lemma {:induction false} SeriesThreeLaunchFrom6(p: int, s: int, fuel: nat)
    requires fuel >= 10
    ensures Run(SERIES_THREE[31 := p][32 := s][32 := s * 10][31 := p + -2][33 := (if p + -2 < 0 then 1 else 0)][33 := (if p + -2 < 0 then 1 else 0) * 7], 20, [], fuel - 6, [])
      == Run(SERIES_THREE[31 := p][32 := s][32 := s * 10][31 := p + -2][33 := (if p + -2 < 0 then 1 else 0)][33 := (if p + -2 < 0 then 1 else 0) * 7][31 := (if p + -2 < 0 then 1 else 0) * 7 + (p + -2)], 24, [], fuel - 7, [])
  {
    RunTernary(SERIES_THREE[31 := p][32 := s][32 := s * 10][31 := p + -2][33 := (if p + -2 < 0 then 1 else 0)][33 := (if p + -2 < 0 then 1 else 0) * 7], 20, [], fuel - 6, [], 31, (if p + -2 < 0 then 1 else 0) * 7 + (p + -2), 24, fuel - 7);
  }

  lemma {:induction false} SeriesThreeLaunchFrom7(p: int, s: int, fuel: nat)
    requires fuel >= 10
    ensures Run(SERIES_THREE[31 := p][32 := s][32 := s * 10][31 := p + -2][33 := (if p + -2 < 0 then 1 else 0)][33 := (if p + -2 < 0 then 1 else 0) * 7][31 := (if p + -2 < 0 then 1 else 0) * 7 + (p + -2)], 24, [], fuel - 7, [])
      == Run(SERIES_THREE[31 := p][32 := s][32 := s * 10][31 := p + -2][33 := (if p + -2 < 0 then 1 else 0)][33 := (if p + -2 < 0 then 1 else 0) * 7][31 := (if p + -2 < 0 then 1 else 0) * 7 + (p + -2)][31 := s * 10 + ((if p + -2 < 0 then 1 else 0) * 7 + (p + -2))], 28, [], fuel - 8, [])
  {
    RunTernary(SERIES_THREE[31 := p][32 := s][32 := s * 10][31 := p + -2][33 := (if p + -2 < 0 then 1 else 0)][33 := (if p + -2 < 0 then 1 else 0) * 7][31 := (if p + -2 < 0 then 1 else 0) * 7 + (p + -2)], 24, [], fuel - 7, [], 31, s * 10 + ((if p + -2 < 0 then 1 else 0) * 7 + (p + -2)), 28, fuel - 8);
  }

  lemma {:induction false} SeriesThreeLaunchFrom8(p: int, s: int, fuel: nat)
    requires fuel >= 10
    ensures Run(SERIES_THREE[31 := p][32 := s][32 := s * 10][31 := p + -2][33 := (if p + -2 < 0 then 1 else 0)][33 := (if p + -2 < 0 then 1 else 0) * 7][31 := (if p + -2 < 0 then 1 else 0) * 7 + (p + -2)][31 := s * 10 + ((if p + -2 < 0 then 1 else 0) * 7 + (p + -2))], 28, [], fuel - 8, [])
      == Run(SERIES_THREE[31 := p][32 := s][32 := s * 10][31 := p + -2][33 := (if p + -2 < 0 then 1 else 0)][33 := (if p + -2 < 0 then 1 else 0) * 7][31 := (if p + -2 < 0 then 1 else 0) * 7 + (p + -2)][31 := s * 10 + ((if p + -2 < 0 then 1 else 0) * 7 + (p + -2))], 30, [], fuel - 9, [s * 10 + ((if p + -2 < 0 then 1 else 0) * 7 + (p + -2))])
  {
    var none: seq<int> := [];
    RunPut(SERIES_THREE[31 := p][32 := s][32 := s * 10][31 := p + -2][33 := (if p + -2 < 0 then 1 else 0)][33 := (if p + -2 < 0 then 1 else 0) * 7][31 := (if p + -2 < 0 then 1 else 0) * 7 + (p + -2)][31 := s * 10 + ((if p + -2 < 0 then 1 else 0) * 7 + (p + -2))], 28, [], fuel - 8, [], s * 10 + ((if p + -2 < 0 then 1 else 0) * 7 + (p + -2)), 30, fuel - 9);
    assert none + [s * 10 + ((if p + -2 < 0 then 1 else 0) * 7 + (p + -2))] == [s * 10 + ((if p + -2 < 0 then 1 else 0) * 7 + (p + -2))];
  }

  lemma {:induction false} SeriesThreeLaunchFrom9(p: int, s: int, fuel: nat)
    requires fuel >= 10
    ensures Run(SERIES_THREE[31 := p][32 := s][32 := s * 10][31 := p + -2][33 := (if p + -2 < 0 then 1 else 0)][33 := (if p + -2 < 0 then 1 else 0) * 7][31 := (if p + -2 < 0 then 1 else 0) * 7 + (p + -2)][31 := s * 10 + ((if p + -2 < 0 then 1 else 0) * 7 + (p + -2))], 30, [], fuel - 9, [s * 10 + ((if p + -2 < 0 then 1 else 0) * 7 + (p + -2))])
      == Outcome(Halted, SERIES_THREE[31 := p][32 := s][32 := s * 10][31 := p + -2][33 := (if p + -2 < 0 then 1 else 0)][33 := (if p + -2 < 0 then 1 else 0) * 7][31 := (if p + -2 < 0 then 1 else 0) * 7 + (p + -2)][31 := s * 10 + ((if p + -2 < 0 then 1 else 0) * 7 + (p + -2))], 30, [], [s * 10 + ((if p + -2 < 0 then 1 else 0) * 7 + (p + -2))], fuel - 9)
  {
    RunHalt(SERIES_THREE[31 := p][32 := s][32 := s * 10][31 := p + -2][33 := (if p + -2 < 0 then 1 else 0)][33 := (if p + -2 < 0 then 1 else 0) * 7][31 := (if p + -2 < 0 then 1 else 0) * 7 + (p + -2)][31 := s * 10 + ((if p + -2 < 0 then 1 else 0) * 7 + (p + -2))], 30, [], fuel - 9, [s * 10 + ((if p + -2 < 0 then 1 else 0) * 7 + (p + -2))]);
  }

  /** The third amplifier test program outputs ten times its signal plus its phase setting minus 2, where phases 0 and 1 count as 5 and 6. */
  lemma {:induction false} SeriesThreeLaunch(p: int, s: int, fuel: nat)
    requires fuel >= 10
    ensures Launch(SERIES_THREE, p, s, fuel) == Got((Amp(SERIES_THREE[31 := p][32 := s][32 := s * 10][31 := p + -2][33 := (if p + -2 < 0 then 1 else 0)][33 := (if p + -2 < 0 then 1 else 0) * 7][31 := (if p + -2 < 0 then 1 else 0) * 7 + (p + -2)][31 := s * 10 + ((if p + -2 < 0 then 1 else 0) * 7 + (p + -2))], 30), s * 10 + ((if p + -2 < 0 then 1 else 0) * 7 + (p + -2))))
  {
    SeriesThreeLaunchFrom0(p, s, fuel); SeriesThreeLaunchFrom1(p, s, fuel); SeriesThreeLaunchFrom2(p, s, fuel); SeriesThreeLaunchFrom3(p, s, fuel); SeriesThreeLaunchFrom4(p, s, fuel); SeriesThreeLaunchFrom5(p, s, fuel); SeriesThreeLaunchFrom6(p, s, fuel); SeriesThreeLaunchFrom7(p, s, fuel); SeriesThreeLaunchFrom8(p, s, fuel); SeriesThreeLaunchFrom9(p, s, fuel);
  }

  const LOOP_ONE: seq<int> :=
    [3, 26, 1001, 26, -4, 26, 3, 27] +
    [1002, 27, 2, 27, 1, 27, 26, 27] +
    [4, 27, 1001, 28, -1, 28, 1005, 28] +
    [6, 99, 0, 0, 5]

  lemma {:induction false} LoopStartFrom0(p: int, s: int, fuel: nat)
    requires fuel >= 9
    ensures Run(LOOP_ONE, 0, [p, s], fuel, [])
      == Run(LOOP_ONE[26 := p], 2, [s], fuel - 1, [])
  {
    RunGet(LOOP_ONE, 0, [p, s], fuel, [], 26, p, [s], 2, fuel - 1);
  }

  lemma {:induction false} LoopStartFrom1(p: int, s: int, fuel: nat)
    requires fuel >= 9
    ensures Run(LOOP_ONE[26 := p], 2, [s], fuel - 1, [])
      == Run(LOOP_ONE[26 := p][26 := p + -4], 6, [s], fuel - 2, [])
  {
    RunTernary(LOOP_ONE[26 := p], 2, [s], fuel - 1, [], 26, p + -4, 6, fuel - 2);
  }

  lemma {:induction false} LoopStartFrom2(p: int, s: int, fuel: nat)
    requires fuel >= 9
    ensures Run(LOOP_ONE[26 := p][26 := p + -4], 6, [s], fuel - 2, [])
      == Run(LOOP_ONE[26 := p][26 := p + -4][27 := s], 8, [], fuel - 3, [])
  {
    RunGet(LOOP_ONE[26 := p][26 := p + -4], 6, [s], fuel - 2, [], 27, s, [], 8, fuel - 3);
  }

  lemma {:induction false} LoopStartFrom3(p: int, s: int, fuel: nat)
    requires fuel >= 9
    ensures Run(LOOP_ONE[26 := p][26 := p + -4][27 := s], 8, [], fuel - 3, [])
      == Run(LOOP_ONE[26 := p][26 := p + -4][27 := s][27 := s * 2], 12, [], fuel - 4, [])
  {
    RunTernary(LOOP_ONE[26 := p][26 := p + -4][27 := s], 8, [], fuel - 3, [], 27, s * 2, 12, fuel - 4);
  }

  lemma {:induction false} LoopStartFrom4(p: int, s: int, fuel: nat)
    requires fuel >= 9
    ensures Run(LOOP_ONE[26 := p][26 := p + -4][27 := s][27 := s * 2], 12, [], fuel - 4, [])
      == Run(LOOP_ONE[26 := p][26 := p + -4][27 := s][27 := s * 2][27 := s * 2 + (p + -4)], 16, [], fuel - 5, [])
  {
    RunTernary(LOOP_ONE[26 := p][26 := p + -4][27 := s][27 := s * 2], 12, [], fuel - 4, [], 27, s * 2 + (p + -4), 16, fuel - 5);
  }

  lemma {:induction false} LoopStartFrom5(p: int, s: int, fuel: nat)
    requires fuel >= 9
    ensures Run(LOOP_ONE[26 := p][26 := p + -4][27 := s][27 := s * 2][27 := s * 2 + (p + -4)], 16, [], fuel - 5, [])
      == Run(LOOP_ONE[26 := p][26 := p + -4][27 := s][27 := s * 2][27 := s * 2 + (p + -4)], 18, [], fuel - 6, [s * 2 + (p + -4)])
  {
    var none: seq<int> := [];
    RunPut(LOOP_ONE[26 := p][26 := p + -4][27 := s][27 := s * 2][27 := s * 2 + (p + -4)], 16, [], fuel - 5, [], s * 2 + (p + -4), 18, fuel - 6);
    assert none + [s * 2 + (p + -4)] == [s * 2 + (p + -4)];
  }

  lemma {:induction false} LoopStartFrom6(p: int, s: int, fuel: nat)
    requires fuel >= 9
    ensures Run(LOOP_ONE[26 := p][26 := p + -4][27 := s][27 := s * 2][27 := s * 2 + (p + -4)], 18, [], fuel - 6, [s * 2 + (p + -4)])
      == Run(LOOP_ONE[26 := p][26 := p + -4][27 := s][27 := s * 2][27 := s * 2 + (p + -4)][28 := 4], 22, [], fuel - 7, [s * 2 + (p + -4)])
  {
    RunTernary(LOOP_ONE[26 := p][26 := p + -4][27 := s][27 := s * 2][27 := s * 2 + (p + -4)], 18, [], fuel - 6, [s * 2 + (p + -4)], 28, 4, 22, fuel - 7);
  }

  lemma {:induction false} LoopStartFrom7(p: int, s: int, fuel: nat)
    requires fuel >= 9
    ensures Run(LOOP_ONE[26 := p][26 := p + -4][27 := s][27 := s * 2][27 := s * 2 + (p + -4)][28 := 4], 22, [], fuel - 7, [s * 2 + (p + -4)])
      == Run(LOOP_ONE[26 := p][26 := p + -4][27 := s][27 := s * 2][27 := s * 2 + (p + -4)][28 := 4], 6, [], fuel - 8, [s * 2 + (p + -4)])
  {
    RunJump(LOOP_ONE[26 := p][26 := p + -4][27 := s][27 := s * 2][27 := s * 2 + (p + -4)][28 := 4], 22, [], fuel - 7, [s * 2 + (p + -4)], 6, fuel - 8);
  }

  lemma {:induction false} LoopStartFrom8(p: int, s: int, fuel: nat)
    requires fuel >= 9
    ensures Run(LOOP_ONE[26 := p][26 := p + -4][27 := s][27 := s * 2][27 := s * 2 + (p + -4)][28 := 4], 6, [], fuel - 8, [s * 2 + (p + -4)])
      == Outcome(Starved, LOOP_ONE[26 := p][26 := p + -4][27 := s][27 := s * 2][27 := s * 2 + (p + -4)][28 := 4], 6, [], [s * 2 + (p + -4)], fuel - 8)
  {
    RunStarve(LOOP_ONE[26 := p][26 := p + -4][27 := s][27 := s * 2][27 := s * 2 + (p + -4)][28 := 4], 6, fuel - 8, [s * 2 + (p + -4)]);
  }

  lemma {:induction false} LoopPassFrom0(p: int, y: int, c: int, x: int, fuel: nat)
    requires fuel >= 7 && c != 1
    ensures Run(LoopMem(p, y, c), 6, [x], fuel, [])
      == Run(LoopMem(p, y, c)[27 := x], 8, [], fuel - 1, [])
  {
    RunGet(LoopMem(p, y, c), 6, [x], fuel, [], 27, x, [], 8, fuel - 1);
  }

  lemma {:induction false} LoopPassFrom1(p: int, y: int, c: int, x: int, fuel: nat)
    requires fuel >= 7 && c != 1
    ensures Run(LoopMem(p, y, c)[27 := x], 8, [], fuel - 1, [])
      == Run(LoopMem(p, y, c)[27 := x][27 := x * 2], 12, [], fuel - 2, [])
  {
    RunTernary(LoopMem(p, y, c)[27 := x], 8, [], fuel - 1, [], 27, x * 2, 12, fuel - 2);
  }

  lemma {:induction false} LoopPassFrom2(p: int, y: int, c: int, x: int, fuel: nat)
    requires fuel >= 7 && c != 1
    ensures Run(LoopMem(p, y, c)[27 := x][27 := x * 2], 12, [], fuel - 2, [])
      == Run(LoopMem(p, y, c)[27 := x][27 := x * 2][27 := x * 2 + (p + -4)], 16, [], fuel - 3, [])
  {
    RunTernary(LoopMem(p, y, c)[27 := x][27 := x * 2], 12, [], fuel - 2, [], 27, x * 2 + (p + -4), 16, fuel - 3);
  }

  lemma {:induction false} LoopPassFrom3(p: int, y: int, c: int, x: int, fuel: nat)
    requires fuel >= 7 && c != 1
    ensures Run(LoopMem(p, y, c)[27 := x][27 := x * 2][27 := x * 2 + (p + -4)], 16, [], fuel - 3, [])
      == Run(LoopMem(p, y, c)[27 := x][27 := x * 2][27 := x * 2 + (p + -4)], 18, [], fuel - 4, [x * 2 + (p + -4)])
  {
    var none: seq<int> := [];
    RunPut(LoopMem(p, y, c)[27 := x][27 := x * 2][27 := x * 2 + (p + -4)], 16, [], fuel - 3, [], x * 2 + (p + -4), 18, fuel - 4);
    assert none + [x * 2 + (p + -4)] == [x * 2 + (p + -4)];
  }

  lemma {:induction false} LoopPassFrom4(p: int, y: int, c: int, x: int, fuel: nat)
    requires fuel >= 7 && c != 1
    ensures Run(LoopMem(p, y, c)[27 := x][27 := x * 2][27 := x * 2 + (p + -4)], 18, [], fuel - 4, [x * 2 + (p + -4)])
      == Run(LoopMem(p, y, c)[27 := x][27 := x * 2][27 := x * 2 + (p + -4)][28 := c + -1], 22, [], fuel - 5, [x * 2 + (p + -4)])
  {
    RunTernary(LoopMem(p, y, c)[27 := x][27 := x * 2][27 := x * 2 + (p + -4)], 18, [], fuel - 4, [x * 2 + (p + -4)], 28, c + -1, 22, fuel - 5);
  }

  lemma {:induction false} LoopPassFrom5(p: int, y: int, c: int, x: int, fuel: nat)
    requires fuel >= 7 && c != 1
    ensures Run(LoopMem(p, y, c)[27 := x][27 := x * 2][27 := x * 2 + (p + -4)][28 := c + -1], 22, [], fuel - 5, [x * 2 + (p + -4)])
      == Run(LoopMem(p, y, c)[27 := x][27 := x * 2][27 := x * 2 + (p + -4)][28 := c + -1], 6, [], fuel - 6, [x * 2 + (p + -4)])
  {
    RunJump(LoopMem(p, y, c)[27 := x][27 := x * 2][27 := x * 2 + (p + -4)][28 := c + -1], 22, [], fuel - 5, [x * 2 + (p + -4)], 6, fuel - 6);
  }

  lemma {:induction false} LoopPassFrom6(p: int, y: int, c: int, x: int, fuel: nat)
    requires fuel >= 7 && c != 1
    ensures Run(LoopMem(p, y, c)[27 := x][27 := x * 2][27 := x * 2 + (p + -4)][28 := c + -1], 6, [], fuel - 6, [x * 2 + (p + -4)])
      == Outcome(Starved, LoopMem(p, y, c)[27 := x][27 := x * 2][27 := x * 2 + (p + -4)][28 := c + -1], 6, [], [x * 2 + (p + -4)], fuel - 6)
  {
    RunStarve(LoopMem(p, y, c)[27 := x][27 := x * 2][27 := x * 2 + (p + -4)][28 := c + -1], 6, fuel - 6, [x * 2 + (p + -4)]);
  }

  lemma {:induction false} LoopLastFrom0(p: int, y: int, c: int, x: int, fuel: nat)
    requires fuel >= 7 && c == 1
    ensures Run(LoopMem(p, y, c), 6, [x], fuel, [])
      == Run(LoopMem(p, y, c)[27 := x], 8, [], fuel - 1, [])
  {
    RunGet(LoopMem(p, y, c), 6, [x], fuel, [], 27, x, [], 8, fuel - 1);
  }

  lemma {:induction false} LoopLastFrom1(p: int, y: int, c: int, x: int, fuel: nat)
    requires fuel >= 7 && c == 1
    ensures Run(LoopMem(p, y, c)[27 := x], 8, [], fuel - 1, [])
      == Run(LoopMem(p, y, c)[27 := x][27 := x * 2], 12, [], fuel - 2, [])
  {
    RunTernary(LoopMem(p, y, c)[27 := x], 8, [], fuel - 1, [], 27, x * 2, 12, fuel - 2);
  }

  lemma {:induction false} LoopLastFrom2(p: int, y: int, c: int, x: int, fuel: nat)
    requires fuel >= 7 && c == 1
    ensures Run(LoopMem(p, y, c)[27 := x][27 := x * 2], 12, [], fuel - 2, [])
      == Run(LoopMem(p, y, c)[27 := x][27 := x * 2][27 := x * 2 + (p + -4)], 16, [], fuel - 3, [])
  {
    RunTernary(LoopMem(p, y, c)[27 := x][27 := x * 2], 12, [], fuel - 2, [], 27, x * 2 + (p + -4), 16, fuel - 3);
  }

  lemma {:induction false} LoopLastFrom3(p: int, y: int, c: int, x: int, fuel: nat)
    requires fuel >= 7 && c == 1
    ensures Run(LoopMem(p, y, c)[27 := x][27 := x * 2][27 := x * 2 + (p + -4)], 16, [], fuel - 3, [])
      == Run(LoopMem(p, y, c)[27 := x][27 := x * 2][27 := x * 2 + (p + -4)], 18, [], fuel - 4, [x * 2 + (p + -4)])
  {
    var none: seq<int> := [];
    RunPut(LoopMem(p, y, c)[27 := x][27 := x * 2][27 := x * 2 + (p + -4)], 16, [], fuel - 3, [], x * 2 + (p + -4), 18, fuel - 4);
    assert none + [x * 2 + (p + -4)] == [x * 2 + (p + -4)];
  }

  lemma {:induction false} LoopLastFrom4(p: int, y: int, c: int, x: int, fuel: nat)
    requires fuel >= 7 && c == 1
    ensures Run(LoopMem(p, y, c)[27 := x][27 := x * 2][27 := x * 2 + (p + -4)], 18, [], fuel - 4, [x * 2 + (p + -4)])
      == Run(LoopMem(p, y, c)[27 := x][27 := x * 2][27 := x * 2 + (p + -4)][28 := c + -1], 22, [], fuel - 5, [x * 2 + (p + -4)])
  {
    RunTernary(LoopMem(p, y, c)[27 := x][27 := x * 2][27 := x * 2 + (p + -4)], 18, [], fuel - 4, [x * 2 + (p + -4)], 28, c + -1, 22, fuel - 5);
  }

  lemma {:induction false} LoopLastFrom5(p: int, y: int, c: int, x: int, fuel: nat)
    requires fuel >= 7 && c == 1
    ensures Run(LoopMem(p, y, c)[27 := x][27 := x * 2][27 := x * 2 + (p + -4)][28 := c + -1], 22, [], fuel - 5, [x * 2 + (p + -4)])
      == Run(LoopMem(p, y, c)[27 := x][27 := x * 2][27 := x * 2 + (p + -4)][28 := c + -1], 25, [], fuel - 6, [x * 2 + (p + -4)])
  {
    RunJump(LoopMem(p, y, c)[27 := x][27 := x * 2][27 := x * 2 + (p + -4)][28 := c + -1], 22, [], fuel - 5, [x * 2 + (p + -4)], 25, fuel - 6);
  }

  lemma {:induction false} LoopLastFrom6(p: int, y: int, c: int, x: int, fuel: nat)
    requires fuel >= 7 && c == 1
    ensures Run(LoopMem(p, y, c)[27 := x][27 := x * 2][27 := x * 2 + (p + -4)][28 := c + -1], 25, [], fuel - 6, [x * 2 + (p + -4)])
      == Outcome(Halted, LoopMem(p, y, c)[27 := x][27 := x * 2][27 := x * 2 + (p + -4)][28 := c + -1], 25, [], [x * 2 + (p + -4)], fuel - 6)
  {
    RunHalt(LoopMem(p, y, c)[27 := x][27 := x * 2][27 := x * 2 + (p + -4)][28 := c + -1], 25, [], fuel - 6, [x * 2 + (p + -4)]);
  }

  /** The chain of the first program, from amplifier `i` on: every phase setting is appended as a decimal digit. */
  function Decimal(phases: seq<int>, i: nat, signal: int): int
    requires i <= |phases|
    decreases |phases| - i
  {
    if i == |phases| then signal else Decimal(phases, i + 1, signal * 10 + phases[i])
  }

  /** Any chain of the first program succeeds and writes its phase settings as the digits of the signal. */
  lemma {:induction false} SeriesOneChain(phases: seq<int>, i: nat, amps: seq<Amp>, signal: int, fuel: nat)
    requires i <= |phases| && fuel >= 6
    ensures Setup(SERIES_ONE, phases, i, amps, signal, fuel).Got?
    ensures Setup(SERIES_ONE, phases, i, amps, signal, fuel).value.signal == Decimal(phases, i, signal)
    decreases |phases| - i
  {
    if i < |phases| {
      var p := phases[i];
      SeriesOneLaunch(p, signal, fuel);
      SeriesOneChain(phases, i + 1, amps + [Amp(SERIES_ONE[15 := p][16 := signal][16 := signal * 10][15 := signal * 10 + p], 14)], signal * 10 + p, fuel);
    }
  }

  /** The first amplifier test: phase settings 4, 3, 2, 1, 0 give 43210. */
  lemma SeriesOneExample(fuel: nat)
    requires fuel >= 6
    ensures ChainSignal(SERIES_ONE, [4, 3, 2, 1, 0], fuel) == Got(43210)
  {
    SeriesOneChain([4, 3, 2, 1, 0], 0, [], 0, fuel);
  }

  /** The second amplifier test: phase settings 0, 1, 2, 3, 4 give 54321. */
  lemma SeriesTwoExample(fuel: nat)
    requires fuel >= 8
    ensures ChainSignal(SERIES_TWO, [0, 1, 2, 3, 4], fuel) == Got(54321)
  {
    var phases := [0, 1, 2, 3, 4];
    SeriesTwoLaunch(0, 0, fuel);
    SetupStep(SERIES_TWO, phases, 0, [], 0, fuel, Amp(SERIES_TWO[23 := 0][24 := 0][24 := 0 * 10][23 := 0 * -1][23 := 5 + 0 * -1][23 := 0 * 10 + (5 + 0 * -1)], 22), 5);
    SeriesTwoLaunch(1, 5, fuel);
    SetupStep(SERIES_TWO, phases, 1, [Amp(SERIES_TWO[23 := 0][24 := 0][24 := 0 * 10][23 := 0 * -1][23 := 5 + 0 * -1][23 := 0 * 10 + (5 + 0 * -1)], 22)], 5, fuel, Amp(SERIES_TWO[23 := 1][24 := 5][24 := 5 * 10][23 := 1 * -1][23 := 5 + 1 * -1][23 := 5 * 10 + (5 + 1 * -1)], 22), 54);
    SeriesTwoLaunch(2, 54, fuel);
    SetupStep(SERIES_TWO, phases, 2, [Amp(SERIES_TWO[23 := 0][24 := 0][24 := 0 * 10][23 := 0 * -1][23 := 5 + 0 * -1][23 := 0 * 10 + (5 + 0 * -1)], 22), Amp(SERIES_TWO[23 := 1][24 := 5][24 := 5 * 10][23 := 1 * -1][23 := 5 + 1 * -1][23 := 5 * 10 + (5 + 1 * -1)], 22)], 54, fuel, Amp(SERIES_TWO[23 := 2][24 := 54][24 := 54 * 10][23 := 2 * -1][23 := 5 + 2 * -1][23 := 54 * 10 + (5 + 2 * -1)], 22), 543);
    SeriesTwoLaunch(3, 543, fuel);
    SetupStep(SERIES_TWO, phases, 3, [Amp(SERIES_TWO[23 := 0][24 := 0][24 := 0 * 10][23 := 0 * -1][23 := 5 + 0 * -1][23 := 0 * 10 + (5 + 0 * -1)], 22), Amp(SERIES_TWO[23 := 1][24 := 5][24 := 5 * 10][23 := 1 * -1][23 := 5 + 1 * -1][23 := 5 * 10 + (5 + 1 * -1)], 22), Amp(SERIES_TWO[23 := 2][24 := 54][24 := 54 * 10][23 := 2 * -1][23 := 5 + 2 * -1][23 := 54 * 10 + (5 + 2 * -1)], 22)], 543, fuel, Amp(SERIES_TWO[23 := 3][24 := 543][24 := 543 * 10][23 := 3 * -1][23 := 5 + 3 * -1][23 := 543 * 10 + (5 + 3 * -1)], 22), 5432);
    SeriesTwoLaunch(4, 5432, fuel);
    SetupStep(SERIES_TWO, phases, 4, [Amp(SERIES_TWO[23 := 0][24 := 0][24 := 0 * 10][23 := 0 * -1][23 := 5 + 0 * -1][23 := 0 * 10 + (5 + 0 * -1)], 22), Amp(SERIES_TWO[23 := 1][24 := 5][24 := 5 * 10][23 := 1 * -1][23 := 5 + 1 * -1][23 := 5 * 10 + (5 + 1 * -1)], 22), Amp(SERIES_TWO[23 := 2][24 := 54][24 := 54 * 10][23 := 2 * -1][23 := 5 + 2 * -1][23 := 54 * 10 + (5 + 2 * -1)], 22), Amp(SERIES_TWO[23 := 3][24 := 543][24 := 543 * 10][23 := 3 * -1][23 := 5 + 3 * -1][23 := 543 * 10 + (5 + 3 * -1)], 22)], 5432, fuel, Amp(SERIES_TWO[23 := 4][24 := 5432][24 := 5432 * 10][23 := 4 * -1][23 := 5 + 4 * -1][23 := 5432 * 10 + (5 + 4 * -1)], 22), 54321);
  }

  /** The third amplifier test: phase settings 1, 0, 4, 3, 2 give 65210. */
  lemma SeriesThreeExample(fuel: nat)
    requires fuel >= 10
    ensures ChainSignal(SERIES_THREE, [1, 0, 4, 3, 2], fuel) == Got(65210)
  {
    var phases := [1, 0, 4, 3, 2];
    SeriesThreeLaunch(1, 0, fuel);
    SetupStep(SERIES_THREE, phases, 0, [], 0, fuel, Amp(SERIES_THREE[31 := 1][32 := 0][32 := 0 * 10][31 := 1 + -2][33 := (if 1 + -2 < 0 then 1 else 0)][33 := (if 1 + -2 < 0 then 1 else 0) * 7][31 := (if 1 + -2 < 0 then 1 else 0) * 7 + (1 + -2)][31 := 0 * 10 + ((if 1 + -2 < 0 then 1 else 0) * 7 + (1 + -2))], 30), 6);
    SeriesThreeLaunch(0, 6, fuel);
    SetupStep(SERIES_THREE, phases, 1, [Amp(SERIES_THREE[31 := 1][32 := 0][32 := 0 * 10][31 := 1 + -2][33 := (if 1 + -2 < 0 then 1 else 0)][33 := (if 1 + -2 < 0 then 1 else 0) * 7][31 := (if 1 + -2 < 0 then 1 else 0) * 7 + (1 + -2)][31 := 0 * 10 + ((if 1 + -2 < 0 then 1 else 0) * 7 + (1 + -2))], 30)], 6, fuel, Amp(SERIES_THREE[31 := 0][32 := 6][32 := 6 * 10][31 := 0 + -2][33 := (if 0 + -2 < 0 then 1 else 0)][33 := (if 0 + -2 < 0 then 1 else 0) * 7][31 := (if 0 + -2 < 0 then 1 else 0) * 7 + (0 + -2)][31 := 6 * 10 + ((if 0 + -2 < 0 then 1 else 0) * 7 + (0 + -2))], 30), 65);
    SeriesThreeLaunch(4, 65, fuel);
    SetupStep(SERIES_THREE, phases, 2, [Amp(SERIES_THREE[31 := 1][32 := 0][32 := 0 * 10][31 := 1 + -2][33 := (if 1 + -2 < 0 then 1 else 0)][33 := (if 1 + -2 < 0 then 1 else 0) * 7][31 := (if 1 + -2 < 0 then 1 else 0) * 7 + (1 + -2)][31 := 0 * 10 + ((if 1 + -2 < 0 then 1 else 0) * 7 + (1 + -2))], 30), Amp(SERIES_THREE[31 := 0][32 := 6][32 := 6 * 10][31 := 0 + -2][33 := (if 0 + -2 < 0 then 1 else 0)][33 := (if 0 + -2 < 0 then 1 else 0) * 7][31 := (if 0 + -2 < 0 then 1 else 0) * 7 + (0 + -2)][31 := 6 * 10 + ((if 0 + -2 < 0 then 1 else 0) * 7 + (0 + -2))], 30)], 65, fuel, Amp(SERIES_THREE[31 := 4][32 := 65][32 := 65 * 10][31 := 4 + -2][33 := (if 4 + -2 < 0 then 1 else 0)][33 := (if 4 + -2 < 0 then 1 else 0) * 7][31 := (if 4 + -2 < 0 then 1 else 0) * 7 + (4 + -2)][31 := 65 * 10 + ((if 4 + -2 < 0 then 1 else 0) * 7 + (4 + -2))], 30), 652);
    SeriesThreeLaunch(3, 652, fuel);
    SetupStep(SERIES_THREE, phases, 3, [Amp(SERIES_THREE[31 := 1][32 := 0][32 := 0 * 10][31 := 1 + -2][33 := (if 1 + -2 < 0 then 1 else 0)][33 := (if 1 + -2 < 0 then 1 else 0) * 7][31 := (if 1 + -2 < 0 then 1 else 0) * 7 + (1 + -2)][31 := 0 * 10 + ((if 1 + -2 < 0 then 1 else 0) * 7 + (1 + -2))], 30), Amp(SERIES_THREE[31 := 0][32 := 6][32 := 6 * 10][31 := 0 + -2][33 := (if 0 + -2 < 0 then 1 else 0)][33 := (if 0 + -2 < 0 then 1 else 0) * 7][31 := (if 0 + -2 < 0 then 1 else 0) * 7 + (0 + -2)][31 := 6 * 10 + ((if 0 + -2 < 0 then 1 else 0) * 7 + (0 + -2))], 30), Amp(SERIES_THREE[31 := 4][32 := 65][32 := 65 * 10][31 := 4 + -2][33 := (if 4 + -2 < 0 then 1 else 0)][33 := (if 4 + -2 < 0 then 1 else 0) * 7][31 := (if 4 + -2 < 0 then 1 else 0) * 7 + (4 + -2)][31 := 65 * 10 + ((if 4 + -2 < 0 then 1 else 0) * 7 + (4 + -2))], 30)], 652, fuel, Amp(SERIES_THREE[31 := 3][32 := 652][32 := 652 * 10][31 := 3 + -2][33 := (if 3 + -2 < 0 then 1 else 0)][33 := (if 3 + -2 < 0 then 1 else 0) * 7][31 := (if 3 + -2 < 0 then 1 else 0) * 7 + (3 + -2)][31 := 652 * 10 + ((if 3 + -2 < 0 then 1 else 0) * 7 + (3 + -2))], 30), 6521);
    SeriesThreeLaunch(2, 6521, fuel);
    SetupStep(SERIES_THREE, phases, 4, [Amp(SERIES_THREE[31 := 1][32 := 0][32 := 0 * 10][31 := 1 + -2][33 := (if 1 + -2 < 0 then 1 else 0)][33 := (if 1 + -2 < 0 then 1 else 0) * 7][31 := (if 1 + -2 < 0 then 1 else 0) * 7 + (1 + -2)][31 := 0 * 10 + ((if 1 + -2 < 0 then 1 else 0) * 7 + (1 + -2))], 30), Amp(SERIES_THREE[31 := 0][32 := 6][32 := 6 * 10][31 := 0 + -2][33 := (if 0 + -2 < 0 then 1 else 0)][33 := (if 0 + -2 < 0 then 1 else 0) * 7][31 := (if 0 + -2 < 0 then 1 else 0) * 7 + (0 + -2)][31 := 6 * 10 + ((if 0 + -2 < 0 then 1 else 0) * 7 + (0 + -2))], 30), Amp(SERIES_THREE[31 := 4][32 := 65][32 := 65 * 10][31 := 4 + -2][33 := (if 4 + -2 < 0 then 1 else 0)][33 := (if 4 + -2 < 0 then 1 else 0) * 7][31 := (if 4 + -2 < 0 then 1 else 0) * 7 + (4 + -2)][31 := 65 * 10 + ((if 4 + -2 < 0 then 1 else 0) * 7 + (4 + -2))], 30), Amp(SERIES_THREE[31 := 3][32 := 652][32 := 652 * 10][31 := 3 + -2][33 := (if 3 + -2 < 0 then 1 else 0)][33 := (if 3 + -2 < 0 then 1 else 0) * 7][31 := (if 3 + -2 < 0 then 1 else 0) * 7 + (3 + -2)][31 := 652 * 10 + ((if 3 + -2 < 0 then 1 else 0) * 7 + (3 + -2))], 30)], 6521, fuel, Amp(SERIES_THREE[31 := 2][32 := 6521][32 := 6521 * 10][31 := 2 + -2][33 := (if 2 + -2 < 0 then 1 else 0)][33 := (if 2 + -2 < 0 then 1 else 0) * 7][31 := (if 2 + -2 < 0 then 1 else 0) * 7 + (2 + -2)][31 := 6521 * 10 + ((if 2 + -2 < 0 then 1 else 0) * 7 + (2 + -2))], 30), 65210);
  }

  /** What a feedback amplifier with phase `p` outputs for the signal `x`. */
  function Amplify(p: int, x: int): int
  {
    x * 2 + (p + -4)
  }

  /**
   * The memory of a feedback amplifier with phase `p` waiting at its Get:
   * cell 26 holds `p - 4`, cell 27 its last output and cell 28 the passes
   * it has left.
   */
  function LoopMem(p: int, y: int, c: int): seq<int>
  {
    LOOP_ONE[26 := p + -4][27 := y][28 := c]
  }

  /** Started on `[p, s]`, a feedback amplifier outputs `Amplify(p, s)` and waits for input with four passes left. */
  lemma {:induction false} LoopStart(p: int, s: int, fuel: nat)
    requires fuel >= 9
    ensures Run(LOOP_ONE, 0, [p, s], fuel, []) == Outcome(Starved, LoopMem(p, Amplify(p, s), 4), 6, [], [Amplify(p, s)], fuel - 8)
  {
    LoopStartTrace(p, s, fuel);
    StartWrites(LOOP_ONE, p, p + -4, s, s * 2, s * 2 + (p + -4), 4);
  }

  lemma {:induction false} LoopStartTrace(p: int, s: int, fuel: nat)
    requires fuel >= 9
    ensures Run(LOOP_ONE, 0, [p, s], fuel, [])
      == Outcome(Starved, LOOP_ONE[26 := p][26 := p + -4][27 := s][27 := s * 2][27 := s * 2 + (p + -4)][28 := 4], 6, [], [s * 2 + (p + -4)], fuel - 8)
  {
    LoopStartFrom0(p, s, fuel); LoopStartFrom1(p, s, fuel); LoopStartFrom2(p, s, fuel); LoopStartFrom3(p, s, fuel); LoopStartFrom4(p, s, fuel); LoopStartFrom5(p, s, fuel); LoopStartFrom6(p, s, fuel); LoopStartFrom7(p, s, fuel); LoopStartFrom8(p, s, fuel);
  }

  /** Resumed with `[x]` and more than one pass left, it outputs `Amplify(p, x)` and waits again with one pass fewer. */
  lemma {:induction false} LoopPass(p: int, y: int, c: int, x: int, fuel: nat)
    requires fuel >= 7 && c != 1
    ensures Run(LoopMem(p, y, c), 6, [x], fuel, []) == Outcome(Starved, LoopMem(p, Amplify(p, x), c - 1), 6, [], [Amplify(p, x)], fuel - 6)
  {
    LoopPassTrace(p, y, c, x, fuel);
    PassWrites(LOOP_ONE, p + -4, y, c, x, x * 2, x * 2 + (p + -4), c + -1);
  }

  lemma {:induction false} LoopPassTrace(p: int, y: int, c: int, x: int, fuel: nat)
    requires fuel >= 7 && c != 1
    ensures Run(LoopMem(p, y, c), 6, [x], fuel, []) == Outcome(Starved, LoopMem(p, y, c)[27 := x][27 := x * 2][27 := x * 2 + (p + -4)][28 := c + -1], 6, [], [x * 2 + (p + -4)], fuel - 6)
  {
    LoopPassFrom0(p, y, c, x, fuel); LoopPassFrom1(p, y, c, x, fuel); LoopPassFrom2(p, y, c, x, fuel); LoopPassFrom3(p, y, c, x, fuel); LoopPassFrom4(p, y, c, x, fuel); LoopPassFrom5(p, y, c, x, fuel); LoopPassFrom6(p, y, c, x, fuel);
  }

  /** Resumed with `[x]` on its last pass, it outputs `Amplify(p, x)` and halts. */
  lemma {:induction false} LoopLast(p: int, y: int, c: int, x: int, fuel: nat)
    requires fuel >= 7 && c == 1
    ensures Run(LoopMem(p, y, c), 6, [x], fuel, []) == Outcome(Halted, LoopMem(p, Amplify(p, x), c - 1), 25, [], [Amplify(p, x)], fuel - 6)
  {
    LoopLastTrace(p, y, c, x, fuel);
    PassWrites(LOOP_ONE, p + -4, y, c, x, x * 2, x * 2 + (p + -4), c + -1);
  }

  lemma {:induction false} LoopLastTrace(p: int, y: int, c: int, x: int, fuel: nat)
    requires fuel >= 7 && c == 1
    ensures Run(LoopMem(p, y, c), 6, [x], fuel, []) == Outcome(Halted, LoopMem(p, y, c)[27 := x][27 := x * 2][27 := x * 2 + (p + -4)][28 := c + -1], 25, [], [x * 2 + (p + -4)], fuel - 6)
  {
    LoopLastFrom0(p, y, c, x, fuel); LoopLastFrom1(p, y, c, x, fuel); LoopLastFrom2(p, y, c, x, fuel); LoopLastFrom3(p, y, c, x, fuel); LoopLastFrom4(p, y, c, x, fuel); LoopLastFrom5(p, y, c, x, fuel); LoopLastFrom6(p, y, c, x, fuel);
  }

  /** The writes a feedback amplifier makes while it starts, with the overwritten ones dropped. */
  lemma StartWrites(m: seq<int>, p: int, q: int, s: int, t: int, u: int, c: int)
    requires |m| == 29
    ensures m[26 := p][26 := q][27 := s][27 := t][27 := u][28 := c] == m[26 := q][27 := u][28 := c]
  {
  }

  /** The writes a feedback amplifier makes in one pass, with the overwritten ones dropped. */
  lemma PassWrites(m: seq<int>, q: int, y: int, c: int, x: int, t: int, u: int, d: int)
    requires |m| == 29
    ensures m[26 := q][27 := y][28 := c][27 := x][27 := t][27 := u][28 := d] == m[26 := q][27 := u][28 := d]
  {
  }

  /** `a` is a feedback amplifier with phase `p` waiting at its Get with `c` passes left. */
  predicate Paused(a: Amp, p: int, c: int)
  {
    a.pc == 6 && |a.mem| == |LOOP_ONE| && a.mem == LoopMem(p, a.mem[27], c)
  }

  /** The signal after amplifiers `i..` of one pass. */
  function Through(phases: seq<int>, i: nat, x: int): int
    requires i <= |phases|
    decreases |phases| - i
  {
    if i == |phases| then x else Through(phases, i + 1, Amplify(phases[i], x))
  }

  /** The signal after `c` more passes round the whole loop. */
  function Passes(phases: seq<int>, x: int, c: nat): int
    decreases c
  {
    if c <= 1 then Through(phases, 0, x) else Passes(phases, Through(phases, 0, x), c - 1)
  }

  /** Setting up the feedback program: every amplifier starts, and each waits with four passes left. */
  lemma {:induction false} LoopSetup(phases: seq<int>, i: nat, amps: seq<Amp>, signal: int, fuel: nat)
    requires i <= |phases| && |amps| == i && fuel >= 9
    requires forall k :: 0 <= k < i ==> Paused(amps[k], phases[k], 4)
    ensures var r := Setup(LOOP_ONE, phases, i, amps, signal, fuel);
      && r.Got? && r.value.signal == Through(phases, i, signal) && |r.value.amps| == |phases|
      && forall k :: 0 <= k < |phases| ==> Paused(r.value.amps[k], phases[k], 4)
    decreases |phases| - i
  {
    if i < |phases| {
      var p := phases[i];
      LoopStart(p, signal, fuel);
      var a := Amp(LoopMem(p, Amplify(p, signal), 4), 6);
      assert Launch(LOOP_ONE, p, signal, fuel) == Got((a, Amplify(p, signal)));
      LoopSetup(phases, i + 1, amps + [a], Amplify(p, signal), fuel);
    }
  }

  /**
   * One pass from amplifier `i` on, every amplifier waiting with `c`
   * passes left: the signal goes through each, and the last one halts
   * exactly when this was the final pass.
   */
  lemma {:induction false} LoopRound(phases: seq<int>, amps: seq<Amp>, i: nat, x: int, reason: Status, c: int, fuel: nat)
    requires |amps| == |phases| && i <= |phases| && fuel >= 7 && c >= 1
    requires forall k :: i <= k < |phases| ==> Paused(amps[k], phases[k], c)
    ensures var r := Pass(amps, i, [x], reason, fuel);
      && r.Got? && r.value.signals == [Through(phases, i, x)] && |r.value.amps| == |phases|
      && r.value.reason == (if i == |phases| then reason else if c == 1 then Halted else Starved)
      && (forall k :: 0 <= k < i ==> r.value.amps[k] == amps[k])
      && (c != 1 ==> forall k :: i <= k < |phases| ==> Paused(r.value.amps[k], phases[k], c - 1))
    decreases |phases| - i
  {
    if i < |phases| {
      var p, y := phases[i], amps[i].mem[27];
      var next := Amplify(p, x);
      if c == 1 {
        LoopLast(p, y, c, x, fuel);
        LoopRound(phases, amps[i := Amp(LoopMem(p, next, 0), 25)], i + 1, next, Halted, c, fuel);
      } else {
        LoopPass(p, y, c, x, fuel);
        var amps' := amps[i := Amp(LoopMem(p, next, c - 1), 6)];
        LoopRound(phases, amps', i + 1, next, Starved, c, fuel);
        var r := Pass(amps', i + 1, [next], Starved, fuel);
        assert Paused(amps'[i], p, c - 1);
      }
    }
  }

  /** With every amplifier waiting with `c` passes left, the loop answers after exactly `c` passes. */
  lemma {:induction false} LoopFeedback(phases: seq<int>, amps: seq<Amp>, x: int, c: nat, rounds: nat, fuel: nat)
    requires |amps| == |phases| >= 1 && fuel >= 7 && 1 <= c <= rounds
    requires forall k :: 0 <= k < |phases| ==> Paused(amps[k], phases[k], c)
    ensures Feedback(amps, [x], rounds, fuel) == Got(Passes(phases, x, c))
    decreases c
  {
    LoopRound(phases, amps, 0, x, Halted, c, fuel);
    if c > 1 {
      var r := Pass(amps, 0, [x], Halted, fuel);
      LoopFeedback(phases, r.value.amps, Through(phases, 0, x), c - 1, rounds - 1, fuel);
    }
  }

  /**
   * The feedback program for any phase settings: the signal goes through
   * the chain once while it is set up and four more times round the
   * loop, and the last amplifier then halts.
   */
  lemma LoopOneAnswer(phases: seq<int>, rounds: nat, fuel: nat)
    requires |phases| >= 1 && rounds >= 4 && fuel >= 9
    ensures Loopback(LOOP_ONE, phases, rounds, fuel) == Got(Passes(phases, Through(phases, 0, 0), 4))
  {
    LoopSetup(phases, 0, [], 0, fuel);
    var c := Setup(LOOP_ONE, phases, 0, [], 0, fuel).value;
    LoopFeedback(phases, c.amps, c.signal, 4, rounds, fuel);
  }

  /** The first feedback test: phase settings 9, 8, 7, 6, 5 give 139629729. */
  lemma LoopOneExample(rounds: nat, fuel: nat)
    requires rounds >= 4 && fuel >= 9
    ensures Loopback(LOOP_ONE, [9, 8, 7, 6, 5], rounds, fuel) == Got(139629729)
  {
    LoopOneAnswer([9, 8, 7, 6, 5], rounds, fuel);
  }
}
