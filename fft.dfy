/**
 * The Flawed Frequency Transmission of day 16 (`src/bin/day16.rs`). A
 * phase replaces each element `i` of a signal with the last digit of the
 * absolute value of a weighted sum; the weights come from the base pattern
 * 0, 1, 0, -1 with each value repeated `i + 1` times and the first weight
 * skipped. Past the middle of the signal the weights are 0 then 1, so part
 * two computes the tail of a phase with a running suffix sum.
 */
module Fft {
  import opened RustInt

  /** `FFTPattern::COEFFICIENTS`, the base pattern. */
  const COEFFICIENTS: seq<int> := [0, 1, 0, -1]

  /** Weight `k` of the pattern for `repeat`: each base value repeated `repeat` times, cyclically. */
  function PatternAt(repeat: nat, k: nat): (c: int)
    requires repeat > 0
    ensures -1 <= c <= 1
  {
    COEFFICIENTS[(k / repeat) % 4]
  }

  /** The pattern is periodic with period `4 * repeat`. */
  lemma PatternPeriodic(repeat: nat, k: nat)
    requires repeat > 0
    ensures PatternAt(repeat, k + 4 * repeat) == PatternAt(repeat, k)
  {
    var q, r := k / repeat, k % repeat;
    assert k == q * repeat + r;
    assert (q + 4) * repeat == q * repeat + 4 * repeat;
    DivUnique(k + 4 * repeat, repeat, q + 4, r);
    assert (q + 4) % 4 == q % 4;
  }

  /** Within one block of `repeat` positions the weight stays the same; block `b` carries base value `b % 4`. */
  lemma PatternBlock(repeat: nat, b: nat, r: nat)
    requires 0 < repeat && r < repeat
    ensures PatternAt(repeat, b * repeat + r) == COEFFICIENTS[b % 4]
  {
    DivUnique(b * repeat + r, repeat, b, r);
  }

  /** Bits 0 and 1 of a small number are its remainder by 4: the source's `& 0x03`. */
  lemma LowBits(x: nat)
    requires x < 5
    ensures ((x as bv8) & 3) as int == x % 4
  {
    if x == 4 {
      assert (4 as bv8) & 3 == 0;
    }
  }

  /** The source's `(id + 1) & 0x03`: the next base value, wrapping after the fourth. */
  function NextId(id: nat): (next: nat)
    requires id < 4
    ensures next == (id + 1) % 4
  {
    LowBits(id + 1);
    ((id + 1) as bv8 & 3) as nat
  }

  lemma NextBlock(q: nat)
    ensures (q % 4 + 1) % 4 == (q + 1) % 4
  {
    DivUnique(q + 1, 4, q / 4 + (q % 4 + 1) / 4, (q % 4 + 1) % 4);
  }

  /**
   * The `FFTPattern` iterator. `emitted` counts the values it has yielded;
   * `cnt` and `coefficientId` are that count's position within a block and
   * block number modulo 4.
   */
  class FFTPattern {
    var repeat: nat
    var cnt: nat
    var coefficientId: nat
    ghost var emitted: nat

    ghost predicate Valid()
      reads this
    {
      && repeat > 0
      && cnt == emitted % repeat
      && coefficientId == (emitted / repeat) % 4
    }

    /** `FFTPattern::new`, which asserts a non-zero repeat count. */
    constructor (repeat: nat)
      requires repeat != 0
      ensures Valid() && this.repeat == repeat && emitted == 0
      ensures cnt == 0 && coefficientId == 0
    {
      this.repeat := repeat;
      cnt := 0;
      coefficientId := 0;
      emitted := 0;
    }

    /** `next`: the pattern's next weight; the iterator never ends. */
    method Next() returns (c: int)
      requires Valid()
      modifies this
      ensures Valid() && repeat == old(repeat) && emitted == old(emitted) + 1
      ensures cnt < repeat && coefficientId < 4
      ensures c == PatternAt(repeat, old(emitted))
    {
      c := COEFFICIENTS[coefficientId];
      ghost var q := emitted / repeat;
      if cnt == repeat - 1 {
        coefficientId := NextId(coefficientId);
        NextBlock(q);
        DivUnique(emitted + 1, repeat, q + 1, 0);
        DivUnique(cnt + 1, repeat, 1, 0);
      } else {
        DivUnique(emitted + 1, repeat, q, cnt + 1);
        DivUnique(cnt + 1, repeat, 0, cnt + 1);
      }
      cnt := (cnt + 1) % repeat;
      emitted := emitted + 1;
    }
  }

  /** The first `n` values of a fresh pattern, as the pattern tests collect them with `take`. */
  method Take(repeat: nat, n: nat) returns (xs: seq<int>)
    requires repeat != 0
    ensures |xs| == n
    ensures forall k :: 0 <= k < n ==> xs[k] == PatternAt(repeat, k)
  {
    var pattern := new FFTPattern(repeat);
    xs := [];
    while |xs| < n
      invariant pattern.Valid() && pattern.repeat == repeat && pattern.emitted == |xs| <= n
      invariant forall k :: 0 <= k < |xs| ==> xs[k] == PatternAt(repeat, k)
    {
      var c := pattern.Next();
      xs := xs + [c];
    }
  }

  /** The pattern tests for repeat counts 1, 2 and 3. */
  lemma PatternExamples()
    ensures seq(8, k requires 0 <= k => PatternAt(1, k)) == [0, 1, 0, -1, 0, 1, 0, -1]
    ensures seq(8, k requires 0 <= k => PatternAt(2, k)) == [0, 0, 1, 1, 0, 0, -1, -1]
    ensures seq(12, k requires 0 <= k => PatternAt(3, k)) == [0, 0, 0, 1, 1, 1, 0, 0, 0, -1, -1, -1]
  {
  }

  /** The fold of `compute_fft_phase` for output `i` over the first `n` inputs, weights starting at pattern position 1. */
  function Sum(input: seq<int>, repeat: nat, n: nat): int
    requires repeat > 0 && n <= |input|
  {
    if n == 0 then 0 else Sum(input, repeat, n - 1) + input[n - 1] * PatternAt(repeat, n)
  }

  /** One phase: element `i` is the last digit of `|Sum|` with the pattern repeated `i + 1` times. */
  function Phase(input: seq<int>): (output: seq<int>)
    ensures |output| == |input|
    ensures forall i :: 0 <= i < |output| ==> 0 <= output[i] <= 9
  {
    seq(|input|, i requires 0 <= i < |input| => Abs(Sum(input, i + 1, |input|)) % 10)
  }

  /** Element `i` of a phase, as a lemma to instantiate it at one position. */
  lemma PhaseElement(input: seq<int>, i: nat, total: int)
    requires i < |input| && Sum(input, i + 1, |input|) == total
    ensures Phase(input)[i] == Abs(total) % 10
  {
  }

  /** `n` phases in a row. */
  function Phases(input: seq<int>, n: nat): (output: seq<int>)
    ensures |output| == |input|
  {
    if n == 0 then input else Phase(Phases(input, n - 1))
  }

  /** `compute_fft_phase`: each output element runs a fresh pattern, skips its first weight and folds the input. */
  method ComputeFftPhase(input: seq<int>) returns (output: seq<int>)
    ensures output == Phase(input)
  {
    var len := |input|;
    output := [];
    for i := 0 to len
      invariant |output| == i
      invariant forall k :: 0 <= k < i ==> output[k] == Phase(input)[k]
    {
      var pattern := new FFTPattern(i + 1);
      var _ := pattern.Next();
      var res := 0;
      for j := 0 to len
        invariant pattern.Valid() && pattern.repeat == i + 1 && pattern.emitted == j + 1
        invariant res == Sum(input, i + 1, j)
      {
        var c := pattern.Next();
        res := res + input[j] * c;
      }
      output := output + [Abs(res) % 10];
    }
  }

  /** The sum of a sequence. */
  function Total(s: seq<int>): int
  {
    if |s| == 0 then 0 else s[0] + Total(s[1..])
  }

  ghost predicate IsDigits(s: seq<int>)
  {
    forall k :: 0 <= k < |s| ==> 0 <= s[k] <= 9
  }

  lemma {:induction false} TotalNonNegative(s: seq<int>)
    requires IsDigits(s)
    ensures Total(s) >= 0
  {
    if |s| > 0 {
      TotalNonNegative(s[1..]);
    }
  }

  /**
   * In the lower half of the matrix (`2 * i + 1 >= |input|`), output `i`
   * weighs inputs before `i` with 0 and the rest with 1: the fold over
   * the first `n` inputs adds up inputs `i` to `n - 1`.
   */
  lemma {:induction false} UpperRows(input: seq<int>, i: nat, n: nat)
    requires i < |input| <= 2 * i + 1 && n <= |input|
    ensures n <= i ==> Sum(input, i + 1, n) == 0
    ensures i < n ==> Sum(input, i + 1, n) + Total(input[n..]) == Total(input[i..])
  {
    if n > 0 {
      UpperRows(input, i, n - 1);
      UpperWeight(i, n, |input|);
      if i < n {
        assert input[n - 1..][1..] == input[n..];
      }
    }
  }

  /** The weights of an output past the middle: 0 before its own position, then 1 up to the end. */
  lemma UpperWeight(i: nat, k: nat, len: nat)
    requires len <= 2 * i + 1 && k <= len
    ensures PatternAt(i + 1, k) == if k <= i then 0 else 1
  {
    if k <= i {
      DivUnique(k, i + 1, 0, k);
    } else {
      DivUnique(k, i + 1, 1, k - i - 1);
    }
  }

  /**
   * The phase an upper-triangular matrix gives, computed from the back:
   * the last element stays, each earlier one is the last digit of itself
   * plus its successor's result.
   */
  function Triangular(input: seq<int>): (output: seq<int>)
    requires |input| > 0
    ensures |output| == |input|
    ensures output[|input| - 1] == input[|input| - 1]
  {
    if |input| == 1 then input
    else
      var rest := Triangular(input[1..]);
      [Abs(input[0] + rest[0]) % 10] + rest
  }

  /** On digits, element `k` of the triangular phase is the last digit of the sum from `k` on. */
  lemma {:induction false} TriangularIsSuffixSum(input: seq<int>, k: nat)
    requires |input| > 0 && IsDigits(input) && k < |input|
    ensures Triangular(input)[k] == Total(input[k..]) % 10
    decreases |input|
  {
    if |input| == 1 {
      assert input[k..] == input;
      assert Total(input[1..]) == 0;
    } else if k > 0 {
      TriangularIsSuffixSum(input[1..], k - 1);
      assert input[1..][k - 1..] == input[k..];
    } else {
      TriangularIsSuffixSum(input[1..], 0);
      TotalNonNegative(input[1..]);
      var t := Total(input[1..]);
      DivUnique(input[0] + t, 10, (input[0] + t % 10) / 10 + t / 10, (input[0] + t % 10) % 10);
      assert input[0..] == input;
    }
  }

  /** The triangular phase of digits is again digits. */
  lemma TriangularDigits(input: seq<int>)
    requires |input| > 0 && IsDigits(input)
    ensures IsDigits(Triangular(input))
  {
    forall k | 0 <= k < |input|
      ensures 0 <= Triangular(input)[k] <= 9
    {
      TriangularIsSuffixSum(input, k);
    }
  }

  /**
   * The shortcut part two relies on: for digits, from an offset past the
   * middle on, a full phase and the triangular phase of the tail agree.
   */
  lemma PhaseTail(input: seq<int>, offset: nat)
    requires IsDigits(input) && offset < |input| <= 2 * offset + 1
    ensures Phase(input)[offset..] == Triangular(input[offset..])
  {
    var tail := input[offset..];
    forall k | 0 <= k < |tail|
      ensures Phase(input)[offset + k] == Triangular(tail)[k]
    {
      PhaseTailAt(input, offset, k);
    }
  }

  /** One element of `PhaseTail`. */
  lemma PhaseTailAt(input: seq<int>, offset: nat, k: nat)
    requires IsDigits(input) && offset + k < |input| <= 2 * offset + 1
    ensures Phase(input)[offset + k] == Triangular(input[offset..])[k]
  {
    var i, tail := offset + k, input[offset..];
    var total := Total(input[i..]);
    assert Sum(input, i + 1, |input|) == total by {
      UpperRows(input, i, |input|);
      assert |input[|input|..]| == 0;
    }
    TotalNonNegative(input[i..]);
    PhaseElement(input, i, total);
    TriangularIsSuffixSum(tail, k);
    assert tail[k..] == input[i..];
  }

  /** `n` triangular phases in a row. */
  function TriangularPhases(input: seq<int>, n: nat): (output: seq<int>)
    requires |input| > 0
    ensures |output| == |input|
  {
    if n == 0 then input else Triangular(TriangularPhases(input, n - 1))
  }

  /** The shortcut holds for any number of phases. */
  lemma {:induction false} PhasesTail(input: seq<int>, offset: nat, n: nat)
    requires IsDigits(input) && offset < |input| <= 2 * offset + 1
    ensures IsDigits(Phases(input, n))
    ensures Phases(input, n)[offset..] == TriangularPhases(input[offset..], n)
  {
    if n > 0 {
      PhasesTail(input, offset, n - 1);
      var before := Phases(input, n - 1);
      var tail := TriangularPhases(input[offset..], n - 1);
      assert before[offset..] == tail;
      PhaseTail(before, offset);
      assert Phase(before)[offset..] == Triangular(tail);
    }
  }

  /** `compute_fft_phase_triangular`: fills an output buffer from the back. */
  method ComputeFftPhaseTriangular(input: seq<int>) returns (output: seq<int>)
    requires |input| > 0
    ensures output == Triangular(input)
  {
    var len := |input|;
    var buffer := new int[len](_ => 0);
    buffer[len - 1] := input[len - 1];
    var i := len - 1;
    while i > 0
      invariant 0 <= i < len
      invariant buffer[i..] == Triangular(input[i..])
    {
      i := i - 1;
      buffer[i] := Abs(input[i] + buffer[i + 1]) % 10;
      assert input[i..][1..] == input[i + 1..];
      assert buffer[i..] == [buffer[i]] + buffer[i + 1..];
    }
    output := buffer[..];
    assert input[0..] == input;
  }

  /** Part one: the first eight digits after `100` phases. */
  method PartOne(signal: seq<int>) returns (message: seq<int>)
    requires |signal| >= 8
    ensures message == Phases(signal, 100)[..8]
  {
    var input := signal;
    for k := 0 to 100
      invariant input == Phases(signal, k)
    {
      input := ComputeFftPhase(input);
    }
    message := input[..8];
  }

  /** `input.repeat(n)`: `n` copies of the signal laid end to end. */
  function Repeat(s: seq<int>, n: nat): (r: seq<int>)
    ensures |r| == |s| * n
  {
    if n == 0 then []
    else
      assert |s| * n == |s| + |s| * (n - 1);
      s + Repeat(s, n - 1)
  }

  /** Element `k` of the repeated signal is element `k % |s|` of the signal. */
  lemma {:induction false} RepeatAt(s: seq<int>, n: nat, k: nat)
    requires k < |Repeat(s, n)|
    ensures Repeat(s, n)[k] == s[k % |s|]
  {
    if k < |s| {
      DivUnique(k, |s|, 0, k);
    } else {
      DivStep(k, |s|);
      RepeatAt(s, n - 1, k - |s|);
    }
  }

  /** Part two's message offset: the first seven digits, read as a decimal number. */
  function Offset(signal: seq<int>): int
    requires |signal| >= 7
  {
    Value(signal[..7])
  }

  /**
   * Part two: on ten thousand copies of the signal, from the offset on,
   * `100` triangular phases; the source asserts that the offset is past
   * the middle. The result is the first eight digits of `100` full phases
   * from the offset on.
   */
  method PartTwo(signal: seq<int>) returns (message: seq<int>)
    requires IsDigits(signal)
    requires |Repeat(signal, 10000)| >= 7
    requires |Repeat(signal, 10000)| / 2 < Offset(Repeat(signal, 10000))
    requires Offset(Repeat(signal, 10000)) + 8 <= |Repeat(signal, 10000)|
    ensures message == Phases(Repeat(signal, 10000), 100)[Offset(Repeat(signal, 10000))..Offset(Repeat(signal, 10000)) + 8]
  {
    var full := Repeat(signal, 10000);
    var offset := Offset(full);
    RepeatDigits(signal, 10000);
    var input := full[offset..];
    for k := 0 to 100
      invariant input == TriangularPhases(full[offset..], k)
    {
      input := ComputeFftPhaseTriangular(input);
    }
    PhasesTail(full, offset, 100);
    message := input[..8];
    SliceOfSlice(Phases(full, 100), offset, 8);
  }

  /** Repeating a digit signal gives a digit signal. */
  lemma RepeatDigits(signal: seq<int>, n: nat)
    requires IsDigits(signal)
    ensures IsDigits(Repeat(signal, n))
  {
    var full := Repeat(signal, n);
    forall k | 0 <= k < |full|
      ensures 0 <= full[k] <= 9
    {
      RepeatAt(signal, n, k);
    }
  }

  /** The first `n` elements from `a` on are the slice from `a` to `a + n`. */
  lemma SliceOfSlice(s: seq<int>, a: nat, n: nat)
    requires a + n <= |s|
    ensures s[a..][..n] == s[a..a + n]
  {
  }

  /** The phase test on four ones. */
  lemma FourOnes(input: seq<int>)
    requires input == [1, 1, 1, 1]
    ensures Phase(input) == [0, 2, 2, 1]
  {
    FourOnesFirstHalf(input);
    FourOnesSecondHalf(input);
  }

  lemma FourOnesFirstHalf(input: seq<int>)
    requires input == [1, 1, 1, 1]
    ensures Phase(input)[0] == 0 && Phase(input)[1] == 2
  {
    assert Sum(input, 1, 1) == 1 && Sum(input, 1, 2) == 1 && Sum(input, 1, 3) == 0 && Sum(input, 1, 4) == 0;
    PhaseElement(input, 0, 0);
    assert Sum(input, 2, 1) == 0 && Sum(input, 2, 2) == 1 && Sum(input, 2, 3) == 2 && Sum(input, 2, 4) == 2;
    PhaseElement(input, 1, 2);
  }

  lemma FourOnesSecondHalf(input: seq<int>)
    requires input == [1, 1, 1, 1]
    ensures Phase(input)[2] == 2 && Phase(input)[3] == 1
  {
    assert Sum(input, 3, 1) == 0 && Sum(input, 3, 2) == 0 && Sum(input, 3, 3) == 1 && Sum(input, 3, 4) == 2;
    PhaseElement(input, 2, 2);
    assert Sum(input, 4, 1) == 0 && Sum(input, 4, 2) == 0 && Sum(input, 4, 3) == 0 && Sum(input, 4, 4) == 1;
    PhaseElement(input, 3, 1);
  }

  /** Phase 1 of the example on 1 to 8. */
  lemma ExampleFirstPhase(input: seq<int>)
    requires input == [1, 2, 3, 4, 5, 6, 7, 8]
    ensures Phase(input) == [4, 8, 2, 2, 6, 1, 5, 8]
  {
    ExampleFirstDigit0(input);
    ExampleFirstDigit1(input);
    ExampleFirstDigit2(input);
    ExampleFirstDigit3(input);
    ExampleFirstDigit4(input);
    ExampleFirstDigit5(input);
    ExampleFirstDigit6(input);
    ExampleFirstDigit7(input);
  }

  lemma ExampleFirstDigit0(input: seq<int>)
    requires input == [1, 2, 3, 4, 5, 6, 7, 8]
    ensures Phase(input)[0] == 4
  {
    assert Sum(input, 1, 1) == 1;
    assert Sum(input, 1, 2) == 1;
    assert Sum(input, 1, 3) == -2;
    assert Sum(input, 1, 4) == -2;
    assert Sum(input, 1, 5) == 3;
    assert Sum(input, 1, 6) == 3;
    assert Sum(input, 1, 7) == -4;
    assert Sum(input, 1, 8) == -4;
    PhaseElement(input, 0, -4);
  }

  lemma ExampleFirstDigit1(input: seq<int>)
    requires input == [1, 2, 3, 4, 5, 6, 7, 8]
    ensures Phase(input)[1] == 8
  {
    assert Sum(input, 2, 1) == 0;
    assert Sum(input, 2, 2) == 2;
    assert Sum(input, 2, 3) == 5;
    assert Sum(input, 2, 4) == 5;
    assert Sum(input, 2, 5) == 5;
    assert Sum(input, 2, 6) == -1;
    assert Sum(input, 2, 7) == -8;
    assert Sum(input, 2, 8) == -8;
    PhaseElement(input, 1, -8);
  }

  lemma ExampleFirstDigit2(input: seq<int>)
    requires input == [1, 2, 3, 4, 5, 6, 7, 8]
    ensures Phase(input)[2] == 2
  {
    assert Sum(input, 3, 1) == 0;
    assert Sum(input, 3, 2) == 0;
    assert Sum(input, 3, 3) == 3;
    assert Sum(input, 3, 4) == 7;
    assert Sum(input, 3, 5) == 12;
    assert Sum(input, 3, 6) == 12;
    assert Sum(input, 3, 7) == 12;
    assert Sum(input, 3, 8) == 12;
    PhaseElement(input, 2, 12);
  }

  lemma ExampleFirstDigit3(input: seq<int>)
    requires input == [1, 2, 3, 4, 5, 6, 7, 8]
    ensures Phase(input)[3] == 2
  {
    assert Sum(input, 4, 1) == 0;
    assert Sum(input, 4, 2) == 0;
    assert Sum(input, 4, 3) == 0;
    assert Sum(input, 4, 4) == 4;
    assert Sum(input, 4, 5) == 9;
    assert Sum(input, 4, 6) == 15;
    assert Sum(input, 4, 7) == 22;
    assert Sum(input, 4, 8) == 22;
    PhaseElement(input, 3, 22);
  }

  lemma ExampleFirstDigit4(input: seq<int>)
    requires input == [1, 2, 3, 4, 5, 6, 7, 8]
    ensures Phase(input)[4] == 6
  {
    assert Sum(input, 5, 1) == 0;
    assert Sum(input, 5, 2) == 0;
    assert Sum(input, 5, 3) == 0;
    assert Sum(input, 5, 4) == 0;
    assert Sum(input, 5, 5) == 5;
    assert Sum(input, 5, 6) == 11;
    assert Sum(input, 5, 7) == 18;
    assert Sum(input, 5, 8) == 26;
    PhaseElement(input, 4, 26);
  }

  lemma ExampleFirstDigit5(input: seq<int>)
    requires input == [1, 2, 3, 4, 5, 6, 7, 8]
    ensures Phase(input)[5] == 1
  {
    assert Sum(input, 6, 1) == 0;
    assert Sum(input, 6, 2) == 0;
    assert Sum(input, 6, 3) == 0;
    assert Sum(input, 6, 4) == 0;
    assert Sum(input, 6, 5) == 0;
    assert Sum(input, 6, 6) == 6;
    assert Sum(input, 6, 7) == 13;
    assert Sum(input, 6, 8) == 21;
    PhaseElement(input, 5, 21);
  }

  lemma ExampleFirstDigit6(input: seq<int>)
    requires input == [1, 2, 3, 4, 5, 6, 7, 8]
    ensures Phase(input)[6] == 5
  {
    assert Sum(input, 7, 1) == 0;
    assert Sum(input, 7, 2) == 0;
    assert Sum(input, 7, 3) == 0;
    assert Sum(input, 7, 4) == 0;
    assert Sum(input, 7, 5) == 0;
    assert Sum(input, 7, 6) == 0;
    assert Sum(input, 7, 7) == 7;
    assert Sum(input, 7, 8) == 15;
    PhaseElement(input, 6, 15);
  }

  lemma ExampleFirstDigit7(input: seq<int>)
    requires input == [1, 2, 3, 4, 5, 6, 7, 8]
    ensures Phase(input)[7] == 8
  {
    assert Sum(input, 8, 1) == 0;
    assert Sum(input, 8, 2) == 0;
    assert Sum(input, 8, 3) == 0;
    assert Sum(input, 8, 4) == 0;
    assert Sum(input, 8, 5) == 0;
    assert Sum(input, 8, 6) == 0;
    assert Sum(input, 8, 7) == 0;
    assert Sum(input, 8, 8) == 8;
    PhaseElement(input, 7, 8);
  }

  /** Phase 2 of the example on 1 to 8. */
  lemma ExampleSecondPhase(input: seq<int>)
    requires input == [4, 8, 2, 2, 6, 1, 5, 8]
    ensures Phase(input) == [3, 4, 0, 4, 0, 4, 3, 8]
  {
    ExampleSecondDigit0(input);
    ExampleSecondDigit1(input);
    ExampleSecondDigit2(input);
    ExampleSecondDigit3(input);
    ExampleSecondDigit4(input);
    ExampleSecondDigit5(input);
    ExampleSecondDigit6(input);
    ExampleSecondDigit7(input);
  }

  lemma ExampleSecondDigit0(input: seq<int>)
    requires input == [4, 8, 2, 2, 6, 1, 5, 8]
    ensures Phase(input)[0] == 3
  {
    assert Sum(input, 1, 1) == 4;
    assert Sum(input, 1, 2) == 4;
    assert Sum(input, 1, 3) == 2;
    assert Sum(input, 1, 4) == 2;
    assert Sum(input, 1, 5) == 8;
    assert Sum(input, 1, 6) == 8;
    assert Sum(input, 1, 7) == 3;
    assert Sum(input, 1, 8) == 3;
    PhaseElement(input, 0, 3);
  }

  lemma ExampleSecondDigit1(input: seq<int>)
    requires input == [4, 8, 2, 2, 6, 1, 5, 8]
    ensures Phase(input)[1] == 4
  {
    assert Sum(input, 2, 1) == 0;
    assert Sum(input, 2, 2) == 8;
    assert Sum(input, 2, 3) == 10;
    assert Sum(input, 2, 4) == 10;
    assert Sum(input, 2, 5) == 10;
    assert Sum(input, 2, 6) == 9;
    assert Sum(input, 2, 7) == 4;
    assert Sum(input, 2, 8) == 4;
    PhaseElement(input, 1, 4);
  }

  lemma ExampleSecondDigit2(input: seq<int>)
    requires input == [4, 8, 2, 2, 6, 1, 5, 8]
    ensures Phase(input)[2] == 0
  {
    assert Sum(input, 3, 1) == 0;
    assert Sum(input, 3, 2) == 0;
    assert Sum(input, 3, 3) == 2;
    assert Sum(input, 3, 4) == 4;
    assert Sum(input, 3, 5) == 10;
    assert Sum(input, 3, 6) == 10;
    assert Sum(input, 3, 7) == 10;
    assert Sum(input, 3, 8) == 10;
    PhaseElement(input, 2, 10);
  }

  lemma ExampleSecondDigit3(input: seq<int>)
    requires input == [4, 8, 2, 2, 6, 1, 5, 8]
    ensures Phase(input)[3] == 4
  {
    assert Sum(input, 4, 1) == 0;
    assert Sum(input, 4, 2) == 0;
    assert Sum(input, 4, 3) == 0;
    assert Sum(input, 4, 4) == 2;
    assert Sum(input, 4, 5) == 8;
    assert Sum(input, 4, 6) == 9;
    assert Sum(input, 4, 7) == 14;
    assert Sum(input, 4, 8) == 14;
    PhaseElement(input, 3, 14);
  }

  lemma ExampleSecondDigit4(input: seq<int>)
    requires input == [4, 8, 2, 2, 6, 1, 5, 8]
    ensures Phase(input)[4] == 0
  {
    assert Sum(input, 5, 1) == 0;
    assert Sum(input, 5, 2) == 0;
    assert Sum(input, 5, 3) == 0;
    assert Sum(input, 5, 4) == 0;
    assert Sum(input, 5, 5) == 6;
    assert Sum(input, 5, 6) == 7;
    assert Sum(input, 5, 7) == 12;
    assert Sum(input, 5, 8) == 20;
    PhaseElement(input, 4, 20);
  }

  lemma ExampleSecondDigit5(input: seq<int>)
    requires input == [4, 8, 2, 2, 6, 1, 5, 8]
    ensures Phase(input)[5] == 4
  {
    assert Sum(input, 6, 1) == 0;
    assert Sum(input, 6, 2) == 0;
    assert Sum(input, 6, 3) == 0;
    assert Sum(input, 6, 4) == 0;
    assert Sum(input, 6, 5) == 0;
    assert Sum(input, 6, 6) == 1;
    assert Sum(input, 6, 7) == 6;
    assert Sum(input, 6, 8) == 14;
    PhaseElement(input, 5, 14);
  }

  lemma ExampleSecondDigit6(input: seq<int>)
    requires input == [4, 8, 2, 2, 6, 1, 5, 8]
    ensures Phase(input)[6] == 3
  {
    assert Sum(input, 7, 1) == 0;
    assert Sum(input, 7, 2) == 0;
    assert Sum(input, 7, 3) == 0;
    assert Sum(input, 7, 4) == 0;
    assert Sum(input, 7, 5) == 0;
    assert Sum(input, 7, 6) == 0;
    assert Sum(input, 7, 7) == 5;
    assert Sum(input, 7, 8) == 13;
    PhaseElement(input, 6, 13);
  }

  lemma ExampleSecondDigit7(input: seq<int>)
    requires input == [4, 8, 2, 2, 6, 1, 5, 8]
    ensures Phase(input)[7] == 8
  {
    assert Sum(input, 8, 1) == 0;
    assert Sum(input, 8, 2) == 0;
    assert Sum(input, 8, 3) == 0;
    assert Sum(input, 8, 4) == 0;
    assert Sum(input, 8, 5) == 0;
    assert Sum(input, 8, 6) == 0;
    assert Sum(input, 8, 7) == 0;
    assert Sum(input, 8, 8) == 8;
    PhaseElement(input, 7, 8);
  }

  /** Phase 3 of the example on 1 to 8. */
  lemma ExampleThirdPhase(input: seq<int>)
    requires input == [3, 4, 0, 4, 0, 4, 3, 8]
    ensures Phase(input) == [0, 3, 4, 1, 5, 5, 1, 8]
  {
    ExampleThirdDigit0(input);
    ExampleThirdDigit1(input);
    ExampleThirdDigit2(input);
    ExampleThirdDigit3(input);
    ExampleThirdDigit4(input);
    ExampleThirdDigit5(input);
    ExampleThirdDigit6(input);
    ExampleThirdDigit7(input);
  }

  lemma ExampleThirdDigit0(input: seq<int>)
    requires input == [3, 4, 0, 4, 0, 4, 3, 8]
    ensures Phase(input)[0] == 0
  {
    assert Sum(input, 1, 1) == 3;
    assert Sum(input, 1, 2) == 3;
    assert Sum(input, 1, 3) == 3;
    assert Sum(input, 1, 4) == 3;
    assert Sum(input, 1, 5) == 3;
    assert Sum(input, 1, 6) == 3;
    assert Sum(input, 1, 7) == 0;
    assert Sum(input, 1, 8) == 0;
    PhaseElement(input, 0, 0);
  }

  lemma ExampleThirdDigit1(input: seq<int>)
    requires input == [3, 4, 0, 4, 0, 4, 3, 8]
    ensures Phase(input)[1] == 3
  {
    assert Sum(input, 2, 1) == 0;
    assert Sum(input, 2, 2) == 4;
    assert Sum(input, 2, 3) == 4;
    assert Sum(input, 2, 4) == 4;
    assert Sum(input, 2, 5) == 4;
    assert Sum(input, 2, 6) == 0;
    assert Sum(input, 2, 7) == -3;
    assert Sum(input, 2, 8) == -3;
    PhaseElement(input, 1, -3);
  }

  lemma ExampleThirdDigit2(input: seq<int>)
    requires input == [3, 4, 0, 4, 0, 4, 3, 8]
    ensures Phase(input)[2] == 4
  {
    assert Sum(input, 3, 1) == 0;
    assert Sum(input, 3, 2) == 0;
    assert Sum(input, 3, 3) == 0;
    assert Sum(input, 3, 4) == 4;
    assert Sum(input, 3, 5) == 4;
    assert Sum(input, 3, 6) == 4;
    assert Sum(input, 3, 7) == 4;
    assert Sum(input, 3, 8) == 4;
    PhaseElement(input, 2, 4);
  }

  lemma ExampleThirdDigit3(input: seq<int>)
    requires input == [3, 4, 0, 4, 0, 4, 3, 8]
    ensures Phase(input)[3] == 1
  {
    assert Sum(input, 4, 1) == 0;
    assert Sum(input, 4, 2) == 0;
    assert Sum(input, 4, 3) == 0;
    assert Sum(input, 4, 4) == 4;
    assert Sum(input, 4, 5) == 4;
    assert Sum(input, 4, 6) == 8;
    assert Sum(input, 4, 7) == 11;
    assert Sum(input, 4, 8) == 11;
    PhaseElement(input, 3, 11);
  }

  lemma ExampleThirdDigit4(input: seq<int>)
    requires input == [3, 4, 0, 4, 0, 4, 3, 8]
    ensures Phase(input)[4] == 5
  {
    assert Sum(input, 5, 1) == 0;
    assert Sum(input, 5, 2) == 0;
    assert Sum(input, 5, 3) == 0;
    assert Sum(input, 5, 4) == 0;
    assert Sum(input, 5, 5) == 0;
    assert Sum(input, 5, 6) == 4;
    assert Sum(input, 5, 7) == 7;
    assert Sum(input, 5, 8) == 15;
    PhaseElement(input, 4, 15);
  }

  lemma ExampleThirdDigit5(input: seq<int>)
    requires input == [3, 4, 0, 4, 0, 4, 3, 8]
    ensures Phase(input)[5] == 5
  {
    assert Sum(input, 6, 1) == 0;
    assert Sum(input, 6, 2) == 0;
    assert Sum(input, 6, 3) == 0;
    assert Sum(input, 6, 4) == 0;
    assert Sum(input, 6, 5) == 0;
    assert Sum(input, 6, 6) == 4;
    assert Sum(input, 6, 7) == 7;
    assert Sum(input, 6, 8) == 15;
    PhaseElement(input, 5, 15);
  }

  lemma ExampleThirdDigit6(input: seq<int>)
    requires input == [3, 4, 0, 4, 0, 4, 3, 8]
    ensures Phase(input)[6] == 1
  {
    assert Sum(input, 7, 1) == 0;
    assert Sum(input, 7, 2) == 0;
    assert Sum(input, 7, 3) == 0;
    assert Sum(input, 7, 4) == 0;
    assert Sum(input, 7, 5) == 0;
    assert Sum(input, 7, 6) == 0;
    assert Sum(input, 7, 7) == 3;
    assert Sum(input, 7, 8) == 11;
    PhaseElement(input, 6, 11);
  }

  lemma ExampleThirdDigit7(input: seq<int>)
    requires input == [3, 4, 0, 4, 0, 4, 3, 8]
    ensures Phase(input)[7] == 8
  {
    assert Sum(input, 8, 1) == 0;
    assert Sum(input, 8, 2) == 0;
    assert Sum(input, 8, 3) == 0;
    assert Sum(input, 8, 4) == 0;
    assert Sum(input, 8, 5) == 0;
    assert Sum(input, 8, 6) == 0;
    assert Sum(input, 8, 7) == 0;
    assert Sum(input, 8, 8) == 8;
    PhaseElement(input, 7, 8);
  }

  /** Phase 4 of the example on 1 to 8. */
  lemma ExampleFourthPhase(input: seq<int>)
    requires input == [0, 3, 4, 1, 5, 5, 1, 8]
    ensures Phase(input) == [0, 1, 0, 2, 9, 4, 9, 8]
  {
    ExampleFourthDigit0(input);
    ExampleFourthDigit1(input);
    ExampleFourthDigit2(input);
    ExampleFourthDigit3(input);
    ExampleFourthDigit4(input);
    ExampleFourthDigit5(input);
    ExampleFourthDigit6(input);
    ExampleFourthDigit7(input);
  }

  lemma ExampleFourthDigit0(input: seq<int>)
    requires input == [0, 3, 4, 1, 5, 5, 1, 8]
    ensures Phase(input)[0] == 0
  {
    assert Sum(input, 1, 1) == 0;
    assert Sum(input, 1, 2) == 0;
    assert Sum(input, 1, 3) == -4;
    assert Sum(input, 1, 4) == -4;
    assert Sum(input, 1, 5) == 1;
    assert Sum(input, 1, 6) == 1;
    assert Sum(input, 1, 7) == 0;
    assert Sum(input, 1, 8) == 0;
    PhaseElement(input, 0, 0);
  }

  lemma ExampleFourthDigit1(input: seq<int>)
    requires input == [0, 3, 4, 1, 5, 5, 1, 8]
    ensures Phase(input)[1] == 1
  {
    assert Sum(input, 2, 1) == 0;
    assert Sum(input, 2, 2) == 3;
    assert Sum(input, 2, 3) == 7;
    assert Sum(input, 2, 4) == 7;
    assert Sum(input, 2, 5) == 7;
    assert Sum(input, 2, 6) == 2;
    assert Sum(input, 2, 7) == 1;
    assert Sum(input, 2, 8) == 1;
    PhaseElement(input, 1, 1);
  }

  lemma ExampleFourthDigit2(input: seq<int>)
    requires input == [0, 3, 4, 1, 5, 5, 1, 8]
    ensures Phase(input)[2] == 0
  {
    assert Sum(input, 3, 1) == 0;
    assert Sum(input, 3, 2) == 0;
    assert Sum(input, 3, 3) == 4;
    assert Sum(input, 3, 4) == 5;
    assert Sum(input, 3, 5) == 10;
    assert Sum(input, 3, 6) == 10;
    assert Sum(input, 3, 7) == 10;
    assert Sum(input, 3, 8) == 10;
    PhaseElement(input, 2, 10);
  }

  lemma ExampleFourthDigit3(input: seq<int>)
    requires input == [0, 3, 4, 1, 5, 5, 1, 8]
    ensures Phase(input)[3] == 2
  {
    assert Sum(input, 4, 1) == 0;
    assert Sum(input, 4, 2) == 0;
    assert Sum(input, 4, 3) == 0;
    assert Sum(input, 4, 4) == 1;
    assert Sum(input, 4, 5) == 6;
    assert Sum(input, 4, 6) == 11;
    assert Sum(input, 4, 7) == 12;
    assert Sum(input, 4, 8) == 12;
    PhaseElement(input, 3, 12);
  }

  lemma ExampleFourthDigit4(input: seq<int>)
    requires input == [0, 3, 4, 1, 5, 5, 1, 8]
    ensures Phase(input)[4] == 9
  {
    assert Sum(input, 5, 1) == 0;
    assert Sum(input, 5, 2) == 0;
    assert Sum(input, 5, 3) == 0;
    assert Sum(input, 5, 4) == 0;
    assert Sum(input, 5, 5) == 5;
    assert Sum(input, 5, 6) == 10;
    assert Sum(input, 5, 7) == 11;
    assert Sum(input, 5, 8) == 19;
    PhaseElement(input, 4, 19);
  }

  lemma ExampleFourthDigit5(input: seq<int>)
    requires input == [0, 3, 4, 1, 5, 5, 1, 8]
    ensures Phase(input)[5] == 4
  {
    assert Sum(input, 6, 1) == 0;
    assert Sum(input, 6, 2) == 0;
    assert Sum(input, 6, 3) == 0;
    assert Sum(input, 6, 4) == 0;
    assert Sum(input, 6, 5) == 0;
    assert Sum(input, 6, 6) == 5;
    assert Sum(input, 6, 7) == 6;
    assert Sum(input, 6, 8) == 14;
    PhaseElement(input, 5, 14);
  }

  lemma ExampleFourthDigit6(input: seq<int>)
    requires input == [0, 3, 4, 1, 5, 5, 1, 8]
    ensures Phase(input)[6] == 9
  {
    assert Sum(input, 7, 1) == 0;
    assert Sum(input, 7, 2) == 0;
    assert Sum(input, 7, 3) == 0;
    assert Sum(input, 7, 4) == 0;
    assert Sum(input, 7, 5) == 0;
    assert Sum(input, 7, 6) == 0;
    assert Sum(input, 7, 7) == 1;
    assert Sum(input, 7, 8) == 9;
    PhaseElement(input, 6, 9);
  }

  lemma ExampleFourthDigit7(input: seq<int>)
    requires input == [0, 3, 4, 1, 5, 5, 1, 8]
    ensures Phase(input)[7] == 8
  {
    assert Sum(input, 8, 1) == 0;
    assert Sum(input, 8, 2) == 0;
    assert Sum(input, 8, 3) == 0;
    assert Sum(input, 8, 4) == 0;
    assert Sum(input, 8, 5) == 0;
    assert Sum(input, 8, 6) == 0;
    assert Sum(input, 8, 7) == 0;
    assert Sum(input, 8, 8) == 8;
    PhaseElement(input, 7, 8);
  }
}
