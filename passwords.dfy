/**
 * The password rules of day 4 (`d04/src/main.rs`). A password is checked
 * on the decimal digits of the number, walked from the last digit to the
 * first: the digits must never decrease from left to right, and some
 * adjacent pair must be equal (first rule) or some maximal run of equal
 * digits must have length exactly two (second rule).
 */
module Passwords {
  import opened RustInt

  /** The digits never decrease from left to right. */
  predicate Ascending(ds: seq<nat>)
  {
    forall i :: 0 <= i < |ds| - 1 ==> ds[i] <= ds[i + 1]
  }

  /** Some two adjacent digits are equal. */
  predicate HasPair(ds: seq<nat>)
  {
    exists i :: 0 <= i < |ds| - 1 && ds[i] == ds[i + 1]
  }

  /** Positions `i` and `i + 1` hold a run of equal digits that is exactly two long. */
  predicate ExactPairAt(ds: seq<nat>, i: int)
  {
    && 0 <= i < |ds| - 1
    && ds[i] == ds[i + 1]
    && (i == 0 || ds[i - 1] != ds[i])
    && (i + 2 == |ds| || ds[i + 2] != ds[i])
  }

  /** Some maximal run of equal digits has length exactly two. */
  predicate HasExactPair(ds: seq<nat>)
  {
    exists i :: 0 <= i < |ds| - 1 && ExactPairAt(ds, i)
  }

  /** A never-decreasing digit string is sorted: every digit is at most every later one. */
  lemma {:induction false} AscendingIsSorted(ds: seq<nat>, i: nat, j: nat)
    requires Ascending(ds) && i <= j < |ds|
    ensures ds[i] <= ds[j]
    decreases j - i
  {
    if i < j {
      AscendingIsSorted(ds, i + 1, j);
    }
  }

  /** An exact pair is in particular a pair. */
  lemma ExactPairIsPair(ds: seq<nat>)
    ensures HasExactPair(ds) ==> HasPair(ds)
  {
    if HasExactPair(ds) {
      var i :| 0 <= i < |ds| - 1 && ExactPairAt(ds, i);
      assert ds[i] == ds[i + 1];
    }
  }

  /** `is_pw_valid`: never decreasing, with some adjacent equal pair. */
  method IsPwValid(pw: nat) returns (ok: bool)
    ensures ok <==> Ascending(Digits(pw)) && HasPair(Digits(pw))
  {
    var ds := Digits(pw);
    var pairSeen := false;
    var k := |ds|;
    while k > 0
      invariant 0 <= k <= |ds|
      invariant forall i :: k <= i < |ds| - 1 ==> ds[i] <= ds[i + 1]
      invariant pairSeen <==> exists i :: k <= i < |ds| - 1 && ds[i] == ds[i + 1]
    {
      k := k - 1;
      if k + 1 < |ds| {
        var digit, prev := ds[k], ds[k + 1];
        if digit > prev {
          return false;
        }
        if digit == prev {
          pairSeen := true;
        }
      }
    }
    return pairSeen;
  }

  /** Some maximal run exactly two long starts at `lo` or later. */
  predicate PairFrom(ds: seq<nat>, lo: nat)
  {
    exists i :: lo <= i < |ds| - 1 && ExactPairAt(ds, i)
  }

  /** The digits from `k` on begin with a maximal run of `cnt` equal digits. */
  ghost predicate RunAt(ds: seq<nat>, k: nat, cnt: nat)
  {
    && k < |ds| && 1 <= cnt && k + cnt <= |ds|
    && (forall j :: k <= j < k + cnt ==> ds[j] == ds[k])
    && (k + cnt == |ds| || ds[k + cnt] != ds[k])
  }

  /**
   * Once the run starting at `k` is complete (nothing equal precedes it),
   * an exact pair at `k` or later is either that run, if it is two long, or
   * lies beyond it.
   */
  lemma ClosedRun(ds: seq<nat>, k: nat, cnt: nat)
    requires RunAt(ds, k, cnt) && (k == 0 || ds[k - 1] != ds[k])
    ensures PairFrom(ds, k) <==> PairFrom(ds, k + cnt) || cnt == 2
  {
    if cnt == 2 {
      assert ExactPairAt(ds, k);
    }
    if PairFrom(ds, k) {
      var i :| k <= i < |ds| - 1 && ExactPairAt(ds, i);
      if i < k + cnt {
        assert i == k;
      }
    }
  }

  /** A digit equal to the next one extends the run that starts there. */
  lemma RunGrows(ds: seq<nat>, k: nat, cnt: nat)
    requires RunAt(ds, k + 1, cnt) && ds[k] == ds[k + 1]
    ensures RunAt(ds, k, cnt + 1)
  {
  }

  /** A digit different from the next one is a run of its own. */
  lemma RunStarts(ds: seq<nat>, k: nat)
    requires k + 1 < |ds| && ds[k] != ds[k + 1]
    ensures RunAt(ds, k, 1)
  {
  }

  /** `is_pw_valid2`: never decreasing, with some run of equal digits exactly two long. */
  method IsPwValid2(pw: nat) returns (ok: bool)
    ensures ok <==> Ascending(Digits(pw)) && HasExactPair(Digits(pw))
  {
    var ds := Digits(pw);
    var pairSeen := false;
    var cnt := 1;
    var k := |ds|;
    while k > 0
      invariant 0 <= k <= |ds|
      invariant forall i :: k <= i < |ds| - 1 ==> ds[i] <= ds[i + 1]
      invariant k < |ds| ==> RunAt(ds, k, cnt)
      invariant k == |ds| ==> cnt == 1 && !pairSeen
      invariant pairSeen <==> PairFrom(ds, k + cnt)
    {
      k := k - 1;
      if k + 1 < |ds| {
        var digit, prev := ds[k], ds[k + 1];
        if digit > prev {
          return false;
        }
        if digit == prev {
          RunGrows(ds, k, cnt);
          cnt := cnt + 1;
        } else {
          ClosedRun(ds, k + 1, cnt);
          RunStarts(ds, k);
          if cnt == 2 {
            pairSeen := true;
          }
          cnt := 1;
        }
      }
    }
    ClosedRun(ds, 0, cnt);
    return pairSeen || cnt == 2;
  }

  /** The two rules. */
  datatype Rule = AnyPair | ExactPair

  predicate Valid(rule: Rule, pw: nat)
  {
    var ds := Digits(pw);
    Ascending(ds) && if rule == AnyPair then HasPair(ds) else HasExactPair(ds)
  }

  /** `main`'s count of the valid passwords in `lo..hi`. */
  function CountValid(rule: Rule, lo: nat, hi: nat): (n: nat)
    ensures n <= if lo <= hi then hi - lo else 0
    decreases hi
  {
    if hi <= lo then 0 else CountValid(rule, lo, hi - 1) + if Valid(rule, hi - 1) then 1 else 0
  }

  /** The count is the number of valid passwords in the range. */
  lemma CountValidIsCardinality(rule: Rule, lo: nat, hi: nat)
    ensures CountValid(rule, lo, hi) == |set pw: nat | lo <= pw < hi && Valid(rule, pw)|
  {
    CountAmong(rule, lo, hi);
    assert (set pw: nat | lo <= pw < hi && Valid(rule, pw)) == Among(Checker(rule), lo, hi);
  }

  /** `Valid` under one rule, as a function value. */
  ghost function Checker(rule: Rule): nat -> bool
  {
    (pw: nat) => Valid(rule, pw)
  }

  lemma {:induction false} CountAmong(rule: Rule, lo: nat, hi: nat)
    ensures CountValid(rule, lo, hi) == |Among(Checker(rule), lo, hi)|
    decreases hi
  {
    if lo < hi {
      CountAmong(rule, lo, hi - 1);
      AmongTop(Checker(rule), lo, hi);
    } else {
      AmongEmpty(Checker(rule), lo, hi);
    }
  }

  /** The numbers in `lo..hi` that `ok` accepts. */
  ghost function Among(ok: nat -> bool, lo: nat, hi: nat): set<nat>
  {
    set pw: nat | lo <= pw < hi && ok(pw)
  }

  lemma AmongEmpty(ok: nat -> bool, lo: nat, hi: nat)
    requires hi <= lo
    ensures |Among(ok, lo, hi)| == 0
  {
    assert Among(ok, lo, hi) == {};
  }

  /** Taking in `hi - 1` adds one element exactly when `ok` accepts it. */
  lemma AmongTop(ok: nat -> bool, lo: nat, hi: nat)
    requires lo < hi
    ensures |Among(ok, lo, hi)| == |Among(ok, lo, hi - 1)| + if ok(hi - 1) then 1 else 0
  {
    if ok(hi - 1) {
      assert Among(ok, lo, hi) == Among(ok, lo, hi - 1) + {hi - 1};
    } else {
      assert Among(ok, lo, hi) == Among(ok, lo, hi - 1);
    }
  }

  /** Appending a digit to a positive number appends it to the digit string. */
  lemma DigitsPush(n: nat, d: nat)
    requires 1 <= n && d < 10
    ensures Digits(n * 10 + d) == Digits(n) + [d]
  {
    assert (n * 10 + d) / 10 == n && (n * 10 + d) % 10 == d;
  }

  /** The digit string of a six-digit number, spelled out. */
  lemma SixDigits(n: nat, a: nat, b: nat, c: nat, d: nat, e: nat, f: nat)
    requires 1 <= a < 10 && b < 10 && c < 10 && d < 10 && e < 10 && f < 10
    requires n == ((((a * 10 + b) * 10 + c) * 10 + d) * 10 + e) * 10 + f
    ensures Digits(n) == [a, b, c, d, e, f]
  {
    DigitsPush(a, b);
    assert Digits(a * 10 + b) == [a, b];
    DigitsPush(a * 10 + b, c);
    assert Digits((a * 10 + b) * 10 + c) == [a, b, c];
    DigitsPush((a * 10 + b) * 10 + c, d);
    assert Digits(((a * 10 + b) * 10 + c) * 10 + d) == [a, b, c, d];
    DigitsPush(((a * 10 + b) * 10 + c) * 10 + d, e);
    assert Digits((((a * 10 + b) * 10 + c) * 10 + d) * 10 + e) == [a, b, c, d, e];
    DigitsPush((((a * 10 + b) * 10 + c) * 10 + d) * 10 + e, f);
  }

  /** 111111 is valid under the first rule. */
  lemma FirstValid()
    ensures Valid(AnyPair, 111111)
  {
    SixDigits(111111, 1, 1, 1, 1, 1, 1);
    assert Digits(111111)[0] == Digits(111111)[1];
  }

  /** 223450 is invalid: its digits decrease. */
  lemma FirstDecreasing()
    ensures !Valid(AnyPair, 223450)
  {
    SixDigits(223450, 2, 2, 3, 4, 5, 0);
    assert Digits(223450)[4] > Digits(223450)[5];
  }

  /** 123789 is invalid: no two adjacent digits are equal. */
  lemma FirstNoPair()
    ensures !Valid(AnyPair, 123789)
  {
    SixDigits(123789, 1, 2, 3, 7, 8, 9);
  }

  /** 112233 is valid under the second rule. */
  lemma Second112233()
    ensures Valid(ExactPair, 112233)
  {
    SixDigits(112233, 1, 1, 2, 2, 3, 3);
    assert ExactPairAt(Digits(112233), 0);
  }

  /** 123444 is invalid under the second rule: its only run is three long. */
  lemma Second123444()
    ensures !Valid(ExactPair, 123444)
  {
    SixDigits(123444, 1, 2, 3, 4, 4, 4);
  }

  /** 111122 is valid under the second rule: the run of 2s is exactly two long. */
  lemma Second111122()
    ensures Valid(ExactPair, 111122)
  {
    SixDigits(111122, 1, 1, 1, 1, 2, 2);
    assert ExactPairAt(Digits(111122), 4);
  }

  /** 133345 is invalid under the second rule. */
  lemma Second133345()
    ensures !Valid(ExactPair, 133345)
  {
    SixDigits(133345, 1, 3, 3, 3, 4, 5);
  }

  /** 133445 is valid under the second rule. */
  lemma Second133445()
    ensures Valid(ExactPair, 133445)
  {
    SixDigits(133445, 1, 3, 3, 4, 4, 5);
    assert ExactPairAt(Digits(133445), 1);
  }

  /** 112345 is valid under the second rule. */
  lemma Second112345()
    ensures Valid(ExactPair, 112345)
  {
    SixDigits(112345, 1, 1, 2, 3, 4, 5);
    assert ExactPairAt(Digits(112345), 0);
  }
}
