/**
 * `gen_combinations` of `src/bin/day7.rs`: every arrangement of the phase
 * settings. For each position `i`, from the last down to the first, it
 * swaps element `i` to the end, pops it, arranges the rest recursively and
 * appends the popped element to each of those arrangements; it then pushes
 * the element back but does not undo the swap.
 */
module Combinations {

  /** `x` without its element at `i`. */
  function Remove(x: seq<int>, i: nat): (r: seq<int>)
    requires i < |x|
    ensures |r| == |x| - 1
    ensures multiset(r) + multiset{x[i]} == multiset(x)
  {
    assert x == x[..i] + [x[i]] + x[i + 1..];
    x[..i] + x[i + 1..]
  }

  /** Each arrangement in `xss` with `e` pushed on its end. */
  function Extend(xss: seq<seq<int>>, e: int): seq<seq<int>>
  {
    seq(|xss|, k requires 0 <= k < |xss| => xss[k] + [e])
  }

  /**
   * What `gen_combinations(x)` returns: `[x]` for one element, otherwise
   * the blocks that `Picks` collects (so nothing at all for no elements).
   */
  function Arrangements(x: seq<int>): seq<seq<int>>
    decreases |x|, 1, 0
  {
    if |x| == 1 then [x] else Picks(x, 0)
  }

  /**
   * The result after the loop has handled positions `|x| - 1` down to `i`:
   * position `i` contributes the arrangements of `x` without `x[i]`, each
   * followed by `x[i]`. (The swaps that are never undone leave exactly
   * those elements in front of the popped one; `SwapStep` proves it.)
   */
  function Picks(x: seq<int>, i: nat): seq<seq<int>>
    requires i <= |x|
    decreases |x|, 0, |x| - i
  {
    if i == |x| then [] else Picks(x, i + 1) + Extend(Arrangements(Remove(x, i)), x[i])
  }

  /** The vector `gen_combinations` works on once position `i` has been swapped to the end. */
  function Swapped(x: seq<int>, i: nat): seq<int>
    requires i < |x|
  {
    Remove(x, i) + [x[i]]
  }

  /**
   * `gen_combinations`, recursion and in-place swaps included: it returns
   * exactly `Arrangements(input)`.
   */
  method GenCombinations(input: seq<int>) returns (res: seq<seq<int>>)
    ensures res == Arrangements(input)
    decreases |input|
  {
    res := [];
    var arr := input;
    var n := |input|;
    if n == 1 {
      res := res + [arr];
      return;
    }
    var i := n;
    while i > 0
      invariant 0 <= i <= n && |arr| == n
      invariant arr == if i == n then input else Swapped(input, i)
      invariant res == Picks(input, i)
      decreases i
    {
      i := i - 1;
      SwapStep(input, i, arr);
      arr := arr[i := arr[n - 1]][n - 1 := arr[i]];
      var now := arr[n - 1];
      arr := arr[..n - 1];
      var combinations := GenCombinations(arr);
      ghost var before := res;
      for k := 0 to |combinations|
        invariant res == before + Extend(combinations[..k], now)
      {
        ExtendSnoc(combinations, k, now);
        res := res + [combinations[k] + [now]];
      }
      assert combinations[..|combinations|] == combinations;
      arr := arr + [now];
    }
  }

  /** Extending one more arrangement appends it, `e` pushed, to the block. */
  lemma ExtendSnoc(xss: seq<seq<int>>, k: nat, e: int)
    requires k < |xss|
    ensures Extend(xss[..k + 1], e) == Extend(xss[..k], e) + [xss[k] + [e]]
  {
  }

  /** The swap of iteration `i` turns the vector left by iteration `i + 1` into `Swapped(x, i)`. */
  lemma SwapStep(x: seq<int>, i: nat, arr: seq<int>)
    requires i < |x| && arr == if i + 1 == |x| then x else Swapped(x, i + 1)
    ensures arr[i := arr[|x| - 1]][|x| - 1 := arr[i]] == Swapped(x, i)
    ensures arr[i := arr[|x| - 1]][|x| - 1 := arr[i]][..|x| - 1] == Remove(x, i)
  {
    var n := |x|;
    var s := arr[i := arr[n - 1]][n - 1 := arr[i]];
    var t := Swapped(x, i);
    forall k | 0 <= k < n
      ensures s[k] == t[k]
    {
      SwappedAt(x, i, k);
      if i + 1 < n {
        SwappedAt(x, i + 1, k);
        SwappedAt(x, i + 1, i);
        SwappedAt(x, i + 1, n - 1);
      }
    }
    assert s == t;
    assert t[..n - 1] == Remove(x, i);
  }

  lemma SwappedAt(x: seq<int>, i: nat, k: nat)
    requires i < |x| && k < |x|
    ensures Swapped(x, i)[k] == if k < i then x[k] else if k < |x| - 1 then x[k + 1] else x[i]
  {
  }

  function Fact(n: nat): (f: nat)
    ensures f >= 1
  {
    if n == 0 then 1 else n * Fact(n - 1)
  }

  /** One element or more: exactly `n!` arrangements. */
  lemma {:induction false} ArrangementsCount(x: seq<int>)
    requires |x| >= 1
    ensures |Arrangements(x)| == Fact(|x|)
    decreases |x|, 1, 0
  {
    if |x| > 1 {
      PicksCount(x, 0);
    }
  }

  lemma {:induction false} PicksCount(x: seq<int>, i: nat)
    requires 2 <= |x| && i <= |x|
    ensures |Picks(x, i)| == (|x| - i) * Fact(|x| - 1)
    decreases |x|, 0, |x| - i
  {
    if i < |x| {
      PicksCount(x, i + 1);
      ArrangementsCount(Remove(x, i));
      var f := Fact(|x| - 1);
      assert |Picks(x, i)| == |Picks(x, i + 1)| + |Arrangements(Remove(x, i))|;
      assert (|x| - i) * f == (|x| - i - 1) * f + f;
    }
  }

  /** Every arrangement is a rearrangement of the input: same length, same elements with the same counts. */
  lemma {:induction false} ArrangementsArePermutations(x: seq<int>)
    ensures forall k :: 0 <= k < |Arrangements(x)| ==> |Arrangements(x)[k]| == |x| && multiset(Arrangements(x)[k]) == multiset(x)
    decreases |x|, 1, 0
  {
    if |x| != 1 {
      PicksArePermutations(x, 0);
    }
  }

  lemma {:induction false} PicksArePermutations(x: seq<int>, i: nat)
    requires i <= |x|
    ensures forall k :: 0 <= k < |Picks(x, i)| ==> |Picks(x, i)[k]| == |x| && multiset(Picks(x, i)[k]) == multiset(x)
    ensures forall k :: 0 <= k < |Picks(x, i)| ==> 0 < |Picks(x, i)[k]| && Picks(x, i)[k][|x| - 1] in x[i..]
    decreases |x|, 0, |x| - i
  {
    if i < |x| {
      PicksArePermutations(x, i + 1);
      var r := Remove(x, i);
      ArrangementsArePermutations(r);
      var a := Arrangements(r);
      var e := Extend(a, x[i]);
      forall k | 0 <= k < |e|
        ensures |e[k]| == |x| && multiset(e[k]) == multiset(x) && e[k][|x| - 1] in x[i..]
      {
        assert multiset(e[k]) == multiset(a[k]) + multiset{x[i]};
        assert x[i..][0] == x[i];
      }
      var p := Picks(x, i + 1);
      forall k | 0 <= k < |p|
        ensures p[k][|x| - 1] in x[i..]
      {
        assert x[i + 1..] == x[i..][1..];
      }
    }
  }

  /** Every rearrangement of a non-empty input is among its arrangements. */
  lemma {:induction false} ArrangementsComplete(x: seq<int>, p: seq<int>)
    requires |x| >= 1 && multiset(p) == multiset(x)
    ensures p in Arrangements(x)
    decreases |x|
  {
    assert |p| == |multiset(p)| == |x|;
    var n := |x|;
    if n == 1 {
      assert p[0] in multiset(x);
      assert p == [p[0]] && x == [x[0]];
    } else {
      var e := p[n - 1];
      assert e in multiset(x);
      var i :| 0 <= i < n && x[i] == e;
      var q := p[..n - 1];
      assert p == q + [e];
      assert multiset(q) == multiset(Remove(x, i)) by {
        assert multiset(p) == multiset(q) + multiset{e};
        assert multiset(x) == multiset(Remove(x, i)) + multiset{e};
        assert multiset(q) == multiset(p) - multiset{e};
      }
      ArrangementsComplete(Remove(x, i), q);
      var a := Arrangements(Remove(x, i));
      var j :| 0 <= j < |a| && a[j] == q;
      assert Extend(a, e)[j] == p;
      PicksInclude(x, 0, i, p);
    }
  }

  /** The block of position `i` is part of what the loop has gathered by any earlier position `j`. */
  lemma {:induction false} PicksInclude(x: seq<int>, j: nat, i: nat, p: seq<int>)
    requires j <= i < |x| && p in Extend(Arrangements(Remove(x, i)), x[i])
    ensures p in Picks(x, j)
    decreases i - j
  {
    if j < i {
      PicksInclude(x, j + 1, i, p);
    }
  }

  predicate Distinct<T(==)>(s: seq<T>)
  {
    forall a, b :: 0 <= a < b < |s| ==> s[a] != s[b]
  }

  /** Distinct inputs give distinct arrangements, so together with the count each rearrangement appears once. */
  lemma {:induction false} ArrangementsDistinct(x: seq<int>)
    requires Distinct(x)
    ensures Distinct(Arrangements(x))
    decreases |x|, 1, 0
  {
    if |x| != 1 {
      PicksDistinct(x, 0);
    }
  }

  lemma {:induction false} PicksDistinct(x: seq<int>, i: nat)
    requires Distinct(x) && i <= |x|
    ensures Distinct(Picks(x, i))
    decreases |x|, 0, |x| - i
  {
    if i < |x| {
      PicksDistinct(x, i + 1);
      var r := Remove(x, i);
      RemoveDistinct(x, i);
      ArrangementsDistinct(r);
      ArrangementsArePermutations(r);
      PicksArePermutations(x, i + 1);
      var p, e := Picks(x, i + 1), Extend(Arrangements(r), x[i]);
      ExtendDistinct(Arrangements(r), x[i]);
      forall a, b | 0 <= a < |p| && 0 <= b < |e|
        ensures p[a] != e[b]
      {
        var m :| 0 <= m < |x[i + 1..]| && x[i + 1..][m] == p[a][|x| - 1];
        assert x[i + 1 + m] == p[a][|x| - 1];
        assert e[b][|x| - 1] == x[i];
      }
      JoinDistinct(p, e);
    }
  }

  lemma RemoveDistinct(x: seq<int>, i: nat)
    requires Distinct(x) && i < |x|
    ensures Distinct(Remove(x, i))
  {
    var r := Remove(x, i);
    forall a, b | 0 <= a < b < |r|
      ensures r[a] != r[b]
    {
      var a', b' := if a < i then a else a + 1, if b < i then b else b + 1;
      assert r[a] == x[a'] && r[b] == x[b'];
    }
  }

  lemma ExtendDistinct(xss: seq<seq<int>>, e: int)
    requires Distinct(xss)
    ensures Distinct(Extend(xss, e))
  {
    var ys := Extend(xss, e);
    forall a, b | 0 <= a < b < |ys|
      ensures ys[a] != ys[b]
    {
      assert ys[a][..|ys[a]| - 1] == xss[a];
      assert ys[b][..|ys[b]| - 1] == xss[b];
    }
  }

  lemma JoinDistinct(p: seq<seq<int>>, e: seq<seq<int>>)
    requires Distinct(p) && Distinct(e)
    requires forall a, b :: 0 <= a < |p| && 0 <= b < |e| ==> p[a] != e[b]
    ensures Distinct(p + e)
  {
    var s := p + e;
    forall a, b | 0 <= a < b < |s|
      ensures s[a] != s[b]
    {
      if b < |p| {
        assert s[a] == p[a] && s[b] == p[b];
      } else if a < |p| {
        assert s[a] == p[a] && s[b] == e[b - |p|];
      } else {
        assert s[a] == e[a - |p|] && s[b] == e[b - |p|];
      }
    }
  }

  /** The combinator test: `[0, 1]` gives `[[0, 1], [1, 0]]`. */
  lemma TwoElements()
    ensures Arrangements([0, 1]) == [[0, 1], [1, 0]]
  {
    assert Remove([0, 1], 1) == [0];
    assert Remove([0, 1], 0) == [1];
    assert Arrangements([0]) == [[0]] && Arrangements([1]) == [[1]];
    assert [0] + [1] == [0, 1] && [1] + [0] == [1, 0];
    assert Extend([[0]], 1)[0] == [0, 1] && Extend([[1]], 0)[0] == [1, 0];
    assert Picks([0, 1], 2) == [];
    assert Picks([0, 1], 1) == [[0, 1]];
    assert Picks([0, 1], 0) == [[0, 1], [1, 0]];
  }
}
