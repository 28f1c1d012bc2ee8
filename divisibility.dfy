/**
 * Euclid's algorithm and the least common multiple, as `gcd_euclid` and
 * `lcm` compute them on unsigned integers (`src/bin/day12.rs`), and the
 * signed variant with Rust's truncating `%` (`src/bin/day10.rs`).
 */
module Divisibility {
  import opened RustInt

  /** `d` divides `n`: `n` is `d` times some integer. */
  predicate Divides(d: int, n: int)
  {
    if d == 0 then n == 0 else n % Abs(d) == 0
  }

  /** A witness `k` with `n == d * k` shows that `d` divides `n`. */
  lemma DividesBy(d: int, n: int, k: int)
    requires n == d * k
    ensures Divides(d, n)
  {
    if d > 0 {
      DivUnique(n, d, k, 0);
    } else if d < 0 {
      assert n == (-d) * (-k);
      DivUnique(n, -d, -k, 0);
    }
  }

  /** The quotient of an exact division is a witness. */
  lemma Quotient(d: int, n: int) returns (k: int)
    requires Divides(d, n)
    ensures n == d * k
  {
    if d == 0 {
      k := 0;
    } else if d > 0 {
      k := n / d;
    } else {
      assert n == (-d) * (n / (-d)) + n % (-d);
      k := -(n / (-d));
    }
  }

  /** `gcd_euclid` on unsigned integers. */
  function Gcd(a: nat, b: nat): (g: nat)
    ensures g == 0 <==> a == 0 && b == 0
    decreases b
  {
    if b == 0 then a else Gcd(b, a % b)
  }

  /** The divisibility facts behind one step of Euclid's algorithm. */
  lemma RemainderStep(a: nat, b: nat, d: int)
    requires b > 0 && Divides(d, b)
    ensures Divides(d, a) <==> Divides(d, a % b)
  {
    var p := Quotient(d, b);
    var m := a / b;
    assert a == b * m + a % b;
    assert b * m == d * (p * m);
    if Divides(d, a) {
      var k := Quotient(d, a);
      assert a % b == d * (k - p * m);
      DividesBy(d, a % b, k - p * m);
    }
    if Divides(d, a % b) {
      var k := Quotient(d, a % b);
      assert a == d * (p * m + k);
      DividesBy(d, a, p * m + k);
    }
  }

  /** The result divides both arguments. */
  lemma {:induction false} GcdDivides(a: nat, b: nat)
    ensures Divides(Gcd(a, b), a) && Divides(Gcd(a, b), b)
    decreases b
  {
    if b == 0 {
      DividesBy(a, a, 1);
      DividesBy(a, 0, 0);
    } else {
      GcdDivides(b, a % b);
      RemainderStep(a, b, Gcd(a, b));
    }
  }

  /** Every common divisor of the arguments divides the result. */
  lemma {:induction false} GcdGreatest(a: nat, b: nat, d: int)
    requires Divides(d, a) && Divides(d, b)
    ensures Divides(d, Gcd(a, b))
    decreases b
  {
    if b > 0 {
      RemainderStep(a, b, d);
      GcdGreatest(b, a % b, d);
    }
  }

  /** Bezout's identity: the result is an integer combination of the arguments. */
  lemma {:induction false} Bezout(a: nat, b: nat) returns (x: int, y: int)
    ensures a * x + b * y == Gcd(a, b)
    decreases b
  {
    if b == 0 {
      x, y := 1, 0;
    } else {
      var x', y' := Bezout(b, a % b);
      var m := a / b;
      assert a % b == a - b * m;
      assert b * x' + (a - b * m) * y' == a * y' + b * (x' - m * y');
      x, y := y', x' - m * y';
    }
  }

  /**
   * `lcm`: the product divided by the gcd. The gcd is non-zero because one
   * argument is; the day-12 fold (`LcmFold`) only passes positive periods.
   */
  function Lcm(a: nat, b: nat): (l: nat)
    requires a != 0 || b != 0
    ensures l * Gcd(a, b) == a * b
    ensures a > 0 && b > 0 ==> l > 0
  {
    var g := Gcd(a, b);
    GcdDivides(a, b);
    var k := a / g;
    assert a == g * k + a % g;
    assert a * b == g * (k * b);
    DivUnique(a * b, g, k * b, 0);
    assert a > 0 && b > 0 ==> a * b > 0 by {
      if a > 0 && b > 0 {
        MulGap(a, b, 0);
      }
    }
    a * b / g
  }

  /** The result is a common multiple of the arguments. */
  lemma LcmMultiple(a: nat, b: nat)
    requires a != 0 || b != 0
    ensures Divides(a, Lcm(a, b)) && Divides(b, Lcm(a, b))
  {
    var g := Gcd(a, b);
    var l := Lcm(a, b);
    GcdDivides(a, b);
    var i := Quotient(g, a);
    var j := Quotient(g, b);
    assert l * g == g * (i * b) == g * (a * j);
    assert l == i * b && l == a * j by {
      CancelFactor(g, l, i * b);
      CancelFactor(g, l, a * j);
    }
    DividesBy(a, l, j);
    DividesBy(b, l, i);
  }

  /** Every common multiple of the arguments is a multiple of the result. */
  lemma LcmLeast(a: nat, b: nat, m: int)
    requires a != 0 || b != 0
    requires Divides(a, m) && Divides(b, m)
    ensures Divides(Lcm(a, b), m)
  {
    var g := Gcd(a, b);
    var l := Lcm(a, b);
    var x, y := Bezout(a, b);
    var j := Quotient(a, m);
    var k := Quotient(b, m);
    // m * g == m * (a x + b y) == (b k) a x + (a j) b y == a b (k x + j y)
    var t := k * x + j * y;
    ScaleCombination(a, b, m, j, k, x, y);
    assert m * g == (a * b) * t;
    assert a * b == l * g;
    CancelScaled(m, g, l, t);
    DividesBy(l, m, t);
  }

  /** From `m g == (l g) t` with `g` non-zero, `m == l t`. */
  lemma CancelScaled(m: int, g: int, l: int, t: int)
    requires g != 0 && m * g == (l * g) * t
    ensures m == l * t
  {
    assert g * m == g * (l * t);
    CancelFactor(g, m, l * t);
  }

  /** A non-zero factor cancels. */
  lemma CancelFactor(g: int, u: int, v: int)
    requires g != 0 && g * u == g * v
    ensures u == v
  {
    if g > 0 {
      DivUnique(g * u, g, u, 0);
      DivUnique(g * v, g, v, 0);
    } else {
      assert (-g) * u == (-g) * v;
      DivUnique((-g) * u, -g, u, 0);
      DivUnique((-g) * v, -g, v, 0);
    }
  }

  /** Multiplying the Bezout combination by a common multiple. */
  lemma ScaleCombination(a: int, b: int, m: int, j: int, k: int, x: int, y: int)
    requires m == a * j && m == b * k
    ensures m * (a * x + b * y) == (a * b) * (k * x + j * y)
  {
    calc {
      m * (a * x + b * y);
    ==
      m * (a * x) + m * (b * y);
    == { assert m * (a * x) == (b * k) * (a * x); }
      (a * b) * (k * x) + m * (b * y);
    == { assert m * (b * y) == (a * j) * (b * y); }
      (a * b) * (k * x) + (a * b) * (j * y);
    }
  }

  /** The part-two fold: the first period, combined with each later one by `Lcm`. */
  function LcmFold(acc: nat, periods: seq<nat>): (l: nat)
    requires acc > 0 && forall i :: 0 <= i < |periods| ==> periods[i] > 0
    ensures l > 0
    ensures Divides(acc, l)
    ensures forall i :: 0 <= i < |periods| ==> Divides(periods[i], l)
    decreases |periods|
  {
    if |periods| == 0 then
      DividesBy(acc, acc, 1);
      acc
    else
      LcmMultiple(acc, periods[0]);
      var next := Lcm(acc, periods[0]);
      var l := LcmFold(next, periods[1..]);
      DividesTransitive(acc, next, l);
      DividesTransitive(periods[0], next, l);
      assert forall i :: 1 <= i < |periods| ==> periods[i] == periods[1..][i - 1];
      l
  }

  /** The fold is the least common multiple: it divides every common multiple of its inputs. */
  lemma {:induction false} LcmFoldLeast(acc: nat, periods: seq<nat>, m: int)
    requires acc > 0 && forall i :: 0 <= i < |periods| ==> periods[i] > 0
    requires Divides(acc, m) && forall i :: 0 <= i < |periods| ==> Divides(periods[i], m)
    ensures Divides(LcmFold(acc, periods), m)
    decreases |periods|
  {
    if |periods| > 0 {
      LcmLeast(acc, periods[0], m);
      assert forall i :: 0 <= i < |periods[1..]| ==> periods[1..][i] == periods[i + 1];
      LcmFoldLeast(Lcm(acc, periods[0]), periods[1..], m);
    }
  }

  lemma DividesTransitive(a: int, b: int, c: int)
    requires Divides(a, b) && Divides(b, c)
    ensures Divides(a, c)
  {
    var i := Quotient(a, b);
    var j := Quotient(b, c);
    assert c == a * (i * j);
    DividesBy(a, c, i * j);
  }

  /** `gcd_euclid` on `i32`, with Rust's truncating `%`. */
  function GcdT(a: int, b: int): (g: int)
    decreases Abs(b)
  {
    if b == 0 then a else GcdT(b, TRem(a, b))
  }

  /** Up to sign, the signed algorithm computes the gcd of the magnitudes. */
  lemma {:induction false} GcdTMagnitude(a: int, b: int)
    ensures Abs(GcdT(a, b)) == Gcd(Abs(a), Abs(b))
    decreases Abs(b)
  {
    if b != 0 {
      RemMagnitude(a, b);
      GcdTMagnitude(b, TRem(a, b));
    }
  }
}
