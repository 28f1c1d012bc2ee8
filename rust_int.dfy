/**
 * Integer operations as Rust performs them on signed operands, and Rust's
 * `Option`.
 *
 * Rust's `/` truncates toward zero and `%` takes the sign of the dividend,
 * whereas Dafny's `/` and `%` are Euclidean (the remainder is never negative).
 * Every source operation whose operands may be negative goes through these.
 */
module RustInt {
  /** `std::option::Option`. */
  datatype Option<T> = None | Some(value: T)

  function Abs(x: int): (r: nat)
    ensures r == x || r == -x
    ensures x >= 0 ==> r == x
  {
    if x < 0 then -x else x
  }

  /** Rust's `a / b`: the quotient rounded toward zero. */
  function TDiv(a: int, b: int): (q: int)
    requires b != 0
    ensures Abs(q) == Abs(a) / Abs(b)
    ensures q != 0 ==> (q > 0 <==> (a > 0) == (b > 0))
  {
    var m := Abs(a) / Abs(b);
    assert 0 <= m by {
      DivNonNegative(Abs(a), Abs(b));
    }
    if (a < 0) == (b < 0) then m else -m
  }

  lemma DivNonNegative(n: nat, d: nat)
    requires d > 0
    ensures n / d >= 0
  {
  }

  /** Rust's `a % b`: the remainder of the truncating division, with the sign of `a`. */
  function TRem(a: int, b: int): (r: int)
    requires b != 0
    ensures a == TDiv(a, b) * b + r
    ensures Abs(r) < Abs(b)
    ensures r == 0 || (r > 0 <==> a > 0)
  {
    var n, d := Abs(a), Abs(b);
    assert a - TDiv(a, b) * b == (if a >= 0 then n % d else -(n % d)) by {
      TruncatedRemainder(a, b);
    }
    a - TDiv(a, b) * b
  }

  /** What is left after the truncating quotient is the magnitudes' remainder, with the sign of `a`. */
  lemma {:induction false} TruncatedRemainder(a: int, b: int)
    requires b != 0
    ensures a - TDiv(a, b) * b == (if a >= 0 then Abs(a) % Abs(b) else -(Abs(a) % Abs(b)))
  {
    var n: int, d: int := Abs(a), Abs(b);
    var m: int := n / d;
    var r: int := n - m * d;
    assert r == n % d;
    if a >= 0 && b > 0 {
      assert a == n && b == d && TDiv(a, b) == m;
    } else if a >= 0 {
      assert a == n && b == -d && TDiv(a, b) == -m;
      assert (-m) * (-d) == m * d;
    } else if b > 0 {
      assert a == -n && b == d && TDiv(a, b) == -m;
      assert (-m) * d == -(m * d);
    } else {
      assert a == -n && b == -d && TDiv(a, b) == m;
      assert m * (-d) == -(m * d);
    }
  }

  /** On a non-negative dividend and positive divisor Rust and Dafny agree. */
  lemma NonNegativeAgrees(a: int, b: int)
    requires a >= 0 && b > 0
    ensures TDiv(a, b) == a / b && TRem(a, b) == a % b
  {
  }

  /** On a negative dividend and positive divisor Rust's quotient and remainder are those of `-a`, negated. */
  lemma NegativeAgrees(a: int, b: int)
    requires a < 0 && b > 0
    ensures TDiv(a, b) == -((-a) / b) && TRem(a, b) == -((-a) % b)
  {
  }

  /** The remainder of a non-positive dividend is never positive, unlike Dafny's `%`. */
  lemma NegativeRemainder(a: int, b: int)
    requires a < 0 && b > 0
    ensures -b < TRem(a, b) <= 0
    ensures TRem(a, b) == -((-a) % b)
  {
  }

  /** The remainder's magnitude is the Euclidean remainder of the magnitudes. */
  lemma RemMagnitude(a: int, b: int)
    requires b != 0
    ensures Abs(TRem(a, b)) == Abs(a) % Abs(b)
  {
    var n, d := Abs(a), Abs(b);
    var q := TDiv(a, b);
    var r := TRem(a, b);
    assert Abs(q * b) == Abs(q) * d;
    assert n == Abs(q) * d + Abs(r) by {
      if a >= 0 {
        assert q * b >= 0;
      } else {
        assert q * b <= 0;
      }
    }
    DivUnique(n, d, Abs(q), Abs(r));
  }

  /** The decimal digits of a natural number, most significant first (`n.to_string()`). */
  function Digits(n: nat): (ds: seq<nat>)
    ensures 1 <= |ds|
    ensures forall i :: 0 <= i < |ds| ==> ds[i] < 10
    ensures n < 10 <==> |ds| == 1
    decreases n
  {
    if n < 10 then [n] else Digits(n / 10) + [n % 10]
  }

  /** The number a digit string denotes. */
  function Value(ds: seq<int>): int
  {
    if |ds| == 0 then 0 else Value(ds[..|ds| - 1]) * 10 + ds[|ds| - 1]
  }

  lemma {:induction false} DigitsValue(n: nat)
    ensures Value(Digits(n)) == n
    decreases n
  {
    if n >= 10 {
      var ds := Digits(n);
      assert ds[..|ds| - 1] == Digits(n / 10);
      DigitsValue(n / 10);
    }
  }

  /** Multiples of a natural number `n` that differ at all differ by at least `n`. */
  lemma MulGap(n: nat, a: int, b: int)
    requires a > b
    ensures n * a - n * b >= n
  {
    var k := a - b;
    assert n * a == n * (b + k) == n * b + n * k;
    assert n * k == n * (k - 1) + n;
    assert n * (k - 1) >= 0;
  }

  /** Euclidean division is unique: a quotient and remainder in range are `a / n` and `a % n`. */
  lemma DivUnique(a: int, n: int, q: int, r: int)
    requires n > 0 && 0 <= r < n && a == n * q + r
    ensures a / n == q && a % n == r
  {
    var q0, r0 := a / n, a % n;
    assert n * q0 + r0 == n * q + r;
    if q0 > q {
      MulGap(n, q0, q);
      assert false;
    } else if q0 < q {
      MulGap(n, q, q0);
      assert false;
    }
  }

  /** Taking `n` off a dividend of at least `n` takes one off the quotient and keeps the remainder. */
  lemma DivStep(a: nat, n: nat)
    requires 0 < n <= a
    ensures a / n == (a - n) / n + 1 && a % n == (a - n) % n
  {
    var q, r := (a - n) / n, (a - n) % n;
    assert a == n * (q + 1) + r;
    DivUnique(a, n, q + 1, r);
  }
}
