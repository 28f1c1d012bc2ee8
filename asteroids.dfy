/**
 * The asteroid belt of day 10 (`src/bin/day10.rs`): asteroids are the `#`
 * cells of a grid; from an asteroid, every other one is seen along the
 * direction of their difference reduced by the gcd of its components, and
 * the asteroids seen are the distinct such directions.
 */
module Asteroids {
  import opened RustInt
  import opened Divisibility
  import Text

  /** `Vec2D`: a grid position, or the difference of two. */
  datatype Vec2D = Vec2D(x: int, y: int)
  {
    /** The `-` operator, componentwise. */
    function Sub(other: Vec2D): Vec2D
    {
      Vec2D(x - other.x, y - other.y)
    }
  }

  const ORIGIN := Vec2D(0, 0)

  /** The error `i32::try_from` reports for a column or row past `i32::MAX`. */
  datatype BeltError = CoordinateOverflow

  datatype Result<T> = Ok(value: T) | Err(error: BeltError)

  /** The gcd of the components' magnitudes: 0 only for the zero vector. */
  function Size(v: Vec2D): (g: nat)
    ensures g == 0 <==> v == ORIGIN
  {
    Gcd(Abs(v.x), Abs(v.y))
  }

  /**
   * `normalize`: both components divided, truncating, by the magnitude of
   * `gcd_euclid` of the components; the zero vector would divide by zero.
   */
  function Normalize(v: Vec2D): (n: Vec2D)
    requires v != ORIGIN
    ensures v.x == Size(v) * n.x && v.y == Size(v) * n.y
  {
    var g := Abs(GcdT(v.x, v.y));
    GcdTMagnitude(v.x, v.y);
    GcdDivides(Abs(v.x), Abs(v.y));
    Vec2D(ExactQuotient(v.x, g), ExactQuotient(v.y, g))
  }

  /** Rust's `a / g` when `g` is positive and divides `a`: the division is exact. */
  function ExactQuotient(a: int, g: int): (q: int)
    requires g > 0 && Divides(g, Abs(a))
    ensures a == g * q
  {
    var k := Abs(a) / g;
    assert Abs(a) == g * k + Abs(a) % g;
    assert a == g * (if a < 0 then -k else k);
    TDiv(a, g)
  }

  /** A vector whose components have no common factor but 1. */
  predicate Primitive(n: Vec2D)
  {
    Size(n) == 1
  }

  /** The reduced direction shares no factor with itself: it cannot be reduced further. */
  lemma NormalizePrimitive(v: Vec2D)
    requires v != ORIGIN
    ensures Primitive(Normalize(v))
  {
    var n, g := Normalize(v), Size(v);
    var x, y := Bezout(Abs(v.x), Abs(v.y));
    AbsScale(g, n.x);
    AbsScale(g, n.y);
    Distribute(g, Abs(n.x), x, Abs(n.y), y);
    CancelFactor(g, Abs(n.x) * x + Abs(n.y) * y, 1);
    GcdDivides(Abs(n.x), Abs(n.y));
    CombinationDivides(Size(n), Abs(n.x), Abs(n.y), x, y);
    DividesOne(Size(n));
  }

  lemma AbsScale(g: nat, a: int)
    ensures Abs(g * a) == g * Abs(a)
  {
    if a < 0 {
      assert g * a == -(g * (-a));
      MulGap(g, -a, 0);
    } else {
      MulGap(g, a + 1, 0);
      assert g * (a + 1) == g * a + g;
    }
  }

  lemma Distribute(g: int, p: int, x: int, q: int, y: int)
    ensures g * (p * x + q * y) == (g * p) * x + (g * q) * y
    ensures p * (g * x) + q * (g * y) == g * (p * x + q * y)
  {
  }

  /** A common divisor of two numbers divides every integer combination of them. */
  lemma CombinationDivides(d: int, a: int, b: int, x: int, y: int)
    requires Divides(d, a) && Divides(d, b)
    ensures Divides(d, a * x + b * y)
  {
    var i := Quotient(d, a);
    var j := Quotient(d, b);
    assert a * x + b * y == d * (i * x + j * y);
    DividesBy(d, a * x + b * y, i * x + j * y);
  }

  lemma DividesOne(h: nat)
    requires h > 0 && Divides(h, 1)
    ensures h == 1
  {
    if h > 1 {
      DivUnique(1, h, 0, 1);
    }
  }

  /** Integer coefficients that combine the components of a primitive vector to 1. */
  lemma PrimitiveBezout(n: Vec2D) returns (s: int, t: int)
    requires Primitive(n)
    ensures n.x * s + n.y * t == 1
  {
    var x, y := Bezout(Abs(n.x), Abs(n.y));
    s := if n.x < 0 then -x else x;
    t := if n.y < 0 then -y else y;
    assert n.x * s == Abs(n.x) * x && n.y * t == Abs(n.y) * y;
  }

  /** The cross product: zero when the vectors are parallel. */
  function Cross(u: Vec2D, v: Vec2D): int
  {
    u.x * v.y - u.y * v.x
  }

  /** The dot product: positive when the vectors point the same way. */
  function Dot(u: Vec2D, v: Vec2D): int
  {
    u.x * v.x + u.y * v.y
  }

  /** `u` and `v` lie on one ray from the origin: parallel, and not opposite. */
  predicate SameRay(u: Vec2D, v: Vec2D)
  {
    Cross(u, v) == 0 && Dot(u, v) > 0
  }

  /** A vector parallel to one whose components combine to 1 is an integer multiple of it. */
  lemma ParallelMultiple(n: Vec2D, m: Vec2D, s: int, t: int)
    requires n.x * s + n.y * t == 1 && Cross(n, m) == 0
    ensures m.x == (m.x * s + m.y * t) * n.x && m.y == (m.x * s + m.y * t) * n.y
  {
    var k := m.x * s + m.y * t;
    calc {
      k * n.x;
    ==
      m.x * (s * n.x) + t * (m.y * n.x);
    == { assert m.y * n.x == n.y * m.x; }
      m.x * (s * n.x) + t * (n.y * m.x);
    ==
      m.x * (n.x * s + n.y * t);
    }
    calc {
      k * n.y;
    ==
      s * (m.x * n.y) + m.y * (t * n.y);
    == { assert m.x * n.y == n.x * m.y; }
      s * (n.x * m.y) + m.y * (t * n.y);
    ==
      m.y * (n.x * s + n.y * t);
    }
  }

  /** Two primitive vectors on one ray are equal. */
  lemma PrimitiveUnique(n: Vec2D, m: Vec2D)
    requires Primitive(n) && Primitive(m) && SameRay(n, m)
    ensures n == m
  {
    var s, t := PrimitiveBezout(n);
    ParallelMultiple(n, m, s, t);
    var k := m.x * s + m.y * t;
    Distribute(k, n.x, n.x, n.y, n.y);
    assert Dot(n, m) == k * Dot(n, n);
    SquaresPositive(n);
    PositiveFactor(Dot(n, n), k);
    AbsScale(k, n.x);
    AbsScale(k, n.y);
    DividesBy(k, Abs(m.x), Abs(n.x));
    DividesBy(k, Abs(m.y), Abs(n.y));
    GcdGreatest(Abs(m.x), Abs(m.y), k);
    DividesOne(k);
  }

  /** A non-zero vector has a positive length. */
  lemma SquaresPositive(n: Vec2D)
    requires n != ORIGIN
    ensures Dot(n, n) > 0
  {
    if n.x != 0 {
      MulGap(Abs(n.x), Abs(n.x), 0);
      assert n.x * n.x == Abs(n.x) * Abs(n.x);
    } else {
      MulGap(Abs(n.y), Abs(n.y), 0);
      assert n.y * n.y == Abs(n.y) * Abs(n.y);
    }
  }

  /** Scaling both vectors by positive factors keeps them on one ray or off it. */
  lemma ScaledRay(a: int, n: Vec2D, b: int, m: Vec2D)
    requires a > 0 && b > 0
    ensures SameRay(Vec2D(a * n.x, a * n.y), Vec2D(b * m.x, b * m.y)) <==> SameRay(n, m)
  {
    var u, v := Vec2D(a * n.x, a * n.y), Vec2D(b * m.x, b * m.y);
    assert Cross(u, v) == (a * b) * Cross(n, m);
    assert Dot(u, v) == (a * b) * Dot(n, m);
    MulGap(a, b, 0);
    PositiveFactor(a * b, Cross(n, m));
    PositiveFactor(a * b, Dot(n, m));
  }

  lemma PositiveFactor(c: int, z: int)
    requires c > 0
    ensures c * z == 0 <==> z == 0
    ensures c * z > 0 <==> z > 0
  {
    if z > 0 {
      MulGap(c, z, 0);
    } else if z < 0 {
      MulGap(c, 0, z);
    }
  }

  /**
   * Two asteroids are seen in the same direction exactly when their
   * differences from the observer lie on one ray.
   */
  lemma SameDirection(u: Vec2D, v: Vec2D)
    requires u != ORIGIN && v != ORIGIN
    ensures Normalize(u) == Normalize(v) <==> SameRay(u, v)
  {
    var n, m := Normalize(u), Normalize(v);
    assert u == Vec2D(Size(u) * n.x, Size(u) * n.y);
    assert v == Vec2D(Size(v) * m.x, Size(v) * m.y);
    ScaledRay(Size(u), n, Size(v), m);
    NormalizePrimitive(u);
    NormalizePrimitive(v);
    if SameRay(n, m) {
      PrimitiveUnique(n, m);
    }
    if n == m {
      assert n != ORIGIN;
      SquaresPositive(n);
    }
  }

  /** The `#` cells of one line, as positions in row `y`, left to right. */
  function RowCells(line: string, y: int): (ps: seq<Vec2D>)
    ensures |ps| <= |line|
  {
    if |line| == 0 then []
    else
      var x := |line| - 1;
      RowCells(line[..x], y) + (if line[x] == '#' then [Vec2D(x, y)] else [])
  }

  /** The `#` cells of all the lines, row by row. */
  function Cells(lines: seq<string>): seq<Vec2D>
  {
    if |lines| == 0 then []
    else
      var y := |lines| - 1;
      Cells(lines[..y]) + RowCells(lines[y], y)
  }

  /** Every `#` of row `y` has a column and a row that fit in an `i32`. */
  predicate RowFits(line: string, y: int)
  {
    forall x :: 0 <= x < |line| && line[x] == '#' ==> x <= Text.I32_MAX && y <= Text.I32_MAX
  }

  predicate Fits(lines: seq<string>)
  {
    forall y :: 0 <= y < |lines| ==> RowFits(lines[y], y)
  }

  /** The positions of a row are exactly its `#` cells. */
  lemma {:induction false} RowCellsMembers(line: string, y: int, p: Vec2D)
    ensures p in RowCells(line, y) <==> p.y == y && 0 <= p.x < |line| && line[p.x] == '#'
  {
    if |line| != 0 {
      var x := |line| - 1;
      RowCellsMembers(line[..x], y, p);
    }
  }

  /** `create_asteroids` finds an asteroid exactly at each `#`, at its column and line number. */
  lemma {:induction false} CellsMembers(lines: seq<string>, p: Vec2D)
    ensures p in Cells(lines) <==> 0 <= p.y < |lines| && 0 <= p.x < |lines[p.y]| && lines[p.y][p.x] == '#'
  {
    if |lines| != 0 {
      var y := |lines| - 1;
      CellsMembers(lines[..y], p);
      RowCellsMembers(lines[y], y, p);
    }
  }

  /** One more character adds a position when it is a `#`. */
  lemma RowCellsSnoc(line: string, y: int, c: char)
    ensures RowCells(line + [c], y) == RowCells(line, y) + (if c == '#' then [Vec2D(|line|, y)] else [])
  {
    assert (line + [c])[..|line|] == line;
  }

  /** One more line adds its `#` cells after those of the lines above. */
  lemma CellsSnoc(lines: seq<string>, line: string)
    ensures Cells(lines + [line]) == Cells(lines) + RowCells(line, |lines|)
  {
    assert (lines + [line])[..|lines|] == lines;
  }

  /** `a` comes before `b` in reading order: an earlier line, or further left on the same line. */
  predicate Before(a: Vec2D, b: Vec2D)
  {
    a.y < b.y || (a.y == b.y && a.x < b.x)
  }

  predicate RowMajor(ps: seq<Vec2D>)
  {
    forall i, j :: 0 <= i < j < |ps| ==> Before(ps[i], ps[j])
  }

  lemma {:induction false} RowCellsOrdered(line: string, y: int)
    ensures RowMajor(RowCells(line, y))
  {
    if |line| != 0 {
      var x := |line| - 1;
      RowCellsOrdered(line[..x], y);
      var front := RowCells(line[..x], y);
      forall i | 0 <= i < |front|
        ensures front[i].y == y && front[i].x < x
      {
        RowCellsMembers(line[..x], y, front[i]);
      }
    }
  }

  /** The asteroids come in reading order, so no position appears twice. */
  lemma {:induction false} CellsOrdered(lines: seq<string>)
    ensures RowMajor(Cells(lines))
  {
    if |lines| != 0 {
      var y := |lines| - 1;
      CellsOrdered(lines[..y]);
      RowCellsOrdered(lines[y], y);
      var front, row := Cells(lines[..y]), RowCells(lines[y], y);
      forall i | 0 <= i < |front|
        ensures front[i].y < y
      {
        CellsMembers(lines[..y], front[i]);
      }
      forall j | 0 <= j < |row|
        ensures row[j].y == y
      {
        RowCellsMembers(lines[y], y, row[j]);
      }
    }
  }

  /**
   * `create_asteroids` on the lines of the input: an asteroid for each `#`,
   * row by row and left to right, or an error at the first `#` whose
   * column or line number does not fit in an `i32`.
   */
  method ScanBelt(lines: seq<string>) returns (r: Result<seq<Vec2D>>)
    ensures r.Ok? <==> Fits(lines)
    ensures r.Ok? ==> r.value == Cells(lines)
  {
    var belt := [];
    var y := 0;
    while y < |lines|
      invariant 0 <= y <= |lines|
      invariant Fits(lines[..y]) && belt == Cells(lines[..y])
    {
      var line := lines[y];
      var x := 0;
      while x < |line|
        invariant 0 <= x <= |line|
        invariant RowFits(line[..x], y) && belt == Cells(lines[..y]) + RowCells(line[..x], y)
      {
        assert line[..x + 1][..x] == line[..x];
        if line[x] == '#' {
          if x > Text.I32_MAX || y > Text.I32_MAX {
            assert !RowFits(lines[y], y);
            return Err(CoordinateOverflow);
          }
          belt := belt + [Vec2D(x, y)];
        }
        x := x + 1;
      }
      assert line[..x] == line;
      assert lines[..y + 1][..y] == lines[..y];
      y := y + 1;
    }
    assert lines[..y] == lines;
    r := Ok(belt);
  }

  /** `create_asteroids`: the belt described by the lines of the input. */
  method CreateAsteroids(input: string) returns (r: Result<seq<Vec2D>>)
    ensures r.Ok? <==> Fits(Text.Lines(input))
    ensures r.Ok? ==> r.value == Cells(Text.Lines(input))
  {
    r := ScanBelt(Text.Lines(input));
  }

  /** The reduced direction of a positive multiple of a primitive vector is that vector. */
  lemma NormalizeOf(v: Vec2D, g: int, n: Vec2D)
    requires g > 0 && v == Vec2D(g * n.x, g * n.y) && Primitive(n)
    ensures v != ORIGIN && Normalize(v) == n
  {
    assert n != ORIGIN;
    PositiveFactor(g, n.x);
    PositiveFactor(g, n.y);
    var m := Normalize(v);
    assert v == Vec2D(Size(v) * m.x, Size(v) * m.y);
    SquaresPositive(v);
    ScaledRay(g, n, Size(v), m);
    NormalizePrimitive(v);
    PrimitiveUnique(n, m);
  }

  /** `compute_visible`'s set: the reduced directions to every asteroid other than `origin`. */
  function Directions(origin: Vec2D, asteroids: seq<Vec2D>): (ds: set<Vec2D>)
    ensures |ds| <= |asteroids|
  {
    if |asteroids| == 0 then {}
    else
      var n := |asteroids| - 1;
      var a := asteroids[n];
      var front := Directions(origin, asteroids[..n]);
      if a == origin then front else front + {Normalize(a.Sub(origin))}
  }

  /** A direction is counted exactly when some asteroid other than the observer lies along it. */
  lemma {:induction false} DirectionsMembers(origin: Vec2D, asteroids: seq<Vec2D>, d: Vec2D)
    ensures d in Directions(origin, asteroids) <==>
      exists a :: a in asteroids && a != origin && Normalize(a.Sub(origin)) == d
  {
    if |asteroids| != 0 {
      var n := |asteroids| - 1;
      DirectionsMembers(origin, asteroids[..n], d);
      assert asteroids == asteroids[..n] + [asteroids[n]];
    }
  }

  /** One more asteroid adds its direction unless it is the observer. */
  lemma DirectionsSnoc(origin: Vec2D, asteroids: seq<Vec2D>, a: Vec2D)
    ensures Directions(origin, asteroids + [a]) ==
      if a == origin then Directions(origin, asteroids) else Directions(origin, asteroids) + {Normalize(a.Sub(origin))}
  {
    assert (asteroids + [a])[..|asteroids|] == asteroids;
  }

  /** The `k`-th asteroid, a positive multiple of the primitive `n` away, adds the direction `n`. */
  lemma DirectionsStep(origin: Vec2D, asteroids: seq<Vec2D>, k: nat, g: int, n: Vec2D)
    requires k < |asteroids| && g > 0 && Primitive(n)
    requires asteroids[k].Sub(origin) == Vec2D(g * n.x, g * n.y)
    ensures Directions(origin, asteroids[..k + 1]) == Directions(origin, asteroids[..k]) + {n}
  {
    NormalizeOf(asteroids[k].Sub(origin), g, n);
    assert asteroids[..k + 1] == asteroids[..k] + [asteroids[k]];
    DirectionsSnoc(origin, asteroids[..k], asteroids[k]);
  }

  /** The observer itself adds no direction. */
  lemma DirectionsSelf(origin: Vec2D, asteroids: seq<Vec2D>, k: nat)
    requires k < |asteroids| && asteroids[k] == origin
    ensures Directions(origin, asteroids[..k + 1]) == Directions(origin, asteroids[..k])
  {
    assert asteroids[..k + 1] == asteroids[..k] + [asteroids[k]];
    DirectionsSnoc(origin, asteroids[..k], asteroids[k]);
  }

  /** `compute_visible`: how many directions hold an asteroid, seen from `origin`. */
  function ComputeVisible(origin: Vec2D, asteroids: seq<Vec2D>): (count: nat)
    ensures count <= |asteroids|
  {
    |Directions(origin, asteroids)|
  }

  /** `part_one`'s fold: the largest count over the candidates, starting from 0. */
  function MostVisible(asteroids: seq<Vec2D>, candidates: seq<Vec2D>): (best: nat)
    ensures forall i :: 0 <= i < |candidates| ==> ComputeVisible(candidates[i], asteroids) <= best
    ensures |candidates| == 0 ==> best == 0
    ensures |candidates| != 0 ==> exists i :: 0 <= i < |candidates| && best == ComputeVisible(candidates[i], asteroids)
  {
    if |candidates| == 0 then 0
    else
      var n := |candidates| - 1;
      var front := MostVisible(asteroids, candidates[..n]);
      var last := ComputeVisible(candidates[n], asteroids);
      assert forall i :: 0 <= i < n ==> candidates[i] == candidates[..n][i];
      if front < last then last else front
  }

  /**
   * `part_one` on the text of the input: the most asteroids any asteroid
   * sees, or the error of `create_asteroids`.
   */
  method PartOne(input: string) returns (r: Result<nat>)
    ensures r.Ok? <==> Fits(Text.Lines(input))
    ensures r.Ok? ==> r.value == MostVisible(Cells(Text.Lines(input)), Cells(Text.Lines(input)))
  {
    var belt := CreateAsteroids(input);
    if belt.Err? {
      return Err(belt.error);
    }
    var asteroids := belt.value;
    r := Ok(MostVisible(asteroids, asteroids));
  }

  /** The first example map, line by line. */
  const EXAMPLE1: seq<string> := [".#..#", ".....", "#####", "....#", "...##"]

  /** Its asteroids, in reading order. */
  const EXAMPLE1_BELT: seq<Vec2D> := [Vec2D(1, 0), Vec2D(4, 0), Vec2D(0, 2), Vec2D(1, 2), Vec2D(2, 2), Vec2D(3, 2), Vec2D(4, 2), Vec2D(4, 3), Vec2D(3, 4), Vec2D(4, 4)]

  lemma Example1Row0To3()
    ensures RowCells(".#.", 0) == [Vec2D(1, 0)]
  {
    RowCellsSnoc("", 0, '.');
    assert "" + ['.'] == ".";
    RowCellsSnoc(".", 0, '#');
    assert "." + ['#'] == ".#";
    RowCellsSnoc(".#", 0, '.');
    assert ".#" + ['.'] == ".#.";
  }

  lemma Example1Row0()
    ensures RowCells(".#..#", 0) == [Vec2D(1, 0), Vec2D(4, 0)]
  {
    Example1Row0To3();
    RowCellsSnoc(".#.", 0, '.');
    assert ".#." + ['.'] == ".#..";
    RowCellsSnoc(".#..", 0, '#');
    assert ".#.." + ['#'] == ".#..#";
  }

  lemma Example1Row1To3()
    ensures RowCells("...", 1) == []
  {
    RowCellsSnoc("", 1, '.');
    assert "" + ['.'] == ".";
    RowCellsSnoc(".", 1, '.');
    assert "." + ['.'] == "..";
    RowCellsSnoc("..", 1, '.');
    assert ".." + ['.'] == "...";
  }

  lemma Example1Row1()
    ensures RowCells(".....", 1) == []
  {
    Example1Row1To3();
    RowCellsSnoc("...", 1, '.');
    assert "..." + ['.'] == "....";
    RowCellsSnoc("....", 1, '.');
    assert "...." + ['.'] == ".....";
  }

  lemma Example1Row2To3()
    ensures RowCells("###", 2) == [Vec2D(0, 2), Vec2D(1, 2), Vec2D(2, 2)]
  {
    RowCellsSnoc("", 2, '#');
    assert "" + ['#'] == "#";
    RowCellsSnoc("#", 2, '#');
    assert "#" + ['#'] == "##";
    RowCellsSnoc("##", 2, '#');
    assert "##" + ['#'] == "###";
  }

  lemma Example1Row2()
    ensures RowCells("#####", 2) == [Vec2D(0, 2), Vec2D(1, 2), Vec2D(2, 2), Vec2D(3, 2), Vec2D(4, 2)]
  {
    Example1Row2To3();
    RowCellsSnoc("###", 2, '#');
    assert "###" + ['#'] == "####";
    RowCellsSnoc("####", 2, '#');
    assert "####" + ['#'] == "#####";
  }

  lemma Example1Row3To3()
    ensures RowCells("...", 3) == []
  {
    RowCellsSnoc("", 3, '.');
    assert "" + ['.'] == ".";
    RowCellsSnoc(".", 3, '.');
    assert "." + ['.'] == "..";
    RowCellsSnoc("..", 3, '.');
    assert ".." + ['.'] == "...";
  }

  lemma Example1Row3()
    ensures RowCells("....#", 3) == [Vec2D(4, 3)]
  {
    Example1Row3To3();
    RowCellsSnoc("...", 3, '.');
    assert "..." + ['.'] == "....";
    RowCellsSnoc("....", 3, '#');
    assert "...." + ['#'] == "....#";
  }

  lemma Example1Row4To3()
    ensures RowCells("...", 4) == []
  {
    RowCellsSnoc("", 4, '.');
    assert "" + ['.'] == ".";
    RowCellsSnoc(".", 4, '.');
    assert "." + ['.'] == "..";
    RowCellsSnoc("..", 4, '.');
    assert ".." + ['.'] == "...";
  }

  lemma Example1Row4()
    ensures RowCells("...##", 4) == [Vec2D(3, 4), Vec2D(4, 4)]
  {
    Example1Row4To3();
    RowCellsSnoc("...", 4, '#');
    assert "..." + ['#'] == "...#";
    RowCellsSnoc("...#", 4, '#');
    assert "...#" + ['#'] == "...##";
  }

  /** `create_asteroids` on the first example. */
  lemma Example1Belt()
    ensures Cells(EXAMPLE1) == EXAMPLE1_BELT
  {
    Example1Row0();
    assert EXAMPLE1[..1] == EXAMPLE1[..0] + [".#..#"];
    CellsSnoc(EXAMPLE1[..0], ".#..#");
    assert Cells(EXAMPLE1[..1]) == [Vec2D(1, 0), Vec2D(4, 0)];
    Example1Row1();
    assert EXAMPLE1[..2] == EXAMPLE1[..1] + ["....."];
    CellsSnoc(EXAMPLE1[..1], ".....");
    assert Cells(EXAMPLE1[..2]) == [Vec2D(1, 0), Vec2D(4, 0)];
    Example1Row2();
    assert EXAMPLE1[..3] == EXAMPLE1[..2] + ["#####"];
    CellsSnoc(EXAMPLE1[..2], "#####");
    assert Cells(EXAMPLE1[..3]) == [Vec2D(1, 0), Vec2D(4, 0), Vec2D(0, 2), Vec2D(1, 2), Vec2D(2, 2), Vec2D(3, 2), Vec2D(4, 2)];
    Example1Row3();
    assert EXAMPLE1[..4] == EXAMPLE1[..3] + ["....#"];
    CellsSnoc(EXAMPLE1[..3], "....#");
    assert Cells(EXAMPLE1[..4]) == [Vec2D(1, 0), Vec2D(4, 0), Vec2D(0, 2), Vec2D(1, 2), Vec2D(2, 2), Vec2D(3, 2), Vec2D(4, 2), Vec2D(4, 3)];
    Example1Row4();
    assert EXAMPLE1[..5] == EXAMPLE1[..4] + ["...##"];
    CellsSnoc(EXAMPLE1[..4], "...##");
    assert Cells(EXAMPLE1[..5]) == [Vec2D(1, 0), Vec2D(4, 0), Vec2D(0, 2), Vec2D(1, 2), Vec2D(2, 2), Vec2D(3, 2), Vec2D(4, 2), Vec2D(4, 3), Vec2D(3, 4), Vec2D(4, 4)];
    assert EXAMPLE1[..5] == EXAMPLE1;
  }
}
