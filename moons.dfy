/**
 * The moons of day 12 (`src/bin/day12.rs`): each moon has a position and
 * a velocity; every time step first pulls each velocity one unit toward
 * every other moon on each axis, then moves each moon by its velocity.
 */
module Moons {
  import opened RustInt
  import Text

  datatype MoonError = InvalidInputLine | InvalidNumber | WrongNumOfMoons

  datatype Result<T> = Ok(value: T) | Err(error: MoonError)

  /** `Vec3D`: a point or velocity in space. */
  datatype Vec3D = Vec3D(x: int, y: int, z: int)
  {
    /** The `+` operator, componentwise. */
    function Add(other: Vec3D): Vec3D
    {
      Vec3D(x + other.x, y + other.y, z + other.z)
    }

    function Neg(): Vec3D
    {
      Vec3D(-x, -y, -z)
    }

    /** `norm_l1`: the sum of the magnitudes of the components. */
    function NormL1(): (n: int)
      ensures n >= 0
      ensures n == 0 <==> this == Vec3D(0, 0, 0)
    {
      Abs(x) + Abs(y) + Abs(z)
    }
  }

  const ZERO := Vec3D(0, 0, 0)

  /** `compute_gravity_1d`: the change a moon at `p2` makes to the velocity of a moon at `p1`. */
  function Gravity1D(p1: int, p2: int): (g: int)
    ensures -1 <= g <= 1
    ensures g > 0 <==> p2 > p1
    ensures g < 0 <==> p2 < p1
  {
    if p2 > p1 then 1 else if p2 < p1 then -1 else 0
  }

  /** The pull is mutual: each moon gains what the other loses. */
  lemma GravityAntisymmetric(p1: int, p2: int)
    ensures Gravity1D(p1, p2) == -Gravity1D(p2, p1)
  {
  }

  /** The velocity change one moon at `q` makes to a moon at `p`, on every axis. */
  function Attract(p: Vec3D, q: Vec3D): Vec3D
  {
    Vec3D(Gravity1D(p.x, q.x), Gravity1D(p.y, q.y), Gravity1D(p.z, q.z))
  }

  /** The velocity change the moons at `qs` make to a moon at `p`, added up in order. */
  function Pull(p: Vec3D, qs: seq<Vec3D>): Vec3D
  {
    if |qs| == 0 then ZERO else Pull(p, qs[..|qs| - 1]).Add(Attract(p, qs[|qs| - 1]))
  }

  /** The state of one moon, as a value. */
  datatype Body = Body(pos: Vec3D, vel: Vec3D)

  function Positions(bs: seq<Body>): (ps: seq<Vec3D>)
    ensures |ps| == |bs| && forall i :: 0 <= i < |bs| ==> ps[i] == bs[i].pos
  {
    seq(|bs|, i requires 0 <= i < |bs| => bs[i].pos)
  }

  /**
   * The other moons, in the order the queue holds them when moon `k` has
   * been popped from its front: those after `k`, then those before it.
   */
  function Others(bs: seq<Body>, k: nat): seq<Body>
    requires k < |bs|
  {
    bs[k + 1..] + bs[..k]
  }

  /** Moon `k` after gravity: its velocity changed by the pull of the other moons. */
  function Accelerate(bs: seq<Body>, k: nat): (b: Body)
    requires k < |bs|
    ensures b.pos == bs[k].pos
  {
    Body(bs[k].pos, bs[k].vel.Add(Pull(bs[k].pos, Positions(Others(bs, k)))))
  }

  /** One time step: gravity from the positions before the step, then velocity. */
  function Step(bs: seq<Body>): (next: seq<Body>)
    ensures |next| == |bs|
  {
    seq(|bs|, k requires 0 <= k < |bs| =>
      var b := Accelerate(bs, k);
      Body(b.pos.Add(b.vel), b.vel))
  }

  function Steps(bs: seq<Body>, n: nat): (r: seq<Body>)
    ensures |r| == |bs|
  {
    if n == 0 then bs else Step(Steps(bs, n - 1))
  }

  /** The sum of the moons' velocities. */
  function Momentum(bs: seq<Body>): Vec3D
  {
    if |bs| == 0 then ZERO else Momentum(bs[..|bs| - 1]).Add(bs[|bs| - 1].vel)
  }

  /** Gravity only moves momentum between moons: a step leaves the total velocity unchanged. */
  lemma MomentumConserved(bs: seq<Body>)
    ensures Momentum(Step(bs)) == Momentum(bs)
  {
    StepVelocities(bs);
    MutualPulls(Step(bs), bs);
  }

  /** Velocities that each gained the pull of every moon add up to the same total. */
  lemma MutualPulls(after: seq<Body>, before: seq<Body>)
    requires |after| == |before|
    requires forall k :: 0 <= k < |after| ==> after[k].vel == before[k].vel.Add(Pull(before[k].pos, Positions(before)))
    ensures Momentum(after) == Momentum(before)
  {
    var ps := Positions(before);
    var m, c := Momentum(before), Cross(ps, ps);
    MomentumShift(after, before, ps, ps);
    CrossAntisymmetric(ps, ps);
    SelfOpposite(m, c);
  }

  /** Adding a vector that is its own opposite changes nothing. */
  lemma SelfOpposite(m: Vec3D, c: Vec3D)
    requires c == c.Neg()
    ensures m.Add(c) == m
  {
  }

  /** A step adds to each velocity the pull of all the moons, itself included. */
  lemma StepVelocities(bs: seq<Body>)
    ensures forall k :: 0 <= k < |bs| ==> Step(bs)[k].vel == bs[k].vel.Add(Pull(bs[k].pos, Positions(bs)))
  {
    forall k | 0 <= k < |bs|
      ensures Step(bs)[k].vel == bs[k].vel.Add(Pull(bs[k].pos, Positions(bs)))
    {
      PullOthers(bs, k);
    }
  }

  /**
   * When each velocity of `after` is that of `before` plus the pull of `qs`
   * on the matching moon of `ps`, the sums differ by all those pulls.
   */
  lemma {:induction false} MomentumShift(after: seq<Body>, before: seq<Body>, ps: seq<Vec3D>, qs: seq<Vec3D>)
    requires |after| == |before| == |ps|
    requires forall k :: 0 <= k < |after| ==> after[k].vel == before[k].vel.Add(Pull(ps[k], qs))
    ensures Momentum(after) == Momentum(before).Add(Cross(ps, qs))
    decreases |after|
  {
    if |after| != 0 {
      var n := |after| - 1;
      MomentumShift(after[..n], before[..n], ps[..n], qs);
      var m, c, v, pull := Momentum(before[..n]), Cross(ps[..n], qs), before[n].vel, Pull(ps[n], qs);
      assert Momentum(after) == Momentum(after[..n]).Add(after[n].vel);
      assert Momentum(before) == m.Add(v);
      assert Cross(ps, qs) == c.Add(pull);
      Regroup(m, c, v, pull);
    } else {
      assert before == [] && ps == [];
      assert Momentum(after) == ZERO && Momentum(before) == ZERO && Cross(ps, qs) == ZERO;
    }
  }

  /** The pull of one more moon adds its attraction. */
  lemma PullSnoc(p: Vec3D, qs: seq<Vec3D>, i: nat)
    requires i < |qs|
    ensures Pull(p, qs[..i + 1]) == Pull(p, qs[..i]).Add(Attract(p, qs[i]))
  {
    assert qs[..i + 1][..i] == qs[..i];
  }

  lemma Associative(a: Vec3D, b: Vec3D, c: Vec3D)
    ensures a.Add(b).Add(c) == a.Add(b.Add(c))
  {
  }

  /** `(m + c) + (v + p) == (m + v) + (c + p)`. */
  lemma Regroup(m: Vec3D, c: Vec3D, v: Vec3D, p: Vec3D)
    ensures m.Add(c).Add(v.Add(p)) == m.Add(v).Add(c.Add(p))
  {
  }

  /** The pulls of a list of moons, concatenated, add up. */
  lemma {:induction false} PullAppend(p: Vec3D, a: seq<Vec3D>, b: seq<Vec3D>)
    ensures Pull(p, a + b) == Pull(p, a).Add(Pull(p, b))
  {
    if |b| != 0 {
      PullAppend(p, a, b[..|b| - 1]);
      assert (a + b)[..|a + b| - 1] == a + b[..|b| - 1];
    } else {
      assert a + b == a;
    }
  }

  /** A moon does not pull itself, so the other moons pull it as all moons do. */
  lemma PullOthers(bs: seq<Body>, k: nat)
    requires k < |bs|
    ensures Pull(bs[k].pos, Positions(Others(bs, k))) == Pull(bs[k].pos, Positions(bs))
  {
    OthersPositions(bs, k);
    PullRotated(Positions(bs), k);
  }

  /** The moons after `k` then those before it pull moon `k` as all the moons do. */
  lemma PullRotated(ps: seq<Vec3D>, k: nat)
    requires k < |ps|
    ensures Pull(ps[k], ps[k + 1..] + ps[..k]) == Pull(ps[k], ps)
  {
    var p, before, after := ps[k], ps[..k], ps[k + 1..];
    calc {
      Pull(p, after + before);
    == { PullAppend(p, after, before); }
      Pull(p, after).Add(Pull(p, before));
    ==
      Pull(p, before).Add(ZERO).Add(Pull(p, after));
    == { PullOne(p, p); }
      Pull(p, before).Add(Pull(p, [p])).Add(Pull(p, after));
    == { PullAppend(p, before, [p]); }
      Pull(p, before + [p]).Add(Pull(p, after));
    == { PullAppend(p, before + [p], after); }
      Pull(p, before + [p] + after);
    == { Pick(ps, k); }
      Pull(p, ps);
    }
  }

  lemma PullOne(p: Vec3D, q: Vec3D)
    ensures Pull(p, [q]) == Attract(p, q)
  {
    assert [q][..0] == [];
  }

  lemma OthersPositions(bs: seq<Body>, k: nat)
    requires k < |bs|
    ensures Positions(Others(bs, k)) == Positions(bs)[k + 1..] + Positions(bs)[..k]
  {
  }

  /** A sequence is the part before index `k`, the element at `k`, and the rest. */
  lemma Pick<T>(s: seq<T>, k: nat)
    requires k < |s|
    ensures s == s[..k] + [s[k]] + s[k + 1..]
  {
  }

  /** Every moon of `ps` pulled toward all of `qs`, added up. */
  function Cross(ps: seq<Vec3D>, qs: seq<Vec3D>): Vec3D
  {
    if |ps| == 0 then ZERO else Cross(ps[..|ps| - 1], qs).Add(Pull(ps[|ps| - 1], qs))
  }

  /** Every moon of `qs` pulled toward `p`, added up. */
  function Toward(qs: seq<Vec3D>, p: Vec3D): Vec3D
  {
    if |qs| == 0 then ZERO else Toward(qs[..|qs| - 1], p).Add(Attract(qs[|qs| - 1], p))
  }

  /** What `p` gains from `qs` is what `qs` lose to `p`. */
  lemma {:induction false} TowardIsPull(qs: seq<Vec3D>, p: Vec3D)
    ensures Toward(qs, p) == Pull(p, qs).Neg()
  {
    if |qs| != 0 {
      TowardIsPull(qs[..|qs| - 1], p);
      var q := qs[|qs| - 1];
      GravityAntisymmetric(q.x, p.x);
      GravityAntisymmetric(q.y, p.y);
      GravityAntisymmetric(q.z, p.z);
    }
  }

  /** One more moon in `ps` adds its pull on each of `qs`. */
  lemma {:induction false} CrossAppend(qs: seq<Vec3D>, ps: seq<Vec3D>, p: Vec3D)
    ensures Cross(qs, ps + [p]) == Cross(qs, ps).Add(Toward(qs, p))
  {
    if |qs| != 0 {
      var init, q := qs[..|qs| - 1], qs[|qs| - 1];
      calc {
        Cross(qs, ps + [p]);
      ==
        Cross(init, ps + [p]).Add(Pull(q, ps + [p]));
      == { CrossAppend(init, ps, p); PullAppend(q, ps, [p]); PullOne(q, p); }
        Cross(init, ps).Add(Toward(init, p)).Add(Pull(q, ps).Add(Attract(q, p)));
      ==
        Cross(init, ps).Add(Pull(q, ps)).Add(Toward(init, p).Add(Attract(q, p)));
      ==
        Cross(qs, ps).Add(Toward(qs, p));
      }
    } else {
      assert Cross(qs, ps + [p]) == ZERO && Cross(qs, ps) == ZERO && Toward(qs, p) == ZERO;
    }
  }

  /** The pulls between two groups of moons cancel: each pair pulls equally and oppositely. */
  lemma {:induction false} CrossAntisymmetric(ps: seq<Vec3D>, qs: seq<Vec3D>)
    ensures Cross(ps, qs) == Cross(qs, ps).Neg()
  {
    if |ps| == 0 {
      ZeroCross(qs);
    } else {
      var init, p := ps[..|ps| - 1], ps[|ps| - 1];
      Snoc(ps);
      CrossAntisymmetric(init, qs);
      CrossAppend(qs, init, p);
      TowardIsPull(qs, p);
    }
  }

  /** A non-empty sequence is its front followed by its last element. */
  lemma Snoc<T>(s: seq<T>)
    requires s != []
    ensures s == s[..|s| - 1] + [s[|s| - 1]]
  {
  }

  /** Nobody pulls toward no moon at all. */
  lemma {:induction false} ZeroCross(qs: seq<Vec3D>)
    ensures Cross(qs, []) == ZERO
  {
    if |qs| != 0 {
      ZeroCross(qs[..|qs| - 1]);
    }
  }

  /** `get_energy`: potential energy times kinetic energy. */
  function Energy(b: Body): (e: int)
    ensures e >= 0
    ensures e == 0 <==> b.pos == ZERO || b.vel == ZERO
  {
    MulZero(b.pos.NormL1(), b.vel.NormL1());
    b.pos.NormL1() * b.vel.NormL1()
  }

  lemma MulZero(a: nat, b: nat)
    ensures a * b >= 0
    ensures a * b == 0 <==> a == 0 || b == 0
  {
    if a > 0 && b > 0 {
      MulGap(a, b, 0);
    }
  }

  /** The sum of the moons' energies. */
  function TotalEnergy(bs: seq<Body>): (e: int)
    ensures e >= 0
  {
    if |bs| == 0 then 0 else TotalEnergy(bs[..|bs| - 1]) + Energy(bs[|bs| - 1])
  }

  /** `Moon`: a moon whose velocity and position are updated in place. */
  class Moon {
    var pos: Vec3D
    var vel: Vec3D

    /** `Moon::from`: a moon at rest at the given position. */
    constructor (p: Vec3D)
      ensures pos == p && vel == ZERO
    {
      pos := p;
      vel := ZERO;
    }

    /** `apply_gravity`: adds the pull of each of `others` to the velocity; the position stays. */
    method ApplyGravity(others: seq<Moon>)
      modifies this
      ensures pos == old(pos)
      ensures vel == old(vel).Add(Pull(old(pos), Positions(old(States(others)))))
    {
      ghost var ps := Positions(States(others));
      assert forall j :: 0 <= j < |others| ==> others[j].pos == ps[j];
      var i := 0;
      while i < |others|
        invariant 0 <= i <= |others|
        invariant pos == old(pos)
        invariant forall j :: 0 <= j < |others| ==> others[j].pos == ps[j]
        invariant vel == old(vel).Add(Pull(pos, ps[..i]))
      {
        PullSnoc(pos, ps, i);
        Associative(old(vel), Pull(pos, ps[..i]), Attract(pos, ps[i]));
        vel := vel.Add(Attract(pos, others[i].pos));
        i := i + 1;
      }
      assert ps[..|others|] == ps;
    }

    /** `apply_velocity`: moves by the velocity, which stays. */
    method ApplyVelocity()
      modifies this
      ensures pos == old(pos).Add(old(vel)) && vel == old(vel)
    {
      pos := pos.Add(vel);
    }

    /** `get_energy`. */
    function GetEnergy(): (e: int)
      reads this
      ensures e == Energy(Body(pos, vel))
    {
      pos.NormL1() * vel.NormL1()
    }
  }

  /** The states of a queue of moons. */
  function States(ms: seq<Moon>): (bs: seq<Body>)
    reads set m | m in ms
    ensures |bs| == |ms| && forall i :: 0 <= i < |ms| ==> bs[i] == Body(ms[i].pos, ms[i].vel)
  {
    if |ms| == 0 then [] else [Body(ms[0].pos, ms[0].vel)] + States(ms[1..])
  }

  /**
   * `extract`: the `i32` after the first `=` of a `name=value` field, up to
   * any later `=`. A field without `=` is `InvalidInputLine`; a value that
   * is not an `i32` is `InvalidNumber`.
   */
  function Extract(assignment: string): (r: Result<int>)
    ensures r == Err(InvalidInputLine) <==> |Text.Split(assignment, '=')| < 2
    ensures r == Err(InvalidNumber) <==>
      |Text.Split(assignment, '=')| >= 2 && Text.ParseInt(Text.Split(assignment, '=')[1], Text.I32_MIN, Text.I32_MAX).None?
    ensures r.Ok? ==>
      |Text.Split(assignment, '=')| >= 2 && Text.ParseInt(Text.Split(assignment, '=')[1], Text.I32_MIN, Text.I32_MAX) == Some(r.value)
  {
    var parts := Text.Split(assignment, '=');
    if |parts| < 2 then Err(InvalidInputLine)
    else match Text.ParseInt(parts[1], Text.I32_MIN, Text.I32_MAX)
      case None => Err(InvalidNumber)
      case Some(n) => Ok(n)
  }

  /** A field fails as `InvalidInputLine` exactly when it holds no `=`. */
  lemma ExtractNoEquals(assignment: string)
    ensures Extract(assignment) == Err(InvalidInputLine) <==> '=' !in assignment
  {
    Text.SplitFound(assignment, '=');
  }

  /** The brackets around a line. */
  const ANGLES: set<char> := {'<', '>'}

  /** The comma-separated fields of a line, inside its angle brackets, each trimmed. */
  function Fields(line: string): seq<string>
  {
    TrimEach(Text.Split(Text.TrimMatches(line, ANGLES), ','))
  }

  /** Each piece trimmed of white space. */
  function TrimEach(pieces: seq<string>): (r: seq<string>)
    ensures |r| == |pieces| && forall k :: 0 <= k < |pieces| ==> r[k] == Text.Trim(pieces[k])
  {
    if |pieces| == 0 then [] else [Text.Trim(pieces[0])] + TrimEach(pieces[1..])
  }

  /**
   * `?` applied in order to a sequence of results: all the values when every
   * result is `Ok`, otherwise the error of the first result that is not.
   */
  function Collect<T>(rs: seq<Result<T>>): (r: Result<seq<T>>)
    ensures r.Ok? <==> forall k :: 0 <= k < |rs| ==> rs[k].Ok?
    ensures r.Ok? ==> |r.value| == |rs| && forall k :: 0 <= k < |rs| ==> rs[k] == Ok(r.value[k])
    ensures r.Err? ==> exists k :: 0 <= k < |rs| && rs[k] == Err(r.error) && forall j :: 0 <= j < k ==> rs[j].Ok?
  {
    if |rs| == 0 then Ok([])
    else match rs[0]
      case Err(e) => Err(e)
      case Ok(v) =>
        assert forall i :: 1 <= i < |rs| ==> rs[i] == rs[1..][i - 1];
        match Collect(rs[1..])
        case Err(e) =>
          var k :| 0 <= k < |rs| - 1 && rs[1..][k] == Err(e) && forall j :: 0 <= j < k ==> rs[1..][j].Ok?;
          assert rs[k + 1] == Err(e);
          Err(e)
        case Ok(vs) => Ok([v] + vs)
  }

  /** `Collect` on three results, case by case. */
  lemma CollectThree<T>(rs: seq<Result<T>>)
    requires |rs| == 3
    ensures Collect(rs).Ok? <==> rs[0].Ok? && rs[1].Ok? && rs[2].Ok?
    ensures Collect(rs).Ok? ==> Collect(rs).value == [rs[0].value, rs[1].value, rs[2].value]
    ensures Collect(rs).Err? ==> Collect(rs).error == if rs[0].Err? then rs[0].error else if rs[1].Err? then rs[1].error else rs[2].error
  {
    assert rs[1..][1..] == [rs[2]];
  }

  /** The coordinate extracted from each field. */
  function Coordinates(fields: seq<string>): (cs: seq<Result<int>>)
    ensures |cs| == |fields| && forall k :: 0 <= k < |fields| ==> cs[k] == Extract(fields[k])
  {
    if |fields| == 0 then [] else [Extract(fields[0])] + Coordinates(fields[1..])
  }

  /**
   * `line_to_vec`: a line `<x=.., y=.., z=..>` read as a position. It needs
   * exactly three fields; they are extracted in order, and the first that
   * fails gives the error (`LineToVecOk`, `LineToVecError`).
   */
  function LineToVec(line: string): (r: Result<Vec3D>)
    ensures |Fields(line)| != 3 ==> r == Err(InvalidInputLine)
  {
    var fields := Fields(line);
    if |fields| != 3 then Err(InvalidInputLine)
    else match Collect(Coordinates(fields))
      case Err(e) => Err(e)
      case Ok(v) => Ok(Vec3D(v[0], v[1], v[2]))
  }

  /** A line is read exactly when it has three fields and each extracts. */
  lemma LineToVecOk(line: string)
    ensures LineToVec(line).Ok? <==>
              |Fields(line)| == 3 && Extract(Fields(line)[0]).Ok? && Extract(Fields(line)[1]).Ok? && Extract(Fields(line)[2]).Ok?
  {
    var fields := Fields(line);
    if |fields| == 3 {
      var cs := Coordinates(fields);
      assert cs[0] == Extract(fields[0]) && cs[1] == Extract(fields[1]) && cs[2] == Extract(fields[2]);
      CollectThree(cs);
    }
  }

  /** A line that is read holds the values of its three fields, in order. */
  lemma LineToVecValue(line: string)
    requires LineToVec(line).Ok?
    ensures |Fields(line)| == 3
    ensures var fs := Fields(line);
      LineToVec(line).value == Vec3D(Extract(fs[0]).value, Extract(fs[1]).value, Extract(fs[2]).value)
  {
    var fields := Fields(line);
    var cs := Coordinates(fields);
    assert cs[0] == Extract(fields[0]) && cs[1] == Extract(fields[1]) && cs[2] == Extract(fields[2]);
    CollectThree(cs);
  }

  /** A line of three fields that is not read fails with the error of its first field that does not extract. */
  lemma LineToVecError(line: string)
    requires |Fields(line)| == 3 && LineToVec(line).Err?
    ensures var fs := Fields(line);
      Err(LineToVec(line).error) ==
        if Extract(fs[0]).Err? then Extract(fs[0]) else if Extract(fs[1]).Err? then Extract(fs[1]) else Extract(fs[2])
  {
    var fields := Fields(line);
    var cs := Coordinates(fields);
    assert cs[0] == Extract(fields[0]) && cs[1] == Extract(fields[1]) && cs[2] == Extract(fields[2]);
    CollectThree(cs);
  }

  /** Each line read as a position. */
  function LineResults(lines: seq<string>): (rs: seq<Result<Vec3D>>)
    ensures |rs| == |lines| && forall k :: 0 <= k < |lines| ==> rs[k] == LineToVec(lines[k])
  {
    if |lines| == 0 then [] else [LineToVec(lines[0])] + LineResults(lines[1..])
  }

  /** `read_input` after the file is read: one position per line; the first bad line is the error. */
  function ParseMoons(lines: seq<string>): (r: Result<seq<Vec3D>>)
    ensures r.Ok? <==> forall k :: 0 <= k < |lines| ==> LineToVec(lines[k]).Ok?
    ensures r.Ok? ==> |r.value| == |lines| && forall k :: 0 <= k < |lines| ==> LineToVec(lines[k]) == Ok(r.value[k])
    ensures r.Err? ==>
      exists k :: 0 <= k < |lines| && LineToVec(lines[k]) == Err(r.error) && forall j :: 0 <= j < k ==> LineToVec(lines[j]).Ok?
  {
    Collect(LineResults(lines))
  }

  /** The field `name=num`, after a space unless it comes first in a line. */
  function Field(name: char, num: string, spaced: bool): string
  {
    (if spaced then [' '] else []) + [name, '='] + num
  }

  /** The text of a position as the puzzle input writes it: `<x=.., y=.., z=..>`. */
  function ShowVec(v: Vec3D): string
  {
    ['<'] + Field('x', Text.Show(v.x), false) + [','] + Field('y', Text.Show(v.y), true) + [','] +
      Field('z', Text.Show(v.z), true) + ['>']
  }

  /** Every position with `i32` coordinates is read back from its text. */
  lemma LineToVecShow(v: Vec3D)
    requires Text.I32_MIN <= v.x <= Text.I32_MAX && Text.I32_MIN <= v.y <= Text.I32_MAX && Text.I32_MIN <= v.z <= Text.I32_MAX
    ensures LineToVec(ShowVec(v)) == Ok(v)
  {
    ShowVecFields(v);
    ReadBack(ShowVec(v), v);
  }

  /** The three fields of a printed position extract to its coordinates. */
  lemma ShowVecFields(v: Vec3D)
    requires Text.I32_MIN <= v.x <= Text.I32_MAX && Text.I32_MIN <= v.y <= Text.I32_MAX && Text.I32_MIN <= v.z <= Text.I32_MAX
    ensures |Fields(ShowVec(v))| == 3
    ensures Extract(Fields(ShowVec(v))[0]) == Ok(v.x) && Extract(Fields(ShowVec(v))[1]) == Ok(v.y) &&
      Extract(Fields(ShowVec(v))[2]) == Ok(v.z)
  {
    Text.ShowChars(v.x);
    Text.ShowChars(v.y);
    Text.ShowChars(v.z);
    PrintedFields(Text.Show(v.x), Text.Show(v.y), Text.Show(v.z));
    CoordinateValue('x', v.x);
    CoordinateValue('y', v.y);
    CoordinateValue('z', v.z);
  }

  /** The fields of a printed position, trimmed, are `x=..`, `y=..` and `z=..`. */
  lemma PrintedFields(nx: string, ny: string, nz: string)
    requires Text.Numeric(nx) && Text.Numeric(ny) && Text.Numeric(nz)
    ensures Fields(['<'] + Field('x', nx, false) + [','] + Field('y', ny, true) + [','] + Field('z', nz, true) + ['>']) ==
      [['x', '='] + nx, ['y', '='] + ny, ['z', '='] + nz]
  {
    var fx, fy, fz := Field('x', nx, false), Field('y', ny, true), Field('z', nz, true);
    FieldAvoids('x', nx, false, ',');
    FieldAvoids('y', ny, true, ',');
    FieldAvoids('z', nz, true, ',');
    assert fx[0] == 'x' && fz[|fz| - 1] == nz[|nz| - 1];
    FieldsOf(fx, fy, fz);
    FieldTrim('x', nx, false);
    FieldTrim('y', ny, true);
    FieldTrim('z', nz, true);
  }

  /** `name=` and a printed `i32` extracts to that number. */
  lemma CoordinateValue(name: char, n: int)
    requires name != '=' && Text.I32_MIN <= n <= Text.I32_MAX
    ensures Extract([name, '='] + Text.Show(n)) == Ok(n)
  {
    Text.ShowChars(n);
    EqualsSplit(name, Text.Show(n));
    Text.ParseShow(n, Text.I32_MIN, Text.I32_MAX);
  }

  /** A line whose three fields extract to the coordinates of `v` is read as `v`. */
  lemma ReadBack(line: string, v: Vec3D)
    requires |Fields(line)| == 3
    requires Extract(Fields(line)[0]) == Ok(v.x) && Extract(Fields(line)[1]) == Ok(v.y) && Extract(Fields(line)[2]) == Ok(v.z)
    ensures LineToVec(line) == Ok(v)
  {
    LineToVecOk(line);
    LineToVecValue(line);
  }

  /** The fields of `<fx,fy,fz>` are `fx`, `fy` and `fz`, trimmed, when none holds a comma. */
  lemma FieldsOf(fx: string, fy: string, fz: string)
    requires ',' !in fx && ',' !in fy && ',' !in fz
    requires |fx| > 0 && fx[0] !in ANGLES && |fz| > 0 && fz[|fz| - 1] !in ANGLES
    ensures Fields(['<'] + fx + [','] + fy + [','] + fz + ['>']) == [Text.Trim(fx), Text.Trim(fy), Text.Trim(fz)]
  {
    PiecesOf(fx, fy, fz);
    var trimmed := TrimEach([fx, fy, fz]);
    assert trimmed[0] == Text.Trim(fx) && trimmed[1] == Text.Trim(fy) && trimmed[2] == Text.Trim(fz);
  }

  /** Inside its brackets, `<fx,fy,fz>` splits on commas into `fx`, `fy` and `fz` when none holds a comma. */
  lemma PiecesOf(fx: string, fy: string, fz: string)
    requires ',' !in fx && ',' !in fy && ',' !in fz
    requires |fx| > 0 && fx[0] !in ANGLES && |fz| > 0 && fz[|fz| - 1] !in ANGLES
    ensures Text.Split(Text.TrimMatches(['<'] + fx + [','] + fy + [','] + fz + ['>'], ANGLES), ',') == [fx, fy, fz]
  {
    var inner := fx + [','] + (fy + [','] + fz);
    assert ['<'] + fx + [','] + fy + [','] + fz + ['>'] == ['<'] + inner + ['>'];
    assert inner[0] == fx[0] && inner[|inner| - 1] == fz[|fz| - 1];
    Text.TrimAround('<', inner, '>', ANGLES);
    Text.SplitFirst(fx, ',', fy + [','] + fz);
    Text.SplitFirst(fy, ',', fz);
    Text.SplitNone(fz, ',');
  }

  /** A field holds no character that is not in its name, its `=`, its space or its number. */
  lemma FieldAvoids(name: char, num: string, spaced: bool, c: char)
    requires Text.Numeric(num) && c != name && c != '=' && c != ' ' && c != '-' && !Text.IsDigit(c)
    ensures c !in Field(name, num, spaced)
  {
    assert c !in num;
  }

  /** Trimming a field leaves `name=num`. */
  lemma FieldTrim(name: char, num: string, spaced: bool)
    requires name in "xyz" && Text.Numeric(num)
    ensures Text.Trim(Field(name, num, spaced)) == [name, '='] + num
  {
    var bare := [name, '='] + num;
    assert bare[|bare| - 1] == num[|num| - 1];
    DigitNotWhitespace(num[|num| - 1]);
    Text.TrimKeeps(bare, Text.WHITESPACE);
    if spaced {
      assert Field(name, num, spaced) == [' '] + bare;
      Text.TrimLeading(' ', bare, Text.WHITESPACE);
    } else {
      assert Field(name, num, spaced) == bare;
    }
  }

  /** No digit is white space. */
  lemma DigitNotWhitespace(c: char)
    requires Text.IsDigit(c)
    ensures c !in Text.WHITESPACE
  {
  }

  /** `name=num` splits on `=` into the name and the number. */
  lemma EqualsSplit(name: char, num: string)
    requires name != '=' && Text.Numeric(num)
    ensures Text.Split([name, '='] + num, '=') == [[name], num]
  {
    assert '=' !in num;
    assert [name, '='] + num == [name] + ['='] + num;
    Text.SplitFirst([name], '=', num);
    Text.SplitNone(num, '=');
  }

  /** Moons at rest at the given positions. */
  function AtRest(ps: seq<Vec3D>): (bs: seq<Body>)
    ensures |bs| == |ps| && forall i :: 0 <= i < |ps| ==> bs[i] == Body(ps[i], ZERO)
  {
    seq(|ps|, i requires 0 <= i < |ps| => Body(ps[i], ZERO))
  }

  /** The answer of part one for parsed positions: four moons, then the energy after 1000 steps. */
  function EnergyAfter(parsed: Result<seq<Vec3D>>): Result<int>
  {
    match parsed
    case Err(e) => Err(e)
    case Ok(ps) => if |ps| != 4 then Err(WrongNumOfMoons) else Ok(TotalEnergy(Steps(AtRest(ps), 1000)))
  }

  /** Whether no moon appears twice in the queue. */
  ghost predicate Distinct(ms: seq<Moon>)
  {
    forall i, j :: 0 <= i < j < |ms| ==> ms[i] != ms[j]
  }

  /**
   * `read_input` on the lines of the file: a fresh moon for each line, or
   * the error of the first line that does not parse.
   */
  method ReadMoons(lines: seq<string>) returns (r: Result<seq<Moon>>)
    ensures ParseMoons(lines).Err? ==> r == Err(ParseMoons(lines).error)
    ensures ParseMoons(lines).Ok? ==> r.Ok? && States(r.value) == AtRest(ParseMoons(lines).value)
    ensures r.Ok? ==> Distinct(r.value) && forall m :: m in r.value ==> fresh(m)
  {
    var parsed := ParseMoons(lines);
    if parsed.Err? {
      return Err(parsed.error);
    }
    var moons := Spawn(parsed.value);
    return Ok(moons);
  }

  /** `Moon::from` for each position, in order. */
  method Spawn(ps: seq<Vec3D>) returns (moons: seq<Moon>)
    ensures States(moons) == AtRest(ps)
    ensures Distinct(moons) && forall m :: m in moons ==> fresh(m)
  {
    moons := [];
    var i := 0;
    while i < |ps|
      invariant 0 <= i <= |ps| && |moons| == i
      invariant forall k :: 0 <= k < i ==> moons[k].pos == ps[k] && moons[k].vel == ZERO
      invariant Distinct(moons) && forall m :: m in moons ==> fresh(m)
    {
      var moon := new Moon(ps[i]);
      moons := moons + [moon];
      i := i + 1;
    }
    assert forall k :: 0 <= k < |ps| ==> States(moons)[k] == AtRest(ps)[k];
  }

  /**
   * `part_one` on the lines of the input: read the moons, insist on four,
   * run 1000 time steps and add up the energies.
   */
  method PartOne(lines: seq<string>) returns (r: Result<int>)
    ensures r == EnergyAfter(ParseMoons(lines))
  {
    var read := ReadMoons(lines);
    if read.Err? {
      return Err(read.error);
    }
    r := FourMoons(read.value);
  }

  /** The part of `part_one` after the moons are read. */
  method FourMoons(moons: seq<Moon>) returns (r: Result<int>)
    requires Distinct(moons)
    modifies set m | m in moons
    ensures |moons| != 4 ==> r == Err(WrongNumOfMoons)
    ensures |moons| == 4 ==> r == Ok(TotalEnergy(Steps(old(States(moons)), 1000)))
  {
    if |moons| != 4 {
      return Err(WrongNumOfMoons);
    }
    Simulate(moons, 1000);
    var total := TotalEnergyOf(moons);
    return Ok(total);
  }

  /** `rounds` time steps on a queue of distinct moons. */
  method Simulate(moons: seq<Moon>, rounds: nat)
    requires Distinct(moons)
    modifies set m | m in moons
    ensures States(moons) == Steps(old(States(moons)), rounds)
  {
    ghost var start := States(moons);
    var step := 0;
    while step < rounds
      invariant 0 <= step <= rounds
      invariant States(moons) == Steps(start, step)
    {
      ghost var now := States(moons);
      TimeStep(moons);
      assert States(moons) == Step(now) == Steps(start, step + 1);
      step := step + 1;
    }
  }

  /**
   * One time step: the queue is rotated once, each moon popped from the
   * front getting the pull of the rest before it goes to the back, which
   * restores the order; then every moon moves.
   */
  method TimeStep(moons: seq<Moon>)
    requires Distinct(moons)
    modifies set m | m in moons
    ensures States(moons) == Step(old(States(moons)))
  {
    ghost var before := States(moons);
    GravityPhase(moons);
    VelocityPhase(moons);
    assert forall k :: 0 <= k < |moons| ==> States(moons)[k] == Step(before)[k];
  }

  /** The rotation of the queue through `apply_gravity`. */
  method GravityPhase(moons: seq<Moon>)
    requires Distinct(moons)
    modifies set m | m in moons
    ensures forall k :: 0 <= k < |moons| ==> moons[k].pos == old(moons[k].pos)
    ensures forall k :: 0 <= k < |moons| ==> moons[k].vel == Accelerate(old(States(moons)), k).vel
  {
    ghost var before := States(moons);
    var n := |moons|;
    var queue := moons;
    var t := 0;
    while t < n
      invariant 0 <= t <= n
      invariant queue == moons[t..] + moons[..t]
      invariant forall k :: 0 <= k < n ==> moons[k].pos == before[k].pos
      invariant forall k :: 0 <= k < t ==> moons[k].vel == Accelerate(before, k).vel
      invariant forall k :: t <= k < n ==> moons[k].vel == before[k].vel
    {
      queue := GravityTurn(moons, before, t, queue);
      t := t + 1;
    }
  }

  /** One turn of the rotation: pop moon `t`, pull it toward the rest, push it back. */
  method GravityTurn(moons: seq<Moon>, ghost before: seq<Body>, t: nat, queue: seq<Moon>) returns (next: seq<Moon>)
    requires t < |moons| == |before|
    requires queue == moons[t..] + moons[..t]
    requires forall k :: 0 <= k < |moons| ==> moons[k].pos == before[k].pos
    modifies moons[t]
    ensures next == moons[t + 1..] + moons[..t + 1]
    ensures moons[t].pos == before[t].pos
    ensures moons[t].vel == old(moons[t].vel).Add(Pull(before[t].pos, Positions(Others(before, t))))
  {
    RotateOne(moons, t);
    var moon := queue[0];
    var rest := queue[1..];
    RestAreOthers(moons, before, t, rest);
    moon.ApplyGravity(rest);
    next := rest + [moon];
  }

  /** `apply_velocity` on every moon in the queue. */
  method VelocityPhase(moons: seq<Moon>)
    requires Distinct(moons)
    modifies set m | m in moons
    ensures forall k :: 0 <= k < |moons| ==> moons[k].pos == old(moons[k].pos).Add(old(moons[k].vel))
    ensures forall k :: 0 <= k < |moons| ==> moons[k].vel == old(moons[k].vel)
  {
    var i := 0;
    while i < |moons|
      invariant 0 <= i <= |moons|
      invariant forall k :: 0 <= k < i ==> moons[k].pos == old(moons[k].pos).Add(old(moons[k].vel))
      invariant forall k :: i <= k < |moons| ==> moons[k].pos == old(moons[k].pos)
      invariant forall k :: 0 <= k < |moons| ==> moons[k].vel == old(moons[k].vel)
    {
      moons[i].ApplyVelocity();
      i := i + 1;
    }
  }

  /** Moving the front of a rotated queue to its back rotates it one place further. */
  lemma RotateOne<T>(s: seq<T>, t: nat)
    requires t < |s|
    ensures (s[t..] + s[..t])[0] == s[t]
    ensures (s[t..] + s[..t])[1..] == s[t + 1..] + s[..t]
    ensures (s[t..] + s[..t])[1..] + [s[t]] == s[t + 1..] + s[..t + 1]
  {
    assert s[..t + 1] == s[..t] + [s[t]];
  }

  /** The queue after popping moon `t` holds the others, at the positions they had before the step. */
  lemma RestAreOthers(moons: seq<Moon>, before: seq<Body>, t: nat, rest: seq<Moon>)
    requires t < |moons| == |before|
    requires rest == moons[t + 1..] + moons[..t]
    requires forall k :: 0 <= k < |moons| ==> moons[k].pos == before[k].pos
    ensures Positions(States(rest)) == Positions(Others(before, t))
  {
  }

  /** The fold adding up `get_energy` over the moons. */
  method TotalEnergyOf(moons: seq<Moon>) returns (total: int)
    ensures total == TotalEnergy(States(moons))
  {
    total := 0;
    var i := 0;
    while i < |moons|
      invariant 0 <= i <= |moons|
      invariant total == TotalEnergy(States(moons)[..i])
    {
      assert States(moons)[..i + 1][..i] == States(moons)[..i];
      total := total + moons[i].GetEnergy();
      i := i + 1;
    }
    assert States(moons)[..i] == States(moons);
  }
}
