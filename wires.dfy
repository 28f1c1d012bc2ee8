/**
 * The crossed wires of day 3 (`src/bin/day3.rs`). A wire is a list of
 * actions `U n`, `D n`, `R n`, `L n`; unrolled from the central port at
 * (0, 0) it becomes the list of grid positions it passes through, one
 * unit step at a time. Part one asks for the crossing closest to the port
 * in Manhattan distance, part two for the crossing the two wires reach
 * with the fewest combined steps.
 */
module Wires {
  import opened RustInt
  import Text

  datatype Pos2D = Pos2D(x: int, y: int)

  /** The central port, where both wires start. */
  const ORIGIN := Pos2D(0, 0)

  /** One instruction of a wire: a direction and a number of unit steps. */
  datatype Action = U(steps: int) | D(steps: int) | R(steps: int) | L(steps: int)

  /** `p` moved `k` unit steps in the direction of `a`. */
  function Move(a: Action, p: Pos2D, k: int): Pos2D
  {
    match a
    case U(_) => Pos2D(p.x, p.y + k)
    case D(_) => Pos2D(p.x, p.y - k)
    case R(_) => Pos2D(p.x + k, p.y)
    case L(_) => Pos2D(p.x - k, p.y)
  }

  /**
   * How many unit steps `a` takes. A negative count never gets this far:
   * `unroll_action` panics on it (`NegativeSteps`); the clamp at zero only
   * keeps the function total.
   */
  function Count(a: Action): nat
  {
    if a.steps < 0 then 0 else a.steps
  }

  /** Two positions one unit step apart. */
  predicate Adjacent(p: Pos2D, q: Pos2D)
  {
    Abs(q.x - p.x) + Abs(q.y - p.y) == 1
  }

  /** Manhattan distance from the central port. */
  function Norm(p: Pos2D): nat
  {
    Abs(p.x) + Abs(p.y)
  }

  /** The first `k` positions an action visits from `p`, without `p` itself. */
  function Segment(a: Action, p: Pos2D, k: nat): (s: seq<Pos2D>)
    ensures |s| == k
  {
    if k == 0 then [] else Segment(a, p, k - 1) + [Move(a, p, k)]
  }

  /** Position `i` of a segment is `i + 1` steps away from the start. */
  lemma {:induction false} SegmentAt(a: Action, p: Pos2D, k: nat, i: nat)
    requires i < k
    ensures Segment(a, p, k)[i] == Move(a, p, i + 1)
  {
    if i < k - 1 {
      SegmentAt(a, p, k - 1, i);
    }
  }

  /**
   * `unroll_action`: push the positions of `a` onto `c`, one unit step at a
   * time, and return the last one (or `p` when the action takes no step).
   * A negative count panics in `reserve` before any step; `ComputeWire`
   * reports that panic instead of calling.
   */
  method UnrollAction(c: seq<Pos2D>, a: Action, p: Pos2D) returns (c': seq<Pos2D>, last: Pos2D)
    requires a.steps >= 0
    ensures c' == c + Segment(a, p, Count(a))
    ensures last == Move(a, p, Count(a))
  {
    var num := a.steps;
    c' := c;
    last := p;
    var i := 0;
    while i < num
      invariant 0 <= i <= Count(a)
      invariant c' == c + Segment(a, p, i)
      invariant last == Move(a, p, i)
    {
      last := Move(a, last, 1);
      c' := c' + [last];
      i := i + 1;
    }
  }

  /** Where a wire ends after its actions. */
  function Finish(actions: seq<Action>): Pos2D
  {
    if |actions| == 0 then ORIGIN
    else
      var n := |actions| - 1;
      Move(actions[n], Finish(actions[..n]), Count(actions[n]))
  }

  /** The number of unit steps of all actions together. */
  function TotalSteps(actions: seq<Action>): nat
  {
    if |actions| == 0 then 0
    else
      var n := |actions| - 1;
      TotalSteps(actions[..n]) + Count(actions[n])
  }

  /** The positions a wire passes through, in order, without the port it starts from. */
  function Wire(actions: seq<Action>): (w: seq<Pos2D>)
    ensures |w| == TotalSteps(actions)
  {
    if |actions| == 0 then []
    else
      var n := |actions| - 1;
      Wire(actions[..n]) + Segment(actions[n], Finish(actions[..n]), Count(actions[n]))
  }

  /** The index of the first action with a negative step count, or the number of actions when there is none. */
  function FirstNegative(actions: seq<Action>): (i: nat)
    ensures i <= |actions|
    ensures forall j :: 0 <= j < i ==> actions[j].steps >= 0
    ensures i < |actions| ==> actions[i].steps < 0
  {
    if |actions| == 0 || actions[0].steps < 0 then 0 else 1 + FirstNegative(actions[1..])
  }

  /**
   * `compute_wire`: unroll every action, starting at the port. The first
   * action with a negative count panics (`NegativeSteps`); without one the
   * result is the wire.
   */
  method ComputeWire(actions: seq<Action>) returns (r: Result<seq<Pos2D>>)
    ensures FirstNegative(actions) == |actions| ==> r == Ok(Wire(actions))
    ensures FirstNegative(actions) < |actions| ==> r == Err(NegativeSteps(actions[FirstNegative(actions)].steps))
  {
    var pos := ORIGIN;
    var coords := [];
    for i := 0 to |actions|
      invariant i <= FirstNegative(actions)
      invariant coords == Wire(actions[..i])
      invariant pos == Finish(actions[..i])
    {
      if actions[i].steps < 0 {
        return Err(NegativeSteps(actions[i].steps));
      }
      assert actions[..i + 1][..i] == actions[..i];
      coords, pos := UnrollAction(coords, actions[i], pos);
    }
    assert actions[..|actions|] == actions;
    r := Ok(coords);
  }

  /** A wire's last position is where it ends; a wire with no position ends at the port. */
  lemma {:induction false} WireEnd(actions: seq<Action>)
    ensures Finish(actions) == if |Wire(actions)| == 0 then ORIGIN else Wire(actions)[|Wire(actions)| - 1]
  {
    if |actions| != 0 {
      var n := |actions| - 1;
      var k := Count(actions[n]);
      WireEnd(actions[..n]);
      if k != 0 {
        SegmentAt(actions[n], Finish(actions[..n]), k, k - 1);
      }
    }
  }

  /** Every position of a wire is one unit step from the one before, the first from the port. */
  lemma {:induction false} WireWalk(actions: seq<Action>, i: nat)
    requires i < |Wire(actions)|
    ensures Adjacent(if i == 0 then ORIGIN else Wire(actions)[i - 1], Wire(actions)[i])
  {
    var n := |actions| - 1;
    var front := Wire(actions[..n]);
    var a, p, k := actions[n], Finish(actions[..n]), Count(actions[n]);
    if i < |front| {
      WireWalk(actions[..n], i);
    } else {
      var j := i - |front|;
      SegmentAt(a, p, k, j);
      if j == 0 {
        WireEnd(actions[..n]);
      } else {
        SegmentAt(a, p, k, j - 1);
      }
    }
  }

  /** The `i`-th position of a wire is at most `i + 1` steps from the port. */
  lemma {:induction false} WireNear(actions: seq<Action>, i: nat)
    requires i < |Wire(actions)|
    ensures Norm(Wire(actions)[i]) <= i + 1
  {
    WireWalk(actions, i);
    if i > 0 {
      WireNear(actions, i - 1);
    }
  }

  function Min(a: int, b: int): int
  {
    if a <= b then a else b
  }

  /**
   * The smallest distance from the port over the positions both wires
   * visit, folded from `i32::MAX`: the common positions are visited in
   * the order of the first wire, which does not change a minimum.
   */
  function Closest(w1: seq<Pos2D>, w2: seq<Pos2D>): (dist: int)
    ensures dist <= Text.I32_MAX
    ensures forall p :: p in w1 && p in w2 ==> dist <= Norm(p)
    ensures dist == Text.I32_MAX || exists p :: p in w1 && p in w2 && Norm(p) == dist
  {
    if |w1| == 0 then Text.I32_MAX
    else
      var n := |w1| - 1;
      var front := Closest(w1[..n], w2);
      assert forall p :: p in w1 <==> p in w1[..n] || p == w1[n] by {
        assert w1 == w1[..n] + [w1[n]];
      }
      if w1[n] in w2 then Min(front, Norm(w1[n])) else front
  }

  /** The intersection does not depend on which wire comes first. */
  lemma ClosestSymmetric(w1: seq<Pos2D>, w2: seq<Pos2D>)
    ensures Closest(w1, w2) == Closest(w2, w1)
  {
    var a, b := Closest(w1, w2), Closest(w2, w1);
    if a != Text.I32_MAX {
      var p :| p in w1 && p in w2 && Norm(p) == a;
      assert b <= a;
    }
    if b != Text.I32_MAX {
      var p :| p in w2 && p in w1 && Norm(p) == b;
      assert a <= b;
    }
  }

  /** `compute_manhattan_distance`: the closest crossing to the port, or `i32::MAX` when the wires never cross. */
  method ComputeManhattanDistance(w1: seq<Pos2D>, w2: seq<Pos2D>) returns (dist: int)
    ensures dist == Closest(w1, w2)
  {
    dist := Text.I32_MAX;
    for i := 0 to |w1|
      invariant dist == Closest(w1[..i], w2)
    {
      assert w1[..i + 1][..i] == w1[..i];
      if w1[i] in w2 {
        dist := Min(dist, Norm(w1[i]));
      }
    }
    assert w1[..|w1|] == w1;
  }

  /** `iter().position`: the index of the first occurrence of `p`. */
  function FirstIndex(w: seq<Pos2D>, p: Pos2D): (i: nat)
    requires p in w
    ensures i < |w| && w[i] == p && p !in w[..i]
  {
    if w[0] == p then 0
    else
      var i := FirstIndex(w[1..], p);
      assert w[..i + 1] == [w[0]] + w[1..][..i];
      i + 1
  }

  /** The steps both wires take to reach a common position, each counted to its first visit. */
  function Delay(w1: seq<Pos2D>, w2: seq<Pos2D>, p: Pos2D): int
    requires p in w1 && p in w2
  {
    FirstIndex(w1, p) + 1 + FirstIndex(w2, p) + 1
  }

  /** The smallest combined delay over the common positions, folded from `i32::MAX`. */
  function Fewest(w1: seq<Pos2D>, w2: seq<Pos2D>): (steps: int)
    ensures steps <= Text.I32_MAX
    ensures forall p :: p in w1 && p in w2 ==> steps <= Delay(w1, w2, p)
    ensures steps == Text.I32_MAX || exists p :: p in w1 && p in w2 && Delay(w1, w2, p) == steps
  {
    FewestOver(w1, w1, w2)
  }

  /** The fold behind `Fewest`, over the candidates `c` (a prefix of the first wire). */
  function FewestOver(c: seq<Pos2D>, w1: seq<Pos2D>, w2: seq<Pos2D>): (steps: int)
    ensures steps <= Text.I32_MAX
    ensures forall p :: p in c && p in w1 && p in w2 ==> steps <= Delay(w1, w2, p)
    ensures steps == Text.I32_MAX || exists p :: p in c && p in w1 && p in w2 && Delay(w1, w2, p) == steps
  {
    if |c| == 0 then Text.I32_MAX
    else
      var n := |c| - 1;
      var front := FewestOver(c[..n], w1, w2);
      assert forall p :: p in c <==> p in c[..n] || p == c[n] by {
        assert c == c[..n] + [c[n]];
      }
      if c[n] in w1 && c[n] in w2 then Min(front, Delay(w1, w2, c[n])) else front
  }

  /** `compute_fewest_steps`: the crossing reached with the fewest combined steps, or `i32::MAX`. */
  method ComputeFewestSteps(w1: seq<Pos2D>, w2: seq<Pos2D>) returns (steps: int)
    ensures steps == Fewest(w1, w2)
  {
    steps := Text.I32_MAX;
    for i := 0 to |w1|
      invariant steps == FewestOver(w1[..i], w1, w2)
    {
      assert w1[..i + 1][..i] == w1[..i];
      if w1[i] in w2 {
        var d := FirstIndex(w1, w1[i]) + 1 + FirstIndex(w2, w1[i]) + 1;
        steps := Min(steps, d);
      }
    }
    assert w1[..|w1|] == w1;
  }

  /** The crossing with the fewest steps is never closer than the closest crossing. */
  lemma StepsDominateDistance(actions1: seq<Action>, actions2: seq<Action>)
    ensures Closest(Wire(actions1), Wire(actions2)) <= Fewest(Wire(actions1), Wire(actions2))
  {
    var w1, w2 := Wire(actions1), Wire(actions2);
    var steps := Fewest(w1, w2);
    if steps != Text.I32_MAX {
      var p :| p in w1 && p in w2 && Delay(w1, w2, p) == steps;
      WireNear(actions1, FirstIndex(w1, p));
      assert Closest(w1, w2) <= Norm(p);
    }
  }

  /**
   * How the program stops early: a bad step count; a panic on an unknown
   * direction; a wire count other than two; or the panic of `reserve` when
   * a negative step count is cast to `usize` (a capacity overflow).
   */
  datatype ActionError = InvalidNumber | UnknownDirection(c: char) | WireCount(n: nat) | NegativeSteps(steps: int)

  datatype Result<T> = Ok(value: T) | Err(error: ActionError)

  /**
   * `actionize`: the first character names the direction and the rest is
   * an `i32`. The number is read first, so a bad number is reported even
   * when the direction is unknown; an unknown direction is a panic.
   */
  function Actionize(s: string): (r: Result<Action>)
    ensures r.Ok? <==> |s| > 0 && s[0] in "UDRL" && Text.ParseInt(s[1..], Text.I32_MIN, Text.I32_MAX).Some?
    ensures r.Ok? ==> Text.ParseInt(s[1..], Text.I32_MIN, Text.I32_MAX) == Some(r.value.steps)
  {
    var rest := if |s| == 0 then "" else s[1..];
    match Text.ParseInt(rest, Text.I32_MIN, Text.I32_MAX)
    case None => Err(InvalidNumber)
    case Some(steps) =>
      if s[0] == 'U' then Ok(U(steps))
      else if s[0] == 'D' then Ok(D(steps))
      else if s[0] == 'R' then Ok(R(steps))
      else if s[0] == 'L' then Ok(L(steps))
      else Err(UnknownDirection(s[0]))
  }

  /** The text of an action: its direction letter, then its step count. */
  function ShowAction(a: Action): string
  {
    var letter := match a case U(_) => 'U' case D(_) => 'D' case R(_) => 'R' case L(_) => 'L';
    [letter] + Text.Show(a.steps)
  }

  /** Reading back a printed action gives the action, for any `i32` step count. */
  lemma ActionizeShow(a: Action)
    requires Text.I32_MIN <= a.steps <= Text.I32_MAX
    ensures Actionize(ShowAction(a)) == Ok(a)
  {
    var s := ShowAction(a);
    assert s[1..] == Text.Show(a.steps);
    Text.ParseShow(a.steps, Text.I32_MIN, Text.I32_MAX);
  }

  /** `collect::<Result<Vec<_>>>()` over the comma-separated actions: the first error wins. */
  function ParseActions(parts: seq<string>): (r: Result<seq<Action>>)
    ensures r.Ok? <==> forall i :: 0 <= i < |parts| ==> Actionize(parts[i]).Ok?
    ensures r.Ok? ==> |r.value| == |parts| && forall i :: 0 <= i < |parts| ==> Actionize(parts[i]) == Ok(r.value[i])
    ensures r.Err? ==> exists i :: 0 <= i < |parts| && Actionize(parts[i]) == Err(r.error)
                                   && forall j :: 0 <= j < i ==> Actionize(parts[j]).Ok?
  {
    if |parts| == 0 then Ok([])
    else match Actionize(parts[0])
      case Err(e) => Err(e)
      case Ok(a) =>
        var tail := parts[1..];
        assert forall i :: 0 <= i < |tail| ==> tail[i] == parts[i + 1];
        match ParseActions(tail)
        case Err(e) => Err(e)
        case Ok(rest) => Ok([a] + rest)
  }

  /** Printing a wire's actions with commas and reading them back gives the actions. */
  lemma {:induction false} ParseActionsShow(actions: seq<Action>)
    requires forall i :: 0 <= i < |actions| ==> Text.I32_MIN <= actions[i].steps <= Text.I32_MAX
    ensures ParseActions(seq(|actions|, i requires 0 <= i < |actions| => ShowAction(actions[i]))) == Ok(actions)
  {
    var parts := seq(|actions|, i requires 0 <= i < |actions| => ShowAction(actions[i]));
    forall i | 0 <= i < |actions|
      ensures Actionize(parts[i]) == Ok(actions[i])
    {
      ActionizeShow(actions[i]);
    }
    var r := ParseActions(parts);
    assert r.value == actions;
  }

  /** The wires of the input, one per line, each a comma-separated list of actions. */
  function ParseWires(lines: seq<string>): (r: Result<seq<seq<Action>>>)
    ensures r.Ok? ==> |r.value| == |lines| && forall i :: 0 <= i < |lines| ==> ParseActions(Text.Split(lines[i], ',')) == Ok(r.value[i])
    ensures r.Err? ==> exists i :: 0 <= i < |lines| && ParseActions(Text.Split(lines[i], ',')) == Err(r.error)
                                   && forall j :: 0 <= j < i ==> ParseActions(Text.Split(lines[j], ',')).Ok?
  {
    if |lines| == 0 then Ok([])
    else match ParseActions(Text.Split(lines[0], ','))
      case Err(e) => Err(e)
      case Ok(wire) =>
        var tail := lines[1..];
        assert forall i :: 0 <= i < |tail| ==> tail[i] == lines[i + 1];
        match ParseWires(tail)
        case Err(e) => Err(e)
        case Ok(rest) => Ok([wire] + rest)
  }

  /** The answers of both parts. */
  datatype Answers = Answers(distance: int, steps: int)

  /** `main`: parse exactly two wires, then the closest crossing and the fewest combined steps. */
  method Solve(input: string) returns (r: Result<Answers>)
    ensures ParseWires(Text.Lines(input)).Err? ==> r == Err(ParseWires(Text.Lines(input)).error)
    ensures ParseWires(Text.Lines(input)).Ok? && |Text.Lines(input)| != 2 ==> r == Err(WireCount(|Text.Lines(input)|))
    ensures ParseWires(Text.Lines(input)).Ok? && |Text.Lines(input)| == 2 ==>
      var ws := ParseWires(Text.Lines(input)).value;
      var i, j := FirstNegative(ws[0]), FirstNegative(ws[1]);
      r == if i < |ws[0]| then Err(NegativeSteps(ws[0][i].steps))
           else if j < |ws[1]| then Err(NegativeSteps(ws[1][j].steps))
           else Ok(Answers(Closest(Wire(ws[0]), Wire(ws[1])), Fewest(Wire(ws[0]), Wire(ws[1]))))
  {
    var parsed := ParseWires(Text.Lines(input));
    if parsed.Err? {
      return Err(parsed.error);
    }
    var wires := parsed.value;
    if |wires| != 2 {
      return Err(WireCount(|wires|));
    }
    var w1 := ComputeWire(wires[0]);
    if w1.Err? {
      return Err(w1.error);
    }
    var w2 := ComputeWire(wires[1]);
    if w2.Err? {
      return Err(w2.error);
    }
    var distance := ComputeManhattanDistance(w1.value, w2.value);
    var steps := ComputeFewestSteps(w1.value, w2.value);
    r := Ok(Answers(distance, steps));
  }
}
