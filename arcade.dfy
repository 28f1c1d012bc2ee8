/**
 * The arcade cabinet of day 13 (`src/bin/day13.rs`): the Intcode game
 * program outputs triples `x, y, tile id`, which the host draws into a
 * framebuffer of rows that grow on demand; the triple `-1, 0, s` instead
 * sets the score. Part one counts the blocks a run with no input leaves on
 * the screen; part two plays the game, steering the joystick towards the
 * ball after every batch of output, and reports the final score.
 */
module Arcade {
  import opened FullMachine
  import FullMachineIss

  datatype Tile = Empty | Wall | Block | Paddle | Ball

  /** Why a part of the puzzle gives no answer. */
  datatype GameError =
    | WrongOutputLength
    | InvalidTileId(id: int)
      // `usize::try_from` of a negative coordinate
    | NegativeCoordinate(v: int)
      // `compute` did not end as the host requires: part one asserts that
      // the program halted, and a faulting `compute` panics
    | Stalled(status: Status)
      // the game was still asking for input after the rounds this model allows
    | Unfinished

  datatype GameResult<T> = Success(value: T) | Failure(error: GameError)

  /** The discriminant of a tile, as the game program numbers it. */
  function TileId(t: Tile): int
  {
    match t
    case Empty => 0
    case Wall => 1
    case Block => 2
    case Paddle => 3
    case Ball => 4
  }

  /** `Tile::try_from`: ids 0 to 4 name the five tiles; any other is invalid. */
  function TileFrom(id: int): (r: GameResult<Tile>)
    ensures r.Success? <==> 0 <= id <= 4
    ensures r.Success? ==> TileId(r.value) == id
    ensures r.Failure? ==> r.error == InvalidTileId(id)
  {
    match id
    case 0 => Success(Empty)
    case 1 => Success(Wall)
    case 2 => Success(Block)
    case 3 => Success(Paddle)
    case 4 => Success(Ball)
    case _ => Failure(InvalidTileId(id))
  }

  /** Every tile reads back from its id. */
  lemma TileIdRoundTrip(t: Tile)
    ensures TileFrom(TileId(t)) == Success(t)
  {
  }

  // ---------------------------------------------------------------------
  // The framebuffer
  // ---------------------------------------------------------------------

  /** The screen as a value: rows of tiles and the last columns of the ball and the paddle. */
  datatype Display = Display(fb: seq<seq<Tile>>, xball: nat, xpaddle: nat)

  /** `Screen::new`. */
  const BLANK := Display([], 0, 0)

  /** What the screen shows at column `x` of row `y`: a cell never drawn shows `Empty`. */
  function At(fb: seq<seq<Tile>>, x: nat, y: nat): Tile
  {
    if y < |fb| && x < |fb[y]| then fb[y][x] else Empty
  }

  function Max(a: nat, b: nat): nat
  {
    if a < b then b else a
  }

  /**
   * `insert_tile(x, y, tile)`: the rows grow to `y + 1` with empty rows, row
   * `y` grows to `x + 1` with `Empty` cells, then the cell is set; drawing
   * the ball or the paddle also records its column.
   */
  function Insert(d: Display, x: nat, y: nat, t: Tile): (e: Display)
    ensures |e.fb| == Max(|d.fb|, y + 1)
    ensures |e.fb[y]| == Max(if y < |d.fb| then |d.fb[y]| else 0, x + 1)
    ensures e.fb[y][x] == t
    ensures forall j :: 0 <= j < |e.fb| && j != y ==> e.fb[j] == if j < |d.fb| then d.fb[j] else []
    ensures forall i :: 0 <= i < |e.fb[y]| && i != x ==> e.fb[y][i] == At(d.fb, i, y)
    ensures e.xball == (if t == Ball then x else d.xball)
    ensures e.xpaddle == (if t == Paddle then x else d.xpaddle)
  {
    var rows := Rows(d.fb, y);
    Display(rows[y := Line(rows[y], x)[x := t]], if t == Ball then x else d.xball, if t == Paddle then x else d.xpaddle)
  }

  /** Drawing one cell changes what the screen shows there, and nowhere else. */
  lemma InsertShows(d: Display, x: nat, y: nat, t: Tile)
    ensures At(Insert(d, x, y, t).fb, x, y) == t
    ensures forall i: nat, j: nat :: (i, j) != (x, y) ==> At(Insert(d, x, y, t).fb, i, j) == At(d.fb, i, j)
  {
    var e := Insert(d, x, y, t);
    forall i: nat, j: nat | (i, j) != (x, y)
      ensures At(e.fb, i, j) == At(d.fb, i, j)
    {
      if j != y && j < |e.fb| {
        assert e.fb[j] == if j < |d.fb| then d.fb[j] else [];
      }
    }
  }

  /** `count_tile`: how many cells of the framebuffer hold `t`. */
  function Tally(fb: seq<seq<Tile>>, t: Tile): nat
  {
    if |fb| == 0 then 0 else multiset(fb[0])[t] + Tally(fb[1..], t)
  }

  lemma {:induction false} TallyAppend(a: seq<seq<Tile>>, b: seq<seq<Tile>>, t: Tile)
    ensures Tally(a + b, t) == Tally(a, t) + Tally(b, t)
    decreases |a|
  {
    if |a| > 0 {
      assert (a + b)[1..] == a[1..] + b;
      TallyAppend(a[1..], b, t);
    } else {
      assert a + b == b;
    }
  }

  lemma {:induction false} TallyUpdate(fb: seq<seq<Tile>>, y: nat, row: seq<Tile>, t: Tile)
    requires y < |fb|
    ensures Tally(fb[y := row], t) + multiset(fb[y])[t] == Tally(fb, t) + multiset(row)[t]
    decreases y
  {
    if y == 0 {
      assert fb[y := row][1..] == fb[1..];
    } else {
      assert fb[y := row][1..] == fb[1..][y - 1 := row];
      TallyUpdate(fb[1..], y - 1, row, t);
    }
  }

  lemma {:induction false} TallyBlankRows(n: nat, t: Tile)
    ensures Tally(seq(n, _ => []), t) == 0
  {
    if n > 0 {
      var rows: seq<seq<Tile>> := seq(n, _ => []);
      assert rows[1..] == seq(n - 1, _ => []);
      TallyBlankRows(n - 1, t);
    }
  }

  /** The rows `insert_tile` works on: `fb` grown with empty rows to cover row `y`. */
  function Rows(fb: seq<seq<Tile>>, y: nat): (rows: seq<seq<Tile>>)
    ensures y < |rows|
  {
    if y < |fb| then fb else fb + seq(y + 1 - |fb|, _ => [])
  }

  /** Row `y` as `insert_tile` grows it to cover column `x`. */
  function Line(row: seq<Tile>, x: nat): (line: seq<Tile>)
    ensures x < |line|
  {
    if x < |row| then row else row + seq(x + 1 - |row|, _ => Empty)
  }

  lemma TallyRows(fb: seq<seq<Tile>>, y: nat, u: Tile)
    ensures Tally(Rows(fb, y), u) == Tally(fb, u)
  {
    if y >= |fb| {
      TallyAppend(fb, seq(y + 1 - |fb|, _ => []), u);
      TallyBlankRows(y + 1 - |fb|, u);
    }
  }

  lemma LineCount(row: seq<Tile>, x: nat, t: Tile, u: Tile)
    requires u != Empty
    ensures multiset(Line(row, x)[x := t])[u]
      == multiset(row)[u] - (if x < |row| && row[x] == u then 1 else 0) + (if t == u then 1 else 0)
  {
    var line := Line(row, x);
    if x >= |row| {
      var pad := seq(x + 1 - |row|, _ => Empty);
      assert line == row + pad;
      assert multiset(row + pad) == multiset(row) + multiset(pad);
      assert u !in pad;
    }
    assert multiset(line[x := t]) == multiset(line) - multiset{line[x]} + multiset{t};
  }

  /**
   * Drawing a cell changes the count of any visible tile by what it
   * overwrote and what it drew; the `Empty` padding it may add is not
   * counted for any other tile.
   */
  lemma TallyAfterInsert(d: Display, x: nat, y: nat, t: Tile, u: Tile)
    requires u != Empty
    ensures Tally(Insert(d, x, y, t).fb, u)
      == Tally(d.fb, u) - (if At(d.fb, x, y) == u then 1 else 0) + (if t == u then 1 else 0)
  {
    var rows := Rows(d.fb, y);
    TallyRows(d.fb, y, u);
    LineCount(rows[y], x, t, u);
    assert rows[y] == if y < |d.fb| then d.fb[y] else [];
    assert Insert(d, x, y, t).fb == rows[y := Line(rows[y], x)[x := t]];
    TallyUpdate(rows, y, Line(rows[y], x)[x := t], u);
  }

  /** The framebuffer object that `part_one` and `part_two` draw into. */
  class Screen {
    var fb: seq<seq<Tile>>
    var xball: nat
    var xpaddle: nat

    function View(): Display
      reads this
    {
      Display(fb, xball, xpaddle)
    }

    /** `Screen::new`: no rows, and both columns 0. */
    constructor()
      ensures View() == BLANK
    {
      fb := [];
      xball := 0;
      xpaddle := 0;
    }

    /** `insert_tile`: grows the rows and the row as needed, then sets the cell. */
    method InsertTile(x: nat, y: nat, tile: Tile)
      modifies this
      ensures View() == Insert(old(View()), x, y, tile)
    {
      if y >= |fb| {
        fb := fb + seq(y + 1 - |fb|, _ => []);
      }
      match tile {
        case Ball => xball := x;
        case Paddle => xpaddle := x;
        case _ =>
      }
      assert fb == Rows(old(fb), y);
      var line := fb[y];
      if x >= |line| {
        line := line + seq(x + 1 - |line|, _ => Empty);
      }
      assert line == Line(fb[y], x);
      fb := fb[y := line[x := tile]];
    }

    /** `count_tile`. */
    function CountTile(tile: Tile): nat
      reads this
    {
      Tally(fb, tile)
    }

    /**
     * `part_one`'s loop over the output triples: draws each in turn,
     * stopping at the first that cannot be drawn.
     */
    method Draw(output: seq<int>) returns (r: GameResult<()>)
      modifies this
      ensures var p := Paint(old(View()), output);
        && (p.Success? ==> r == Success(()) && View() == p.value)
        && (p.Failure? ==> r == Failure(p.error))
    {
      var i := 0;
      while i + 3 <= |output|
        invariant i <= |output|
        invariant Paint(old(View()), output) == Paint(View(), output[i..])
        decreases |output| - i
      {
        var c := Place(output[i], output[i + 1], output[i + 2]);
        if c.Failure? {
          return Failure(c.error);
        }
        assert output[i..][3..] == output[i + 3..];
        InsertTile(c.value.0, c.value.1, c.value.2);
        i := i + 3;
      }
      return Success(());
    }

    /**
     * `part_two`'s loop over the output triples of one `compute`: a score
     * triple sets the score, any other is drawn.
     */
    method Show(score: int, output: seq<int>) returns (r: GameResult<int>)
      modifies this
      ensures var u := Update(Game(old(View()), score), output);
        && (u.Success? ==> r == Success(u.value.score) && View() == u.value.display)
        && (u.Failure? ==> r == Failure(u.error))
    {
      var s := score;
      var i := 0;
      while i + 3 <= |output|
        invariant i <= |output|
        invariant Update(Game(old(View()), score), output) == Update(Game(View(), s), output[i..])
        decreases |output| - i
      {
        assert output[i..][3..] == output[i + 3..];
        if output[i] == -1 && output[i + 1] == 0 {
          s := output[i + 2];
        } else {
          var c := Place(output[i], output[i + 1], output[i + 2]);
          if c.Failure? {
            return Failure(c.error);
          }
          InsertTile(c.value.0, c.value.1, c.value.2);
        }
        i := i + 3;
      }
      return Success(s);
    }
  }

  // ---------------------------------------------------------------------
  // Output triples
  // ---------------------------------------------------------------------

  /**
   * The arguments `insert_tile` receives for one triple, converted in the
   * order the source converts them: `x`, then `y`, then the tile id.
   */
  function Place(x: int, y: int, id: int): (r: GameResult<(nat, nat, Tile)>)
    ensures r.Success? <==> x >= 0 && y >= 0 && 0 <= id <= 4
    ensures r.Success? ==> r.value.0 == x && r.value.1 == y && TileId(r.value.2) == id
    ensures r.Failure? ==> r.error == if x < 0 then NegativeCoordinate(x)
                                      else if y < 0 then NegativeCoordinate(y)
                                      else InvalidTileId(id)
  {
    if x < 0 then Failure(NegativeCoordinate(x))
    else if y < 0 then Failure(NegativeCoordinate(y))
    else match TileFrom(id)
      case Failure(e) => Failure(e)
      case Success(t) => Success((x, y, t))
  }

  /**
   * The screen after drawing every whole triple of `out` in order, or the
   * first triple that cannot be drawn; like `chunks_exact(3)`, a trailing
   * partial triple is ignored.
   */
  function Paint(d: Display, out: seq<int>): GameResult<Display>
    decreases |out|
  {
    if |out| < 3 then Success(d)
    else match Place(out[0], out[1], out[2])
      case Failure(e) => Failure(e)
      case Success((x, y, t)) => Paint(Insert(d, x, y, t), out[3..])
  }

  /** Every whole triple of `out` names a cell and a tile. */
  ghost predicate Drawable(out: seq<int>)
  {
    forall k :: 0 <= k && 3 * k + 2 < |out| ==> out[3 * k] >= 0 && out[3 * k + 1] >= 0 && 0 <= out[3 * k + 2] <= 4
  }

  lemma {:induction false} DrawableRest(out: seq<int>)
    requires |out| >= 3
    ensures Drawable(out) <==> (out[0] >= 0 && out[1] >= 0 && 0 <= out[2] <= 4 && Drawable(out[3..]))
  {
    var rest := out[3..];
    if Drawable(out) {
      assert out[3 * 0] >= 0 && out[3 * 0 + 1] >= 0 && 0 <= out[3 * 0 + 2] <= 4;
      forall k | 0 <= k && 3 * k + 2 < |rest|
        ensures rest[3 * k] >= 0 && rest[3 * k + 1] >= 0 && 0 <= rest[3 * k + 2] <= 4
      {
        assert rest[3 * k] == out[3 * (k + 1)];
        assert rest[3 * k + 1] == out[3 * (k + 1) + 1];
        assert rest[3 * k + 2] == out[3 * (k + 1) + 2];
      }
    }
    if out[0] >= 0 && out[1] >= 0 && 0 <= out[2] <= 4 && Drawable(rest) {
      forall k | 0 <= k && 3 * k + 2 < |out|
        ensures out[3 * k] >= 0 && out[3 * k + 1] >= 0 && 0 <= out[3 * k + 2] <= 4
      {
        if k > 0 {
          assert out[3 * k] == rest[3 * (k - 1)];
          assert out[3 * k + 1] == rest[3 * (k - 1) + 1];
          assert out[3 * k + 2] == rest[3 * (k - 1) + 2];
        } else {
          assert 3 * k == 0;
        }
      }
    }
  }

  /** Drawing fails exactly when some triple has a negative coordinate or an unknown tile id. */
  lemma {:induction false} PaintSucceedsIff(d: Display, out: seq<int>)
    ensures Paint(d, out).Success? <==> Drawable(out)
    decreases |out|
  {
    if |out| >= 3 {
      DrawableRest(out);
      var c := Place(out[0], out[1], out[2]);
      if c.Success? {
        PaintSucceedsIff(Insert(d, c.value.0, c.value.1, c.value.2), out[3..]);
      }
    }
  }

  /** The tile the last triple of `out` aimed at cell `(x, y)` draws there, or `dflt` if none does. */
  function LastTile(out: seq<int>, x: nat, y: nat, dflt: Tile): Tile
    decreases |out|
  {
    if |out| < 3 then dflt
    else
      var here := if out[0] == x && out[1] == y && TileFrom(out[2]).Success? then TileFrom(out[2]).value else dflt;
      LastTile(out[3..], x, y, here)
  }

  /** On the painted screen every cell shows the last tile drawn there, or what it showed before. */
  lemma {:induction false} PaintLastWins(d: Display, out: seq<int>, x: nat, y: nat)
    requires Paint(d, out).Success?
    ensures At(Paint(d, out).value.fb, x, y) == LastTile(out, x, y, At(d.fb, x, y))
    decreases |out|
  {
    if |out| >= 3 {
      var c := Place(out[0], out[1], out[2]);
      var e := Insert(d, c.value.0, c.value.1, c.value.2);
      InsertShows(d, c.value.0, c.value.1, c.value.2);
      PaintLastWins(e, out[3..], x, y);
    }
  }

  // ---------------------------------------------------------------------
  // Part two: the score and the joystick
  // ---------------------------------------------------------------------

  /** What `part_two` keeps between batches of output. */
  datatype Game = Game(display: Display, score: int)

  /** Whether a triple sets the score rather than drawing a tile. */
  predicate IsScore(x: int, y: int)
  {
    x == -1 && y == 0
  }

  /** `part_two`'s handling of one batch of output triples. */
  function Update(g: Game, out: seq<int>): GameResult<Game>
    decreases |out|
  {
    if |out| < 3 then Success(g)
    else if IsScore(out[0], out[1]) then Update(g.(score := out[2]), out[3..])
    else match Place(out[0], out[1], out[2])
      case Failure(e) => Failure(e)
      case Success((x, y, t)) => Update(g.(display := Insert(g.display, x, y, t)), out[3..])
  }

  /** The whole triples of `out` that draw tiles, in order. */
  function Tiles(out: seq<int>): (r: seq<int>)
    ensures |r| % 3 == 0 && |r| <= |out|
    decreases |out|
  {
    if |out| < 3 then []
    else if IsScore(out[0], out[1]) then Tiles(out[3..])
    else out[..3] + Tiles(out[3..])
  }

  /** The value of the last score triple of `out`, or `score` if there is none. */
  function LastScore(out: seq<int>, score: int): int
    decreases |out|
  {
    if |out| < 3 then score
    else LastScore(out[3..], if IsScore(out[0], out[1]) then out[2] else score)
  }

  /**
   * A batch of output in part two ends with the score of its last score
   * triple, and leaves the screen as part one's drawing of its other
   * triples would.
   */
  lemma {:induction false} UpdateSplits(g: Game, out: seq<int>)
    ensures Update(g, out).Success? <==> Paint(g.display, Tiles(out)).Success?
    ensures Update(g, out).Success? ==>
      Update(g, out).value == Game(Paint(g.display, Tiles(out)).value, LastScore(out, g.score))
    decreases |out|
  {
    if |out| >= 3 {
      if IsScore(out[0], out[1]) {
        UpdateSplits(g.(score := out[2]), out[3..]);
      } else {
        var t := Tiles(out);
        assert t[..3] == out[..3] && t[3..] == Tiles(out[3..]);
        var c := Place(out[0], out[1], out[2]);
        if c.Success? {
          UpdateSplits(g.(display := Insert(g.display, c.value.0, c.value.1, c.value.2)), out[3..]);
        }
      }
    }
  }

  /**
   * The joystick after a batch: left when the ball is left of the paddle,
   * right when it is right of it, and held where it was when they are
   * level. A move always brings the paddle one column closer to the ball.
   */
  function Joystick(xball: nat, xpaddle: nat, held: int): (r: int)
    ensures xball == xpaddle ==> r == held
    ensures xball != xpaddle ==> (r == 1 || r == -1) && Dist(xball, xpaddle + r) < Dist(xball, xpaddle)
  {
    if xball < xpaddle then -1 else if xball > xpaddle then 1 else held
  }

  function Dist(a: int, b: int): nat
  {
    if a < b then b - a else a - b
  }

  /**
   * `part_two`'s loop, for at most `rounds` calls to `compute` of at most
   * `fuel` instructions each: each call is given the joystick position
   * alone; its output must be whole triples; the screen and score are
   * updated; the joystick is moved; and a halted program ends the game.
   */
  function Play(s: State, g: Game, joystick: int, rounds: nat, fuel: nat): GameResult<int>
    decreases rounds
  {
    if rounds == 0 then Failure(Unfinished)
    else
      var o := Run(s, [joystick], fuel, []);
      if o.status.Failed? || o.status.OutOfFuel? then Failure(Stalled(o.status))
      else if |o.output| % 3 != 0 then Failure(WrongOutputLength)
      else match Update(g, o.output)
        case Failure(e) => Failure(e)
        case Success(h) =>
          if o.status == Stopped(ProgramHalt) then Success(h.score)
          else Play(o.state, h, Joystick(h.display.xball, h.display.xpaddle, joystick), rounds - 1, fuel)
  }

  /** The machine `part_two` starts: the program with 2 written at address 0 ("play for free"). */
  function Coin(prog: seq<int>): (s: State)
    ensures Read(s.mem, 0) == 2 && s.pc == 0 && s.relativeBase == 0
    ensures forall a: nat :: a != 0 ==> Read(s.mem, a) == Read(prog, a)
  {
    PokeThenPeek(prog, 0, 2);
    State(Write(prog, 0, 2), 0, 0)
  }

  /** `part_two`: the final score. */
  function FinalScore(prog: seq<int>, rounds: nat, fuel: nat): GameResult<int>
  {
    Play(Coin(prog), Game(BLANK, 0), 0, rounds, fuel)
  }

  /** `part_one`: the number of blocks on the screen once the program, given no input, has halted. */
  function BlockCount(prog: seq<int>, fuel: nat): GameResult<nat>
  {
    var o := Run(Load(prog), [], fuel, []);
    if o.status != Stopped(ProgramHalt) then Failure(Stalled(o.status))
    else if |o.output| % 3 != 0 then Failure(WrongOutputLength)
    else match Paint(BLANK, o.output)
      case Failure(e) => Failure(e)
      case Success(d) => Success(Tally(d.fb, Block))
  }

  /**
   * Part one has an answer exactly when the program halts within the fuel,
   * outputs whole triples, and every triple can be drawn.
   */
  lemma BlockCountSucceedsIff(prog: seq<int>, fuel: nat)
    ensures var o := Run(Load(prog), [], fuel, []);
      BlockCount(prog, fuel).Success? <==>
        o.status == Stopped(ProgramHalt) && |o.output| % 3 == 0 && Drawable(o.output)
  {
    PaintSucceedsIff(BLANK, Run(Load(prog), [], fuel, []).output);
  }

  /** Allowing more rounds does not change a finished game's score. */
  lemma {:induction false} PlayMoreRounds(s: State, g: Game, joystick: int, rounds: nat, extra: nat, fuel: nat)
    requires Play(s, g, joystick, rounds, fuel).Success?
    ensures Play(s, g, joystick, rounds + extra, fuel) == Play(s, g, joystick, rounds, fuel)
    decreases rounds
  {
    var o := Run(s, [joystick], fuel, []);
    if o.status != Stopped(ProgramHalt) {
      var h := Update(g, o.output).value;
      PlayMoreRounds(o.state, h, Joystick(h.display.xball, h.display.xpaddle, joystick), rounds - 1, extra, fuel);
    }
  }

  /** Allowing each `compute` more instructions does not change a finished game's score. */
  lemma {:induction false} PlayMoreFuel(s: State, g: Game, joystick: int, rounds: nat, fuel: nat, extra: nat)
    requires Play(s, g, joystick, rounds, fuel).Success?
    ensures Play(s, g, joystick, rounds, fuel + extra) == Play(s, g, joystick, rounds, fuel)
    decreases rounds
  {
    var o := Run(s, [joystick], fuel, []);
    DriveMoreFuel(Exec, s, [joystick], fuel, extra, []);
    if o.status != Stopped(ProgramHalt) {
      var h := Update(g, o.output).value;
      PlayMoreFuel(o.state, h, Joystick(h.display.xball, h.display.xpaddle, joystick), rounds - 1, fuel, extra);
    }
  }

  /** `part_one`, on the machine and screen objects. */
  method PartOne(prog: seq<int>, fuel: nat) returns (r: GameResult<nat>)
    ensures r == BlockCount(prog, fuel)
  {
    var iss := new FullMachineIss.IntcodeISS(prog);
    var reason, output := iss.Compute([], fuel);
    if reason != Stopped(ProgramHalt) {
      return Failure(Stalled(reason));
    }
    if |output| % 3 != 0 {
      return Failure(WrongOutputLength);
    }
    var screen := new Screen();
    var drawn := screen.Draw(output);
    if drawn.Failure? {
      return Failure(drawn.error);
    }
    return Success(screen.CountTile(Block));
  }

  /** `part_two`, on the machine and screen objects, for at most `rounds` calls to `compute`. */
  method PartTwo(prog: seq<int>, rounds: nat, fuel: nat) returns (r: GameResult<int>)
    ensures r == FinalScore(prog, rounds, fuel)
  {
    var iss := new FullMachineIss.IntcodeISS(prog);
    iss.Poke(0, 2);
    var screen := new Screen();
    var score := 0;
    var input := 0;
    var left := rounds;
    while left > 0
      invariant FinalScore(prog, rounds, fuel) == Play(iss.Snapshot(), Game(screen.View(), score), input, left, fuel)
      decreases left
    {
      var reason, output := iss.Compute([input], fuel);
      if reason.Failed? || reason.OutOfFuel? {
        return Failure(Stalled(reason));
      }
      if |output| % 3 != 0 {
        return Failure(WrongOutputLength);
      }
      var shown := screen.Show(score, output);
      if shown.Failure? {
        return Failure(shown.error);
      }
      score := shown.value;
      if screen.xball < screen.xpaddle {
        input := -1;
      } else if screen.xball > screen.xpaddle {
        input := 1;
      }
      if reason == Stopped(ProgramHalt) {
        return Success(score);
      }
      left := left - 1;
    }
    return Failure(Unfinished);
  }
}
