/**
 * The day 5 Intcode machine (`src/bin/day5.rs`): a program, an input
 * stream and an output vector held by one `IntcodeISS` object whose
 * `compute` runs until `99`. A Get with the input stream used up panics.
 */
module IoMachine {
  import opened SmallIntcode

  /** Day 5 has no way to wait for input: starving is a panic. */
  function Fatal(s: Status): (r: Status)
    ensures r != Starved
    ensures s != Starved ==> r == s
    ensures s == Starved ==> r == Failed(InputExhausted)
  {
    if s == Starved then Failed(InputExhausted) else s
  }

  class IntcodeISS {
    var mem: seq<int>
    var pc: nat
    var input: seq<int>
    var output: seq<int>

    /** `IntcodeISS::new`: a copy of the program, `pc` 0, the whole input unread, nothing output. */
    constructor (prog: seq<int>, input: seq<int>)
      ensures mem == prog && pc == 0 && this.input == input && output == []
    {
      mem := prog;
      pc := 0;
      this.input := input;
      output := [];
    }

    function GetOutput(): seq<int>
      reads this
    {
      output
    }

    /** `poke`: writes one cell, or reports the index past the vector. */
    method Poke(i: nat, val: int) returns (ok: bool)
      modifies this
      ensures ok <==> i < |old(mem)|
      ensures mem == if ok then old(mem)[i := val] else old(mem)
      ensures pc == old(pc) && input == old(input) && output == old(output)
    {
      ok := i < |mem|;
      if ok {
        mem := mem[i := val];
      }
    }

    /**
     * One trip round `compute`'s loop: decode at `pc`, perform the
     * instruction, and step or jump. A trip that ends the loop leaves the
     * machine as it was.
     */
    method Cycle() returns (st: Step)
      modifies this
      ensures st == Exec(old(mem), old(pc), old(input))
      ensures st.Running? ==> mem == st.mem && pc == st.pc && input == st.input && output == old(output) + st.out
      ensures st.Stop? ==> mem == old(mem) && pc == old(pc) && input == old(input) && output == old(output)
    {
      match Decode(mem, pc)
      case Err(f) =>
        st := Stop(Failed(f));
      case Ok(ins) =>
        st := Execute(ins);
    }

    /** The body of `compute`'s `match` on a decoded instruction, then the `pc` update. */
    method Execute(ins: Instruction) returns (st: Step)
      modifies this
      ensures st == Apply(old(mem), old(pc), ins, old(input))
      ensures st.Running? ==> mem == st.mem && pc == st.pc && input == st.input && output == old(output) + st.out
      ensures st.Stop? ==> mem == old(mem) && pc == old(pc) && input == old(input) && output == old(output)
    {
      var out: seq<int> := [];
      var ok := true;
      var len := 0;
      match ins {
        case Add(d, a, b) =>
          ok := Poke(d, a + b);
          len := 4;
        case Mul(d, a, b) =>
          ok := Poke(d, a * b);
          len := 4;
        case Get(d) =>
          if |input| == 0 {
            return Stop(Starved);
          }
          var i := input[0];
          ok := Poke(d, i);
          if ok {
            input := input[1..];
          }
          len := 2;
        case Put(a) =>
          out := [a];
          output := output + out;
          len := 2;
        case Jpt(a, t) =>
          if a != 0 {
            pc := t;
          } else {
            len := 3;
          }
        case Jpf(a, t) =>
          if a == 0 {
            pc := t;
          } else {
            len := 3;
          }
        case Lt(d, a, b) =>
          ok := Poke(d, if a < b then 1 else 0);
          len := 4;
        case Eq(d, a, b) =>
          ok := Poke(d, if a == b then 1 else 0);
          len := 4;
        case Halt =>
          return Stop(Halted);
      }
      if !ok {
        return Stop(Failed(OutOfBounds(ins.d)));
      }
      pc := pc + len;
      st := Running(mem, pc, input, out);
    }

    /**
     * `compute`, for at most `fuel` trips round the loop: the machine ends in
     * the state `Run` describes, and the result says why it stopped.
     */
    method Compute(fuel: nat) returns (status: Status)
      modifies this
      ensures var o := Run(old(mem), old(pc), old(input), fuel, old(output));
        && status == Fatal(o.status) && mem == o.mem && pc == o.pc && input == o.input && output == o.output
    {
      var left: nat := fuel;
      while left > 0
        invariant left <= fuel
        invariant Run(old(mem), old(pc), old(input), fuel, old(output)) == Run(mem, pc, input, left, output)
        decreases left
      {
        ghost var m, p, i, o := mem, pc, input, output;
        var st := Cycle();
        if st.Stop? {
          RunStops(m, p, i, left, o);
          return Fatal(st.status);
        }
        RunRunning(m, p, i, left, o);
        left := left - 1;
      }
      return OutOfFuel;
    }
  }

  /** The tests' `eval_with_io`: run a fresh machine on `input` and collect its output. */
  function EvalWithIo(prog: seq<int>, input: seq<int>, fuel: nat): (Status, seq<int>)
  {
    var o := Run(prog, 0, input, fuel, []);
    (Fatal(o.status), o.output)
  }

  /** The tests' `eval`: run a fresh machine with no input and read cell `pos` afterwards. */
  function Eval(prog: seq<int>, pos: nat, fuel: nat): (Status, Result<int>)
  {
    var o := Run(prog, 0, [], fuel, []);
    (Fatal(o.status), Peek(o.mem, pos))
  }

  const EQ_POSITION: seq<int> :=
    [3, 9, 8, 9, 10, 9, 4, 9] +
    [99, -1, 8]

  lemma {:induction false} EqualsEightPositionFrom0(x: int, fuel: nat)
    requires fuel >= 4
    ensures Run(EQ_POSITION, 0, [x], fuel, [])
      == Run(EQ_POSITION[9 := x], 2, [], fuel - 1, [])
  {
    RunGet(EQ_POSITION, 0, [x], fuel, [], 9, x, [], 2, fuel - 1);
  }

  lemma {:induction false} EqualsEightPositionFrom1(x: int, fuel: nat)
    requires fuel >= 4
    ensures Run(EQ_POSITION[9 := x], 2, [], fuel - 1, [])
      == Run(EQ_POSITION[9 := x][9 := if x == 8 then 1 else 0], 6, [], fuel - 2, [])
  {
    RunTernary(EQ_POSITION[9 := x], 2, [], fuel - 1, [], 9, if x == 8 then 1 else 0, 6, fuel - 2);
  }

  lemma {:induction false} EqualsEightPositionFrom2(x: int, fuel: nat)
    requires fuel >= 4
    ensures Run(EQ_POSITION[9 := x][9 := if x == 8 then 1 else 0], 6, [], fuel - 2, [])
      == Run(EQ_POSITION[9 := x][9 := if x == 8 then 1 else 0], 8, [], fuel - 3, [if x == 8 then 1 else 0])
  {
    var none: seq<int> := [];
    RunPut(EQ_POSITION[9 := x][9 := if x == 8 then 1 else 0], 6, [], fuel - 2, [], if x == 8 then 1 else 0, 8, fuel - 3);
    assert none + [if x == 8 then 1 else 0] == [if x == 8 then 1 else 0];
  }

  lemma {:induction false} EqualsEightPositionFrom3(x: int, fuel: nat)
    requires fuel >= 4
    ensures Run(EQ_POSITION[9 := x][9 := if x == 8 then 1 else 0], 8, [], fuel - 3, [if x == 8 then 1 else 0])
      == Outcome(Halted, EQ_POSITION[9 := x][9 := if x == 8 then 1 else 0], 8, [], [if x == 8 then 1 else 0], fuel - 3)
  {
    RunHalt(EQ_POSITION[9 := x][9 := if x == 8 then 1 else 0], 8, [], fuel - 3, [if x == 8 then 1 else 0]);
  }

  /** "Is the input equal to 8?" with position-mode operands: prints 1 if it is and 0 if not. */
  lemma {:induction false} EqualsEightPosition(x: int, fuel: nat)
    requires fuel >= 4
    ensures EvalWithIo(EQ_POSITION, [x], fuel) == (Halted, [if x == 8 then 1 else 0])
  {
    EqualsEightPositionFrom0(x, fuel); EqualsEightPositionFrom1(x, fuel); EqualsEightPositionFrom2(x, fuel); EqualsEightPositionFrom3(x, fuel);
  }

  const LT_POSITION: seq<int> :=
    [3, 9, 7, 9, 10, 9, 4, 9] +
    [99, -1, 8]

  lemma {:induction false} LessThanEightPositionFrom0(x: int, fuel: nat)
    requires fuel >= 4
    ensures Run(LT_POSITION, 0, [x], fuel, [])
      == Run(LT_POSITION[9 := x], 2, [], fuel - 1, [])
  {
    RunGet(LT_POSITION, 0, [x], fuel, [], 9, x, [], 2, fuel - 1);
  }

  lemma {:induction false} LessThanEightPositionFrom1(x: int, fuel: nat)
    requires fuel >= 4
    ensures Run(LT_POSITION[9 := x], 2, [], fuel - 1, [])
      == Run(LT_POSITION[9 := x][9 := if x < 8 then 1 else 0], 6, [], fuel - 2, [])
  {
    RunTernary(LT_POSITION[9 := x], 2, [], fuel - 1, [], 9, if x < 8 then 1 else 0, 6, fuel - 2);
  }

  lemma {:induction false} LessThanEightPositionFrom2(x: int, fuel: nat)
    requires fuel >= 4
    ensures Run(LT_POSITION[9 := x][9 := if x < 8 then 1 else 0], 6, [], fuel - 2, [])
      == Run(LT_POSITION[9 := x][9 := if x < 8 then 1 else 0], 8, [], fuel - 3, [if x < 8 then 1 else 0])
  {
    var none: seq<int> := [];
    RunPut(LT_POSITION[9 := x][9 := if x < 8 then 1 else 0], 6, [], fuel - 2, [], if x < 8 then 1 else 0, 8, fuel - 3);
    assert none + [if x < 8 then 1 else 0] == [if x < 8 then 1 else 0];
  }

  lemma {:induction false} LessThanEightPositionFrom3(x: int, fuel: nat)
    requires fuel >= 4
    ensures Run(LT_POSITION[9 := x][9 := if x < 8 then 1 else 0], 8, [], fuel - 3, [if x < 8 then 1 else 0])
      == Outcome(Halted, LT_POSITION[9 := x][9 := if x < 8 then 1 else 0], 8, [], [if x < 8 then 1 else 0], fuel - 3)
  {
    RunHalt(LT_POSITION[9 := x][9 := if x < 8 then 1 else 0], 8, [], fuel - 3, [if x < 8 then 1 else 0]);
  }

  /** "Is the input less than 8?" with position-mode operands: prints 1 if it is and 0 if not. */
  lemma {:induction false} LessThanEightPosition(x: int, fuel: nat)
    requires fuel >= 4
    ensures EvalWithIo(LT_POSITION, [x], fuel) == (Halted, [if x < 8 then 1 else 0])
  {
    LessThanEightPositionFrom0(x, fuel); LessThanEightPositionFrom1(x, fuel); LessThanEightPositionFrom2(x, fuel); LessThanEightPositionFrom3(x, fuel);
  }

  const EQ_IMMEDIATE: seq<int> :=
    [3, 3, 1108, -1, 8, 3, 4, 3] +
    [99]

  lemma {:induction false} EqualsEightImmediateFrom0(x: int, fuel: nat)
    requires fuel >= 4
    ensures Run(EQ_IMMEDIATE, 0, [x], fuel, [])
      == Run(EQ_IMMEDIATE[3 := x], 2, [], fuel - 1, [])
  {
    RunGet(EQ_IMMEDIATE, 0, [x], fuel, [], 3, x, [], 2, fuel - 1);
  }

  lemma {:induction false} EqualsEightImmediateFrom1(x: int, fuel: nat)
    requires fuel >= 4
    ensures Run(EQ_IMMEDIATE[3 := x], 2, [], fuel - 1, [])
      == Run(EQ_IMMEDIATE[3 := x][3 := if x == 8 then 1 else 0], 6, [], fuel - 2, [])
  {
    RunTernary(EQ_IMMEDIATE[3 := x], 2, [], fuel - 1, [], 3, if x == 8 then 1 else 0, 6, fuel - 2);
  }

  lemma {:induction false} EqualsEightImmediateFrom2(x: int, fuel: nat)
    requires fuel >= 4
    ensures Run(EQ_IMMEDIATE[3 := x][3 := if x == 8 then 1 else 0], 6, [], fuel - 2, [])
      == Run(EQ_IMMEDIATE[3 := x][3 := if x == 8 then 1 else 0], 8, [], fuel - 3, [if x == 8 then 1 else 0])
  {
    var none: seq<int> := [];
    RunPut(EQ_IMMEDIATE[3 := x][3 := if x == 8 then 1 else 0], 6, [], fuel - 2, [], if x == 8 then 1 else 0, 8, fuel - 3);
    assert none + [if x == 8 then 1 else 0] == [if x == 8 then 1 else 0];
  }

  lemma {:induction false} EqualsEightImmediateFrom3(x: int, fuel: nat)
    requires fuel >= 4
    ensures Run(EQ_IMMEDIATE[3 := x][3 := if x == 8 then 1 else 0], 8, [], fuel - 3, [if x == 8 then 1 else 0])
      == Outcome(Halted, EQ_IMMEDIATE[3 := x][3 := if x == 8 then 1 else 0], 8, [], [if x == 8 then 1 else 0], fuel - 3)
  {
    RunHalt(EQ_IMMEDIATE[3 := x][3 := if x == 8 then 1 else 0], 8, [], fuel - 3, [if x == 8 then 1 else 0]);
  }

  /** "Is the input equal to 8?" with immediate-mode operands: prints 1 if it is and 0 if not. */
  lemma {:induction false} EqualsEightImmediate(x: int, fuel: nat)
    requires fuel >= 4
    ensures EvalWithIo(EQ_IMMEDIATE, [x], fuel) == (Halted, [if x == 8 then 1 else 0])
  {
    EqualsEightImmediateFrom0(x, fuel); EqualsEightImmediateFrom1(x, fuel); EqualsEightImmediateFrom2(x, fuel); EqualsEightImmediateFrom3(x, fuel);
  }

  const LT_IMMEDIATE: seq<int> :=
    [3, 3, 1107, -1, 8, 3, 4, 3] +
    [99]

  lemma {:induction false} LessThanEightImmediateFrom0(x: int, fuel: nat)
    requires fuel >= 4
    ensures Run(LT_IMMEDIATE, 0, [x], fuel, [])
      == Run(LT_IMMEDIATE[3 := x], 2, [], fuel - 1, [])
  {
    RunGet(LT_IMMEDIATE, 0, [x], fuel, [], 3, x, [], 2, fuel - 1);
  }

  lemma {:induction false} LessThanEightImmediateFrom1(x: int, fuel: nat)
    requires fuel >= 4
    ensures Run(LT_IMMEDIATE[3 := x], 2, [], fuel - 1, [])
      == Run(LT_IMMEDIATE[3 := x][3 := if x < 8 then 1 else 0], 6, [], fuel - 2, [])
  {
    RunTernary(LT_IMMEDIATE[3 := x], 2, [], fuel - 1, [], 3, if x < 8 then 1 else 0, 6, fuel - 2);
  }

  lemma {:induction false} LessThanEightImmediateFrom2(x: int, fuel: nat)
    requires fuel >= 4
    ensures Run(LT_IMMEDIATE[3 := x][3 := if x < 8 then 1 else 0], 6, [], fuel - 2, [])
      == Run(LT_IMMEDIATE[3 := x][3 := if x < 8 then 1 else 0], 8, [], fuel - 3, [if x < 8 then 1 else 0])
  {
    var none: seq<int> := [];
    RunPut(LT_IMMEDIATE[3 := x][3 := if x < 8 then 1 else 0], 6, [], fuel - 2, [], if x < 8 then 1 else 0, 8, fuel - 3);
    assert none + [if x < 8 then 1 else 0] == [if x < 8 then 1 else 0];
  }

  lemma {:induction false} LessThanEightImmediateFrom3(x: int, fuel: nat)
    requires fuel >= 4
    ensures Run(LT_IMMEDIATE[3 := x][3 := if x < 8 then 1 else 0], 8, [], fuel - 3, [if x < 8 then 1 else 0])
      == Outcome(Halted, LT_IMMEDIATE[3 := x][3 := if x < 8 then 1 else 0], 8, [], [if x < 8 then 1 else 0], fuel - 3)
  {
    RunHalt(LT_IMMEDIATE[3 := x][3 := if x < 8 then 1 else 0], 8, [], fuel - 3, [if x < 8 then 1 else 0]);
  }

  /** "Is the input less than 8?" with immediate-mode operands: prints 1 if it is and 0 if not. */
  lemma {:induction false} LessThanEightImmediate(x: int, fuel: nat)
    requires fuel >= 4
    ensures EvalWithIo(LT_IMMEDIATE, [x], fuel) == (Halted, [if x < 8 then 1 else 0])
  {
    LessThanEightImmediateFrom0(x, fuel); LessThanEightImmediateFrom1(x, fuel); LessThanEightImmediateFrom2(x, fuel); LessThanEightImmediateFrom3(x, fuel);
  }

  const JUMP_POSITION: seq<int> :=
    [3, 12, 6, 12, 15, 1, 13, 14] +
    [13, 4, 13, 99, -1, 0, 1, 9]

  lemma {:induction false} JumpPositionZeroFrom0(x: int, fuel: nat)
    requires fuel >= 4 && x == 0
    ensures Run(JUMP_POSITION, 0, [x], fuel, [])
      == Run(JUMP_POSITION[12 := x], 2, [], fuel - 1, [])
  {
    RunGet(JUMP_POSITION, 0, [x], fuel, [], 12, x, [], 2, fuel - 1);
  }

  lemma {:induction false} JumpPositionZeroFrom1(x: int, fuel: nat)
    requires fuel >= 4 && x == 0
    ensures Run(JUMP_POSITION[12 := x], 2, [], fuel - 1, [])
      == Run(JUMP_POSITION[12 := x], 9, [], fuel - 2, [])
  {
    RunJump(JUMP_POSITION[12 := x], 2, [], fuel - 1, [], 9, fuel - 2);
  }

  lemma {:induction false} JumpPositionZeroFrom2(x: int, fuel: nat)
    requires fuel >= 4 && x == 0
    ensures Run(JUMP_POSITION[12 := x], 9, [], fuel - 2, [])
      == Run(JUMP_POSITION[12 := x], 11, [], fuel - 3, [0])
  {
    var none: seq<int> := [];
    RunPut(JUMP_POSITION[12 := x], 9, [], fuel - 2, [], 0, 11, fuel - 3);
    assert none + [0] == [0];
  }

  lemma {:induction false} JumpPositionZeroFrom3(x: int, fuel: nat)
    requires fuel >= 4 && x == 0
    ensures Run(JUMP_POSITION[12 := x], 11, [], fuel - 3, [0])
      == Outcome(Halted, JUMP_POSITION[12 := x], 11, [], [0], fuel - 3)
  {
    RunHalt(JUMP_POSITION[12 := x], 11, [], fuel - 3, [0]);
  }

  lemma {:induction false} JumpPositionNonZeroFrom0(x: int, fuel: nat)
    requires fuel >= 5 && x != 0
    ensures Run(JUMP_POSITION, 0, [x], fuel, [])
      == Run(JUMP_POSITION[12 := x], 2, [], fuel - 1, [])
  {
    RunGet(JUMP_POSITION, 0, [x], fuel, [], 12, x, [], 2, fuel - 1);
  }

  lemma {:induction false} JumpPositionNonZeroFrom1(x: int, fuel: nat)
    requires fuel >= 5 && x != 0
    ensures Run(JUMP_POSITION[12 := x], 2, [], fuel - 1, [])
      == Run(JUMP_POSITION[12 := x], 5, [], fuel - 2, [])
  {
    RunJump(JUMP_POSITION[12 := x], 2, [], fuel - 1, [], 5, fuel - 2);
  }

  lemma {:induction false} JumpPositionNonZeroFrom2(x: int, fuel: nat)
    requires fuel >= 5 && x != 0
    ensures Run(JUMP_POSITION[12 := x], 5, [], fuel - 2, [])
      == Run(JUMP_POSITION[12 := x][13 := 1], 9, [], fuel - 3, [])
  {
    RunTernary(JUMP_POSITION[12 := x], 5, [], fuel - 2, [], 13, 1, 9, fuel - 3);
  }

  lemma {:induction false} JumpPositionNonZeroFrom3(x: int, fuel: nat)
    requires fuel >= 5 && x != 0
    ensures Run(JUMP_POSITION[12 := x][13 := 1], 9, [], fuel - 3, [])
      == Run(JUMP_POSITION[12 := x][13 := 1], 11, [], fuel - 4, [1])
  {
    var none: seq<int> := [];
    RunPut(JUMP_POSITION[12 := x][13 := 1], 9, [], fuel - 3, [], 1, 11, fuel - 4);
    assert none + [1] == [1];
  }

  lemma {:induction false} JumpPositionNonZeroFrom4(x: int, fuel: nat)
    requires fuel >= 5 && x != 0
    ensures Run(JUMP_POSITION[12 := x][13 := 1], 11, [], fuel - 4, [1])
      == Outcome(Halted, JUMP_POSITION[12 := x][13 := 1], 11, [], [1], fuel - 4)
  {
    RunHalt(JUMP_POSITION[12 := x][13 := 1], 11, [], fuel - 4, [1]);
  }

  /** The position-mode jump test: prints 0 if the input is 0 and 1 otherwise. */
  lemma {:induction false} JumpPosition(x: int, fuel: nat)
    requires fuel >= 5
    ensures EvalWithIo(JUMP_POSITION, [x], fuel) == (Halted, [if x == 0 then 0 else 1])
  {
    if x == 0 {
      JumpPositionZeroFrom0(x, fuel); JumpPositionZeroFrom1(x, fuel); JumpPositionZeroFrom2(x, fuel); JumpPositionZeroFrom3(x, fuel);
    } else {
      JumpPositionNonZeroFrom0(x, fuel); JumpPositionNonZeroFrom1(x, fuel); JumpPositionNonZeroFrom2(x, fuel); JumpPositionNonZeroFrom3(x, fuel); JumpPositionNonZeroFrom4(x, fuel);
    }
  }

  const JUMP_IMMEDIATE: seq<int> :=
    [3, 3, 1105, -1, 9, 1101, 0, 0] +
    [12, 4, 12, 99, 1]

  lemma {:induction false} JumpImmediateZeroFrom0(x: int, fuel: nat)
    requires fuel >= 5 && x == 0
    ensures Run(JUMP_IMMEDIATE, 0, [x], fuel, [])
      == Run(JUMP_IMMEDIATE[3 := x], 2, [], fuel - 1, [])
  {
    RunGet(JUMP_IMMEDIATE, 0, [x], fuel, [], 3, x, [], 2, fuel - 1);
  }

  lemma {:induction false} JumpImmediateZeroFrom1(x: int, fuel: nat)
    requires fuel >= 5 && x == 0
    ensures Run(JUMP_IMMEDIATE[3 := x], 2, [], fuel - 1, [])
      == Run(JUMP_IMMEDIATE[3 := x], 5, [], fuel - 2, [])
  {
    RunJump(JUMP_IMMEDIATE[3 := x], 2, [], fuel - 1, [], 5, fuel - 2);
  }

  lemma {:induction false} JumpImmediateZeroFrom2(x: int, fuel: nat)
    requires fuel >= 5 && x == 0
    ensures Run(JUMP_IMMEDIATE[3 := x], 5, [], fuel - 2, [])
      == Run(JUMP_IMMEDIATE[3 := x][12 := 0], 9, [], fuel - 3, [])
  {
    RunTernary(JUMP_IMMEDIATE[3 := x], 5, [], fuel - 2, [], 12, 0, 9, fuel - 3);
  }

  lemma {:induction false} JumpImmediateZeroFrom3(x: int, fuel: nat)
    requires fuel >= 5 && x == 0
    ensures Run(JUMP_IMMEDIATE[3 := x][12 := 0], 9, [], fuel - 3, [])
      == Run(JUMP_IMMEDIATE[3 := x][12 := 0], 11, [], fuel - 4, [0])
  {
    var none: seq<int> := [];
    RunPut(JUMP_IMMEDIATE[3 := x][12 := 0], 9, [], fuel - 3, [], 0, 11, fuel - 4);
    assert none + [0] == [0];
  }

  lemma {:induction false} JumpImmediateZeroFrom4(x: int, fuel: nat)
    requires fuel >= 5 && x == 0
    ensures Run(JUMP_IMMEDIATE[3 := x][12 := 0], 11, [], fuel - 4, [0])
      == Outcome(Halted, JUMP_IMMEDIATE[3 := x][12 := 0], 11, [], [0], fuel - 4)
  {
    RunHalt(JUMP_IMMEDIATE[3 := x][12 := 0], 11, [], fuel - 4, [0]);
  }

  lemma {:induction false} JumpImmediateNonZeroFrom0(x: int, fuel: nat)
    requires fuel >= 4 && x != 0
    ensures Run(JUMP_IMMEDIATE, 0, [x], fuel, [])
      == Run(JUMP_IMMEDIATE[3 := x], 2, [], fuel - 1, [])
  {
    RunGet(JUMP_IMMEDIATE, 0, [x], fuel, [], 3, x, [], 2, fuel - 1);
  }

  lemma {:induction false} JumpImmediateNonZeroFrom1(x: int, fuel: nat)
    requires fuel >= 4 && x != 0
    ensures Run(JUMP_IMMEDIATE[3 := x], 2, [], fuel - 1, [])
      == Run(JUMP_IMMEDIATE[3 := x], 9, [], fuel - 2, [])
  {
    RunJump(JUMP_IMMEDIATE[3 := x], 2, [], fuel - 1, [], 9, fuel - 2);
  }

  lemma {:induction false} JumpImmediateNonZeroFrom2(x: int, fuel: nat)
    requires fuel >= 4 && x != 0
    ensures Run(JUMP_IMMEDIATE[3 := x], 9, [], fuel - 2, [])
      == Run(JUMP_IMMEDIATE[3 := x], 11, [], fuel - 3, [1])
  {
    var none: seq<int> := [];
    RunPut(JUMP_IMMEDIATE[3 := x], 9, [], fuel - 2, [], 1, 11, fuel - 3);
    assert none + [1] == [1];
  }

  lemma {:induction false} JumpImmediateNonZeroFrom3(x: int, fuel: nat)
    requires fuel >= 4 && x != 0
    ensures Run(JUMP_IMMEDIATE[3 := x], 11, [], fuel - 3, [1])
      == Outcome(Halted, JUMP_IMMEDIATE[3 := x], 11, [], [1], fuel - 3)
  {
    RunHalt(JUMP_IMMEDIATE[3 := x], 11, [], fuel - 3, [1]);
  }

  /** The immediate-mode jump test: prints 0 if the input is 0 and 1 otherwise. */
  lemma {:induction false} JumpImmediate(x: int, fuel: nat)
    requires fuel >= 5
    ensures EvalWithIo(JUMP_IMMEDIATE, [x], fuel) == (Halted, [if x == 0 then 0 else 1])
  {
    if x == 0 {
      JumpImmediateZeroFrom0(x, fuel); JumpImmediateZeroFrom1(x, fuel); JumpImmediateZeroFrom2(x, fuel); JumpImmediateZeroFrom3(x, fuel); JumpImmediateZeroFrom4(x, fuel);
    } else {
      JumpImmediateNonZeroFrom0(x, fuel); JumpImmediateNonZeroFrom1(x, fuel); JumpImmediateNonZeroFrom2(x, fuel); JumpImmediateNonZeroFrom3(x, fuel);
    }
  }

  const COMPARE_EIGHT: seq<int> :=
    [3, 21, 1008, 21, 8, 20, 1005, 20] +
    [22, 107, 8, 21, 20, 1006, 20, 31] +
    [1106, 0, 36, 98, 0, 0, 1002, 21] +
    [125, 20, 4, 20, 1105, 1, 46, 104] +
    [999, 1105, 1, 46, 1101, 1000, 1, 20] +
    [4, 20, 1105, 1, 46, 98, 99]

  lemma {:induction false} CompareEightBelowFrom0(x: int, fuel: nat)
    requires fuel >= 8 && x < 8
    ensures Run(COMPARE_EIGHT, 0, [x], fuel, [])
      == Run(COMPARE_EIGHT[21 := x], 2, [], fuel - 1, [])
  {
    RunGet(COMPARE_EIGHT, 0, [x], fuel, [], 21, x, [], 2, fuel - 1);
  }

  lemma {:induction false} CompareEightBelowFrom1(x: int, fuel: nat)
    requires fuel >= 8 && x < 8
    ensures Run(COMPARE_EIGHT[21 := x], 2, [], fuel - 1, [])
      == Run(COMPARE_EIGHT[21 := x][20 := if x == 8 then 1 else 0], 6, [], fuel - 2, [])
  {
    RunTernary(COMPARE_EIGHT[21 := x], 2, [], fuel - 1, [], 20, if x == 8 then 1 else 0, 6, fuel - 2);
  }

  lemma {:induction false} CompareEightBelowFrom2(x: int, fuel: nat)
    requires fuel >= 8 && x < 8
    ensures Run(COMPARE_EIGHT[21 := x][20 := if x == 8 then 1 else 0], 6, [], fuel - 2, [])
      == Run(COMPARE_EIGHT[21 := x][20 := if x == 8 then 1 else 0], 9, [], fuel - 3, [])
  {
    RunJump(COMPARE_EIGHT[21 := x][20 := if x == 8 then 1 else 0], 6, [], fuel - 2, [], 9, fuel - 3);
  }

  lemma {:induction false} CompareEightBelowFrom3(x: int, fuel: nat)
    requires fuel >= 8 && x < 8
    ensures Run(COMPARE_EIGHT[21 := x][20 := if x == 8 then 1 else 0], 9, [], fuel - 3, [])
      == Run(COMPARE_EIGHT[21 := x][20 := if x == 8 then 1 else 0][20 := if 8 < x then 1 else 0], 13, [], fuel - 4, [])
  {
    RunTernary(COMPARE_EIGHT[21 := x][20 := if x == 8 then 1 else 0], 9, [], fuel - 3, [], 20, if 8 < x then 1 else 0, 13, fuel - 4);
  }

  lemma {:induction false} CompareEightBelowFrom4(x: int, fuel: nat)
    requires fuel >= 8 && x < 8
    ensures Run(COMPARE_EIGHT[21 := x][20 := if x == 8 then 1 else 0][20 := if 8 < x then 1 else 0], 13, [], fuel - 4, [])
      == Run(COMPARE_EIGHT[21 := x][20 := if x == 8 then 1 else 0][20 := if 8 < x then 1 else 0], 31, [], fuel - 5, [])
  {
    RunJump(COMPARE_EIGHT[21 := x][20 := if x == 8 then 1 else 0][20 := if 8 < x then 1 else 0], 13, [], fuel - 4, [], 31, fuel - 5);
  }

  lemma {:induction false} CompareEightBelowFrom5(x: int, fuel: nat)
    requires fuel >= 8 && x < 8
    ensures Run(COMPARE_EIGHT[21 := x][20 := if x == 8 then 1 else 0][20 := if 8 < x then 1 else 0], 31, [], fuel - 5, [])
      == Run(COMPARE_EIGHT[21 := x][20 := if x == 8 then 1 else 0][20 := if 8 < x then 1 else 0], 33, [], fuel - 6, [999])
  {
    var none: seq<int> := [];
    RunPut(COMPARE_EIGHT[21 := x][20 := if x == 8 then 1 else 0][20 := if 8 < x then 1 else 0], 31, [], fuel - 5, [], 999, 33, fuel - 6);
    assert none + [999] == [999];
  }

  lemma {:induction false} CompareEightBelowFrom6(x: int, fuel: nat)
    requires fuel >= 8 && x < 8
    ensures Run(COMPARE_EIGHT[21 := x][20 := if x == 8 then 1 else 0][20 := if 8 < x then 1 else 0], 33, [], fuel - 6, [999])
      == Run(COMPARE_EIGHT[21 := x][20 := if x == 8 then 1 else 0][20 := if 8 < x then 1 else 0], 46, [], fuel - 7, [999])
  {
    RunJump(COMPARE_EIGHT[21 := x][20 := if x == 8 then 1 else 0][20 := if 8 < x then 1 else 0], 33, [], fuel - 6, [999], 46, fuel - 7);
  }

  lemma {:induction false} CompareEightBelowFrom7(x: int, fuel: nat)
    requires fuel >= 8 && x < 8
    ensures Run(COMPARE_EIGHT[21 := x][20 := if x == 8 then 1 else 0][20 := if 8 < x then 1 else 0], 46, [], fuel - 7, [999])
      == Outcome(Halted, COMPARE_EIGHT[21 := x][20 := if x == 8 then 1 else 0][20 := if 8 < x then 1 else 0], 46, [], [999], fuel - 7)
  {
    RunHalt(COMPARE_EIGHT[21 := x][20 := if x == 8 then 1 else 0][20 := if 8 < x then 1 else 0], 46, [], fuel - 7, [999]);
  }

  lemma {:induction false} CompareEightEqualFrom0(x: int, fuel: nat)
    requires fuel >= 7 && x == 8
    ensures Run(COMPARE_EIGHT, 0, [x], fuel, [])
      == Run(COMPARE_EIGHT[21 := x], 2, [], fuel - 1, [])
  {
    RunGet(COMPARE_EIGHT, 0, [x], fuel, [], 21, x, [], 2, fuel - 1);
  }

  lemma {:induction false} CompareEightEqualFrom1(x: int, fuel: nat)
    requires fuel >= 7 && x == 8
    ensures Run(COMPARE_EIGHT[21 := x], 2, [], fuel - 1, [])
      == Run(COMPARE_EIGHT[21 := x][20 := if x == 8 then 1 else 0], 6, [], fuel - 2, [])
  {
    RunTernary(COMPARE_EIGHT[21 := x], 2, [], fuel - 1, [], 20, if x == 8 then 1 else 0, 6, fuel - 2);
  }

  lemma {:induction false} CompareEightEqualFrom2(x: int, fuel: nat)
    requires fuel >= 7 && x == 8
    ensures Run(COMPARE_EIGHT[21 := x][20 := if x == 8 then 1 else 0], 6, [], fuel - 2, [])
      == Run(COMPARE_EIGHT[21 := x][20 := if x == 8 then 1 else 0], 22, [], fuel - 3, [])
  {
    RunJump(COMPARE_EIGHT[21 := x][20 := if x == 8 then 1 else 0], 6, [], fuel - 2, [], 22, fuel - 3);
  }

  lemma {:induction false} CompareEightEqualFrom3(x: int, fuel: nat)
    requires fuel >= 7 && x == 8
    ensures Run(COMPARE_EIGHT[21 := x][20 := if x == 8 then 1 else 0], 22, [], fuel - 3, [])
      == Run(COMPARE_EIGHT[21 := x][20 := if x == 8 then 1 else 0][20 := 1000], 26, [], fuel - 4, [])
  {
    RunTernary(COMPARE_EIGHT[21 := x][20 := if x == 8 then 1 else 0], 22, [], fuel - 3, [], 20, 1000, 26, fuel - 4);
  }

  lemma {:induction false} CompareEightEqualFrom4(x: int, fuel: nat)
    requires fuel >= 7 && x == 8
    ensures Run(COMPARE_EIGHT[21 := x][20 := if x == 8 then 1 else 0][20 := 1000], 26, [], fuel - 4, [])
      == Run(COMPARE_EIGHT[21 := x][20 := if x == 8 then 1 else 0][20 := 1000], 28, [], fuel - 5, [1000])
  {
    var none: seq<int> := [];
    RunPut(COMPARE_EIGHT[21 := x][20 := if x == 8 then 1 else 0][20 := 1000], 26, [], fuel - 4, [], 1000, 28, fuel - 5);
    assert none + [1000] == [1000];
  }

  lemma {:induction false} CompareEightEqualFrom5(x: int, fuel: nat)
    requires fuel >= 7 && x == 8
    ensures Run(COMPARE_EIGHT[21 := x][20 := if x == 8 then 1 else 0][20 := 1000], 28, [], fuel - 5, [1000])
      == Run(COMPARE_EIGHT[21 := x][20 := if x == 8 then 1 else 0][20 := 1000], 46, [], fuel - 6, [1000])
  {
    RunJump(COMPARE_EIGHT[21 := x][20 := if x == 8 then 1 else 0][20 := 1000], 28, [], fuel - 5, [1000], 46, fuel - 6);
  }

  lemma {:induction false} CompareEightEqualFrom6(x: int, fuel: nat)
    requires fuel >= 7 && x == 8
    ensures Run(COMPARE_EIGHT[21 := x][20 := if x == 8 then 1 else 0][20 := 1000], 46, [], fuel - 6, [1000])
      == Outcome(Halted, COMPARE_EIGHT[21 := x][20 := if x == 8 then 1 else 0][20 := 1000], 46, [], [1000], fuel - 6)
  {
    RunHalt(COMPARE_EIGHT[21 := x][20 := if x == 8 then 1 else 0][20 := 1000], 46, [], fuel - 6, [1000]);
  }

  lemma {:induction false} CompareEightAboveFrom0(x: int, fuel: nat)
    requires fuel >= 10 && x > 8
    ensures Run(COMPARE_EIGHT, 0, [x], fuel, [])
      == Run(COMPARE_EIGHT[21 := x], 2, [], fuel - 1, [])
  {
    RunGet(COMPARE_EIGHT, 0, [x], fuel, [], 21, x, [], 2, fuel - 1);
  }

  lemma {:induction false} CompareEightAboveFrom1(x: int, fuel: nat)
    requires fuel >= 10 && x > 8
    ensures Run(COMPARE_EIGHT[21 := x], 2, [], fuel - 1, [])
      == Run(COMPARE_EIGHT[21 := x][20 := if x == 8 then 1 else 0], 6, [], fuel - 2, [])
  {
    RunTernary(COMPARE_EIGHT[21 := x], 2, [], fuel - 1, [], 20, if x == 8 then 1 else 0, 6, fuel - 2);
  }

  lemma {:induction false} CompareEightAboveFrom2(x: int, fuel: nat)
    requires fuel >= 10 && x > 8
    ensures Run(COMPARE_EIGHT[21 := x][20 := if x == 8 then 1 else 0], 6, [], fuel - 2, [])
      == Run(COMPARE_EIGHT[21 := x][20 := if x == 8 then 1 else 0], 9, [], fuel - 3, [])
  {
    RunJump(COMPARE_EIGHT[21 := x][20 := if x == 8 then 1 else 0], 6, [], fuel - 2, [], 9, fuel - 3);
  }

  lemma {:induction false} CompareEightAboveFrom3(x: int, fuel: nat)
    requires fuel >= 10 && x > 8
    ensures Run(COMPARE_EIGHT[21 := x][20 := if x == 8 then 1 else 0], 9, [], fuel - 3, [])
      == Run(COMPARE_EIGHT[21 := x][20 := if x == 8 then 1 else 0][20 := if 8 < x then 1 else 0], 13, [], fuel - 4, [])
  {
    RunTernary(COMPARE_EIGHT[21 := x][20 := if x == 8 then 1 else 0], 9, [], fuel - 3, [], 20, if 8 < x then 1 else 0, 13, fuel - 4);
  }

  lemma {:induction false} CompareEightAboveFrom4(x: int, fuel: nat)
    requires fuel >= 10 && x > 8
    ensures Run(COMPARE_EIGHT[21 := x][20 := if x == 8 then 1 else 0][20 := if 8 < x then 1 else 0], 13, [], fuel - 4, [])
      == Run(COMPARE_EIGHT[21 := x][20 := if x == 8 then 1 else 0][20 := if 8 < x then 1 else 0], 16, [], fuel - 5, [])
  {
    RunJump(COMPARE_EIGHT[21 := x][20 := if x == 8 then 1 else 0][20 := if 8 < x then 1 else 0], 13, [], fuel - 4, [], 16, fuel - 5);
  }

  lemma {:induction false} CompareEightAboveFrom5(x: int, fuel: nat)
    requires fuel >= 10 && x > 8
    ensures Run(COMPARE_EIGHT[21 := x][20 := if x == 8 then 1 else 0][20 := if 8 < x then 1 else 0], 16, [], fuel - 5, [])
      == Run(COMPARE_EIGHT[21 := x][20 := if x == 8 then 1 else 0][20 := if 8 < x then 1 else 0], 36, [], fuel - 6, [])
  {
    RunJump(COMPARE_EIGHT[21 := x][20 := if x == 8 then 1 else 0][20 := if 8 < x then 1 else 0], 16, [], fuel - 5, [], 36, fuel - 6);
  }

  lemma {:induction false} CompareEightAboveFrom6(x: int, fuel: nat)
    requires fuel >= 10 && x > 8
    ensures Run(COMPARE_EIGHT[21 := x][20 := if x == 8 then 1 else 0][20 := if 8 < x then 1 else 0], 36, [], fuel - 6, [])
      == Run(COMPARE_EIGHT[21 := x][20 := if x == 8 then 1 else 0][20 := if 8 < x then 1 else 0][20 := 1001], 40, [], fuel - 7, [])
  {
    RunTernary(COMPARE_EIGHT[21 := x][20 := if x == 8 then 1 else 0][20 := if 8 < x then 1 else 0], 36, [], fuel - 6, [], 20, 1001, 40, fuel - 7);
  }

  lemma {:induction false} CompareEightAboveFrom7(x: int, fuel: nat)
    requires fuel >= 10 && x > 8
    ensures Run(COMPARE_EIGHT[21 := x][20 := if x == 8 then 1 else 0][20 := if 8 < x then 1 else 0][20 := 1001], 40, [], fuel - 7, [])
      == Run(COMPARE_EIGHT[21 := x][20 := if x == 8 then 1 else 0][20 := if 8 < x then 1 else 0][20 := 1001], 42, [], fuel - 8, [1001])
  {
    var none: seq<int> := [];
    RunPut(COMPARE_EIGHT[21 := x][20 := if x == 8 then 1 else 0][20 := if 8 < x then 1 else 0][20 := 1001], 40, [], fuel - 7, [], 1001, 42, fuel - 8);
    assert none + [1001] == [1001];
  }

  lemma {:induction false} CompareEightAboveFrom8(x: int, fuel: nat)
    requires fuel >= 10 && x > 8
    ensures Run(COMPARE_EIGHT[21 := x][20 := if x == 8 then 1 else 0][20 := if 8 < x then 1 else 0][20 := 1001], 42, [], fuel - 8, [1001])
      == Run(COMPARE_EIGHT[21 := x][20 := if x == 8 then 1 else 0][20 := if 8 < x then 1 else 0][20 := 1001], 46, [], fuel - 9, [1001])
  {
    RunJump(COMPARE_EIGHT[21 := x][20 := if x == 8 then 1 else 0][20 := if 8 < x then 1 else 0][20 := 1001], 42, [], fuel - 8, [1001], 46, fuel - 9);
  }

  lemma {:induction false} CompareEightAboveFrom9(x: int, fuel: nat)
    requires fuel >= 10 && x > 8
    ensures Run(COMPARE_EIGHT[21 := x][20 := if x == 8 then 1 else 0][20 := if 8 < x then 1 else 0][20 := 1001], 46, [], fuel - 9, [1001])
      == Outcome(Halted, COMPARE_EIGHT[21 := x][20 := if x == 8 then 1 else 0][20 := if 8 < x then 1 else 0][20 := 1001], 46, [], [1001], fuel - 9)
  {
    RunHalt(COMPARE_EIGHT[21 := x][20 := if x == 8 then 1 else 0][20 := if 8 < x then 1 else 0][20 := 1001], 46, [], fuel - 9, [1001]);
  }

  /** The larger test program: prints 999 for an input below 8, 1000 for 8 and 1001 above 8. */
  lemma {:induction false} CompareEight(x: int, fuel: nat)
    requires fuel >= 10
    ensures EvalWithIo(COMPARE_EIGHT, [x], fuel) == (Halted, [if x < 8 then 999 else if x == 8 then 1000 else 1001])
  {
    if x < 8 {
      CompareEightBelowFrom0(x, fuel); CompareEightBelowFrom1(x, fuel); CompareEightBelowFrom2(x, fuel); CompareEightBelowFrom3(x, fuel); CompareEightBelowFrom4(x, fuel); CompareEightBelowFrom5(x, fuel); CompareEightBelowFrom6(x, fuel); CompareEightBelowFrom7(x, fuel);
    } else if x == 8 {
      CompareEightEqualFrom0(x, fuel); CompareEightEqualFrom1(x, fuel); CompareEightEqualFrom2(x, fuel); CompareEightEqualFrom3(x, fuel); CompareEightEqualFrom4(x, fuel); CompareEightEqualFrom5(x, fuel); CompareEightEqualFrom6(x, fuel);
    } else {
      CompareEightAboveFrom0(x, fuel); CompareEightAboveFrom1(x, fuel); CompareEightAboveFrom2(x, fuel); CompareEightAboveFrom3(x, fuel); CompareEightAboveFrom4(x, fuel); CompareEightAboveFrom5(x, fuel); CompareEightAboveFrom6(x, fuel); CompareEightAboveFrom7(x, fuel); CompareEightAboveFrom8(x, fuel); CompareEightAboveFrom9(x, fuel);
    }
  }

  lemma {:induction false} MultiplyPositionImmediateFrom0(fuel: nat)
    requires fuel >= 2
    ensures Run([1002, 4, 3, 4, 33], 0, [], fuel, [])
      == Run([1002, 4, 3, 4, 33][4 := 99], 4, [], fuel - 1, [])
  {
    RunTernary([1002, 4, 3, 4, 33], 0, [], fuel, [], 4, 99, 4, fuel - 1);
  }

  lemma {:induction false} MultiplyPositionImmediateFrom1(fuel: nat)
    requires fuel >= 2
    ensures Run([1002, 4, 3, 4, 33][4 := 99], 4, [], fuel - 1, [])
      == Outcome(Halted, [1002, 4, 3, 4, 33][4 := 99], 4, [], [], fuel - 1)
  {
    RunHalt([1002, 4, 3, 4, 33][4 := 99], 4, [], fuel - 1, []);
  }

  /** Mixed addressing modes: `1002,4,3,4,33` stores 33 * 3 = 99 over its own last cell, which then halts. */
  lemma {:induction false} MultiplyPositionImmediate(fuel: nat)
    requires fuel >= 2
    ensures Eval([1002, 4, 3, 4, 33], 4, fuel) == (Halted, Ok(99))
  {
    MultiplyPositionImmediateFrom0(fuel); MultiplyPositionImmediateFrom1(fuel);
  }

  lemma {:induction false} AddImmediateFrom0(fuel: nat)
    requires fuel >= 2
    ensures Run([1101, 100, -1, 4, 0], 0, [], fuel, [])
      == Run([1101, 100, -1, 4, 0][4 := 99], 4, [], fuel - 1, [])
  {
    RunTernary([1101, 100, -1, 4, 0], 0, [], fuel, [], 4, 99, 4, fuel - 1);
  }

  lemma {:induction false} AddImmediateFrom1(fuel: nat)
    requires fuel >= 2
    ensures Run([1101, 100, -1, 4, 0][4 := 99], 4, [], fuel - 1, [])
      == Outcome(Halted, [1101, 100, -1, 4, 0][4 := 99], 4, [], [], fuel - 1)
  {
    RunHalt([1101, 100, -1, 4, 0][4 := 99], 4, [], fuel - 1, []);
  }

  /** Immediate operands may be negative: `1101,100,-1,4,0` stores 100 + -1 = 99 and halts there. */
  lemma {:induction false} AddImmediate(fuel: nat)
    requires fuel >= 2
    ensures Eval([1101, 100, -1, 4, 0], 4, fuel) == (Halted, Ok(99))
  {
    AddImmediateFrom0(fuel); AddImmediateFrom1(fuel);
  }

  lemma {:induction false} AddExampleFrom0(fuel: nat)
    requires fuel >= 2
    ensures Run([1, 0, 0, 0, 99], 0, [], fuel, [])
      == Run([1, 0, 0, 0, 99][0 := 2], 4, [], fuel - 1, [])
  {
    RunTernary([1, 0, 0, 0, 99], 0, [], fuel, [], 0, 2, 4, fuel - 1);
  }

  lemma {:induction false} AddExampleFrom1(fuel: nat)
    requires fuel >= 2
    ensures Run([1, 0, 0, 0, 99][0 := 2], 4, [], fuel - 1, [])
      == Outcome(Halted, [1, 0, 0, 0, 99][0 := 2], 4, [], [], fuel - 1)
  {
    RunHalt([1, 0, 0, 0, 99][0 := 2], 4, [], fuel - 1, []);
  }

  /** The day 2 examples run unchanged: `1,0,0,0,99` leaves 1 + 1 = 2 in cell 0. */
  lemma {:induction false} AddExample(fuel: nat)
    requires fuel >= 2
    ensures Eval([1, 0, 0, 0, 99], 0, fuel) == (Halted, Ok(2))
  {
    AddExampleFrom0(fuel); AddExampleFrom1(fuel);
  }

  lemma {:induction false} MultiplyExampleFrom0(fuel: nat)
    requires fuel >= 2
    ensures Run([2, 3, 0, 3, 99], 0, [], fuel, [])
      == Run([2, 3, 0, 3, 99][3 := 6], 4, [], fuel - 1, [])
  {
    RunTernary([2, 3, 0, 3, 99], 0, [], fuel, [], 3, 6, 4, fuel - 1);
  }

  lemma {:induction false} MultiplyExampleFrom1(fuel: nat)
    requires fuel >= 2
    ensures Run([2, 3, 0, 3, 99][3 := 6], 4, [], fuel - 1, [])
      == Outcome(Halted, [2, 3, 0, 3, 99][3 := 6], 4, [], [], fuel - 1)
  {
    RunHalt([2, 3, 0, 3, 99][3 := 6], 4, [], fuel - 1, []);
  }

  /** `2,3,0,3,99` leaves 3 * 2 = 6 in cell 3. */
  lemma {:induction false} MultiplyExample(fuel: nat)
    requires fuel >= 2
    ensures Eval([2, 3, 0, 3, 99], 3, fuel) == (Halted, Ok(6))
  {
    MultiplyExampleFrom0(fuel); MultiplyExampleFrom1(fuel);
  }

  lemma {:induction false} SquareExampleFrom0(fuel: nat)
    requires fuel >= 2
    ensures Run([2, 4, 4, 5, 99, 0], 0, [], fuel, [])
      == Run([2, 4, 4, 5, 99, 0][5 := 9801], 4, [], fuel - 1, [])
  {
    RunTernary([2, 4, 4, 5, 99, 0], 0, [], fuel, [], 5, 9801, 4, fuel - 1);
  }

  lemma {:induction false} SquareExampleFrom1(fuel: nat)
    requires fuel >= 2
    ensures Run([2, 4, 4, 5, 99, 0][5 := 9801], 4, [], fuel - 1, [])
      == Outcome(Halted, [2, 4, 4, 5, 99, 0][5 := 9801], 4, [], [], fuel - 1)
  {
    RunHalt([2, 4, 4, 5, 99, 0][5 := 9801], 4, [], fuel - 1, []);
  }

  /** `2,4,4,5,99,0` leaves 99 * 99 = 9801 in cell 5. */
  lemma {:induction false} SquareExample(fuel: nat)
    requires fuel >= 2
    ensures Eval([2, 4, 4, 5, 99, 0], 5, fuel) == (Halted, Ok(9801))
  {
    SquareExampleFrom0(fuel); SquareExampleFrom1(fuel);
  }

  lemma {:induction false} SelfModifyingExampleFrom0(fuel: nat)
    requires fuel >= 3
    ensures Run([1, 1, 1, 4, 99, 5, 6, 0, 99], 0, [], fuel, [])
      == Run([1, 1, 1, 4, 99, 5, 6, 0, 99][4 := 2], 4, [], fuel - 1, [])
  {
    RunTernary([1, 1, 1, 4, 99, 5, 6, 0, 99], 0, [], fuel, [], 4, 2, 4, fuel - 1);
  }

  lemma {:induction false} SelfModifyingExampleFrom1(fuel: nat)
    requires fuel >= 3
    ensures Run([1, 1, 1, 4, 99, 5, 6, 0, 99][4 := 2], 4, [], fuel - 1, [])
      == Run([1, 1, 1, 4, 99, 5, 6, 0, 99][4 := 2][0 := 30], 8, [], fuel - 2, [])
  {
    RunTernary([1, 1, 1, 4, 99, 5, 6, 0, 99][4 := 2], 4, [], fuel - 1, [], 0, 30, 8, fuel - 2);
  }

  lemma {:induction false} SelfModifyingExampleFrom2(fuel: nat)
    requires fuel >= 3
    ensures Run([1, 1, 1, 4, 99, 5, 6, 0, 99][4 := 2][0 := 30], 8, [], fuel - 2, [])
      == Outcome(Halted, [1, 1, 1, 4, 99, 5, 6, 0, 99][4 := 2][0 := 30], 8, [], [], fuel - 2)
  {
    RunHalt([1, 1, 1, 4, 99, 5, 6, 0, 99][4 := 2][0 := 30], 8, [], fuel - 2, []);
  }

  /** `1,1,1,4,99,5,6,0,99` rewrites its own `99` into a multiply and leaves 5 * 6 = 30 in cell 0. */
  lemma {:induction false} SelfModifyingExample(fuel: nat)
    requires fuel >= 3
    ensures Eval([1, 1, 1, 4, 99, 5, 6, 0, 99], 0, fuel) == (Halted, Ok(30))
  {
    SelfModifyingExampleFrom0(fuel); SelfModifyingExampleFrom1(fuel); SelfModifyingExampleFrom2(fuel);
  }
}
