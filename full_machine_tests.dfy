/**
 * The day 9 example programs, run on the full machine. The proofs step
 * through `Exec` with the read-level step lemmas of `FullMachine`
 * (`RelativeBaseStep`, `OutputStep`, `StoreStep`, `StoreKeeps`, `JumpStep`,
 * `HaltStep`), so they follow what every cell reads as rather than how far
 * memory has grown.
 */
module FullMachineTests {
  import opened IntcodeDecode
  import opened FullMachine

  // ---------------------------------------------------------------------
  // A program that outputs a copy of itself
  // ---------------------------------------------------------------------

  const QUINE: seq<int> := [109, 1, 204, -1, 1001, 100, 1, 100, 1008, 100, 16, 101, 1006, 101, 0, 99]

  /**
   * The cells the copying loop depends on: the program itself is intact,
   * cell 100 counts the values output so far and cell 101 holds the exit flag.
   */
  ghost predicate Cells(mem: seq<int>, count: int, flag: int)
  {
    && 16 <= |mem|
    && (forall i :: 0 <= i < 16 ==> Read(mem, i) == QUINE[i])
    && Read(mem, 100) == count
    && Read(mem, 101) == flag
  }

  /** `109,1` at pc 0: the relative base moves one cell on. */
  lemma QuineRbo(s: State, k: nat) returns (t: State)
    requires s.pc == 0 && s.relativeBase == k && Cells(s.mem, k, 0)
    ensures Exec(s, []) == Running(t, [], [])
    ensures t.pc == 2 && t.relativeBase == k + 1 && Cells(t.mem, k, 0)
  {
    SplitEncode(9, 1, 0, 0);
    assert Read(s.mem, 0) == 109 && Read(s.mem, 1) == 1;
    assert Current(s) == Ok(Rbo(1));
    RelativeBaseStep(s, []);
    t := Exec(s, []).next;
  }

  /** `204,-1` at pc 2: outputs the cell just below the relative base, the program's `k`-th value. */
  lemma QuinePut(s: State, k: nat) returns (t: State)
    requires k < 16 && s.pc == 2 && s.relativeBase == k + 1 && Cells(s.mem, k, 0)
    ensures Exec(s, []) == Running(t, [], [QUINE[k]])
    ensures t.pc == 4 && t.relativeBase == k + 1 && Cells(t.mem, k, 0)
  {
    SplitEncode(4, 2, 0, 0);
    assert Read(s.mem, 2) == 204 && Read(s.mem, 3) == -1 && Read(s.mem, k) == QUINE[k];
    assert Current(s) == Ok(Put(QUINE[k]));
    OutputStep(s, []);
    t := Exec(s, []).next;
  }

  /** `1001,100,1,100` at pc 4: the counter in cell 100 goes up by one. */
  lemma QuineAdd(s: State, k: nat) returns (t: State)
    requires s.pc == 4 && s.relativeBase == k + 1 && Cells(s.mem, k, 0)
    ensures Exec(s, []) == Running(t, [], [])
    ensures t.pc == 8 && t.relativeBase == k + 1 && Cells(t.mem, k + 1, 0)
  {
    SplitEncode(1, 0, 1, 0);
    assert Read(s.mem, 4) == 1001 && Read(s.mem, 5) == 100 && Read(s.mem, 6) == 1 && Read(s.mem, 7) == 100;
    assert Current(s) == Ok(Add(100, k, 1));
    StoreStep(s, []);
    StoreKeeps(s, []);
    t := Exec(s, []).next;
  }

  /** `1008,100,16,101` at pc 8: the exit flag is set exactly when 16 values are out. */
  lemma QuineEq(s: State, k: nat) returns (t: State)
    requires s.pc == 8 && s.relativeBase == k + 1 && Cells(s.mem, k + 1, 0)
    ensures Exec(s, []) == Running(t, [], [])
    ensures t.pc == 12 && t.relativeBase == k + 1 && Cells(t.mem, k + 1, if k + 1 == 16 then 1 else 0)
  {
    SplitEncode(8, 0, 1, 0);
    assert Read(s.mem, 8) == 1008 && Read(s.mem, 9) == 100 && Read(s.mem, 10) == 16 && Read(s.mem, 11) == 101;
    assert Current(s) == Ok(Eq(101, k + 1, 16));
    StoreStep(s, []);
    StoreKeeps(s, []);
    t := Exec(s, []).next;
  }

  /** `1006,101,0` at pc 12: back to the start while the flag is clear, on to pc 15 once it is set. */
  lemma QuineJump(s: State, k: nat) returns (t: State)
    requires s.pc == 12 && s.relativeBase == k + 1 && Cells(s.mem, k + 1, if k + 1 == 16 then 1 else 0)
    ensures Exec(s, []) == Running(t, [], [])
    ensures t.pc == (if k + 1 == 16 then 15 else 0) && t.relativeBase == k + 1
    ensures Cells(t.mem, k + 1, if k + 1 == 16 then 1 else 0)
  {
    SplitEncode(6, 0, 1, 0);
    var flag := if k + 1 == 16 then 1 else 0;
    assert Read(s.mem, 12) == 1006 && Read(s.mem, 13) == 101 && Read(s.mem, 14) == 0;
    assert Current(s) == Ok(Jpf(flag, 0));
    JumpStep(s, []);
    t := Exec(s, []).next;
  }

  /** `99` at pc 15 halts. */
  lemma QuineHalt(s: State) returns (t: State)
    requires s.pc == 15 && Cells(s.mem, 16, 1)
    ensures Exec(s, []) == Stop(ProgramHalt, t)
  {
    SplitEncode(99, 0, 0, 0);
    assert Read(s.mem, 15) == 99;
    assert Current(s) == Ok(Halt);
    HaltStep(s, []);
    t := Exec(s, []).at;
  }

  /** A step that goes on to `pc` and `relativeBase` with no input consumed and `out` output. */
  ghost predicate Moves(st: Step, pc: nat, relativeBase: int, out: seq<int>)
  {
    st.Running? && st.rest == [] && st.out == out && st.next.pc == pc && st.next.relativeBase == relativeBase
  }

  /** A step that halts. */
  ghost predicate Halts(st: Step)
  {
    st.Stop? && st.reason == ProgramHalt
  }

  /**
   * What each of the loop's instructions does, for a step function `exec`:
   * the loop's proof below uses only these facts, so that it never unfolds
   * the decoder, and `CopyLoopHolds` shows that `Exec` has them.
   */
  ghost predicate CopyLoop(exec: (State, seq<int>) -> Step)
  {
    && (forall s: State {:trigger exec(s, [])} | s.pc == 0 && 0 <= s.relativeBase < 16 && Cells(s.mem, s.relativeBase, 0) ::
          Moves(exec(s, []), 2, s.relativeBase + 1, []) && Cells(exec(s, []).next.mem, s.relativeBase, 0))
    && (forall s: State {:trigger exec(s, [])} | s.pc == 2 && 1 <= s.relativeBase <= 16 && Cells(s.mem, s.relativeBase - 1, 0) ::
          Moves(exec(s, []), 4, s.relativeBase, [QUINE[s.relativeBase - 1]]) && Cells(exec(s, []).next.mem, s.relativeBase - 1, 0))
    && (forall s: State {:trigger exec(s, [])} | s.pc == 4 && 1 <= s.relativeBase <= 16 && Cells(s.mem, s.relativeBase - 1, 0) ::
          Moves(exec(s, []), 8, s.relativeBase, []) && Cells(exec(s, []).next.mem, s.relativeBase, 0))
    && (forall s: State {:trigger exec(s, [])} | s.pc == 8 && 1 <= s.relativeBase <= 16 && Cells(s.mem, s.relativeBase, 0) ::
          Moves(exec(s, []), 12, s.relativeBase, [])
          && Cells(exec(s, []).next.mem, s.relativeBase, if s.relativeBase == 16 then 1 else 0))
    && (forall s: State {:trigger exec(s, [])} | s.pc == 12 && 1 <= s.relativeBase <= 16
          && Cells(s.mem, s.relativeBase, if s.relativeBase == 16 then 1 else 0) ::
          Moves(exec(s, []), if s.relativeBase == 16 then 15 else 0, s.relativeBase, [])
          && Cells(exec(s, []).next.mem, s.relativeBase, if s.relativeBase == 16 then 1 else 0))
    && (forall s: State {:trigger exec(s, [])} | s.pc == 15 && Cells(s.mem, 16, 1) :: Halts(exec(s, [])))
  }

  lemma CopyLoopHolds()
    ensures CopyLoop(Exec)
  {
    forall s: State {:trigger Exec(s, [])} | s.pc == 0 && 0 <= s.relativeBase < 16 && Cells(s.mem, s.relativeBase, 0)
      ensures Moves(Exec(s, []), 2, s.relativeBase + 1, []) && Cells(Exec(s, []).next.mem, s.relativeBase, 0)
    {
      var _ := QuineRbo(s, s.relativeBase);
    }
    forall s: State {:trigger Exec(s, [])} | s.pc == 2 && 1 <= s.relativeBase <= 16 && Cells(s.mem, s.relativeBase - 1, 0)
      ensures Moves(Exec(s, []), 4, s.relativeBase, [QUINE[s.relativeBase - 1]])
      ensures Cells(Exec(s, []).next.mem, s.relativeBase - 1, 0)
    {
      var _ := QuinePut(s, s.relativeBase - 1);
    }
    forall s: State {:trigger Exec(s, [])} | s.pc == 4 && 1 <= s.relativeBase <= 16 && Cells(s.mem, s.relativeBase - 1, 0)
      ensures Moves(Exec(s, []), 8, s.relativeBase, []) && Cells(Exec(s, []).next.mem, s.relativeBase, 0)
    {
      var _ := QuineAdd(s, s.relativeBase - 1);
    }
    forall s: State {:trigger Exec(s, [])} | s.pc == 8 && 1 <= s.relativeBase <= 16 && Cells(s.mem, s.relativeBase, 0)
      ensures Moves(Exec(s, []), 12, s.relativeBase, [])
      ensures Cells(Exec(s, []).next.mem, s.relativeBase, if s.relativeBase == 16 then 1 else 0)
    {
      var _ := QuineEq(s, s.relativeBase - 1);
    }
    forall s: State {:trigger Exec(s, [])} | s.pc == 12 && 1 <= s.relativeBase <= 16
      && Cells(s.mem, s.relativeBase, if s.relativeBase == 16 then 1 else 0)
      ensures Moves(Exec(s, []), if s.relativeBase == 16 then 15 else 0, s.relativeBase, [])
      ensures Cells(Exec(s, []).next.mem, s.relativeBase, if s.relativeBase == 16 then 1 else 0)
    {
      var _ := QuineJump(s, s.relativeBase - 1);
    }
    forall s: State {:trigger Exec(s, [])} | s.pc == 15 && Cells(s.mem, 16, 1)
      ensures Halts(Exec(s, []))
    {
      var _ := QuineHalt(s);
    }
  }

  // The loop's proof goes one instruction at a time, each lemma handing
  // the run on to the next instruction's.

  /** At the top of pass `k` the run halts having output the rest of the program, `QUINE[k..]`. */
  lemma {:induction false} CopyFrom(exec: (State, seq<int>) -> Step, s: State, k: nat, fuel: nat, out: seq<int>)
    requires CopyLoop(exec)
    requires k < 16 && fuel >= 5 * (16 - k) + 1 && s.pc == 0 && s.relativeBase == k && Cells(s.mem, k, 0)
    ensures var o := Drive(exec, s, [], fuel, out); o.status == Stopped(ProgramHalt) && o.output == out + QUINE[k..]
    decreases 16 - k, 4
  {
    var st := exec(s, []);
    assert Moves(st, 2, k + 1, []) && Cells(st.next.mem, k, 0);
    assert out + [] == out;
    CopyFromPut(exec, st.next, k, fuel - 1, out);
  }

  lemma {:induction false} CopyFromPut(exec: (State, seq<int>) -> Step, s: State, k: nat, fuel: nat, out: seq<int>)
    requires CopyLoop(exec)
    requires k < 16 && fuel >= 5 * (16 - k) && s.pc == 2 && s.relativeBase == k + 1 && Cells(s.mem, k, 0)
    ensures var o := Drive(exec, s, [], fuel, out); o.status == Stopped(ProgramHalt) && o.output == out + QUINE[k..]
    decreases 16 - k, 3
  {
    var st := exec(s, []);
    assert Moves(st, 4, k + 1, [QUINE[k]]) && Cells(st.next.mem, k, 0);
    CopyFromAdd(exec, st.next, k, fuel - 1, out + [QUINE[k]]);
    Unshift(out, QUINE, k);
  }

  lemma Unshift<T>(out: seq<T>, s: seq<T>, k: nat)
    requires k < |s|
    ensures (out + [s[k]]) + s[k + 1..] == out + s[k..]
  {
    assert s[k..] == [s[k]] + s[k + 1..];
  }

  lemma {:induction false} CopyFromAdd(exec: (State, seq<int>) -> Step, s: State, k: nat, fuel: nat, out: seq<int>)
    requires CopyLoop(exec)
    requires k < 16 && fuel >= 5 * (16 - k) - 1 && s.pc == 4 && s.relativeBase == k + 1 && Cells(s.mem, k, 0)
    ensures var o := Drive(exec, s, [], fuel, out); o.status == Stopped(ProgramHalt) && o.output == out + QUINE[k + 1..]
    decreases 16 - k, 2
  {
    var st := exec(s, []);
    assert Moves(st, 8, k + 1, []) && Cells(st.next.mem, k + 1, 0);
    assert out + [] == out;
    CopyFromEq(exec, st.next, k, fuel - 1, out);
  }

  lemma {:induction false} CopyFromEq(exec: (State, seq<int>) -> Step, s: State, k: nat, fuel: nat, out: seq<int>)
    requires CopyLoop(exec)
    requires k < 16 && fuel >= 5 * (16 - k) - 2 && s.pc == 8 && s.relativeBase == k + 1 && Cells(s.mem, k + 1, 0)
    ensures var o := Drive(exec, s, [], fuel, out); o.status == Stopped(ProgramHalt) && o.output == out + QUINE[k + 1..]
    decreases 16 - k, 1
  {
    var st := exec(s, []);
    assert Moves(st, 12, k + 1, []) && Cells(st.next.mem, k + 1, if k + 1 == 16 then 1 else 0);
    assert out + [] == out;
    if k + 1 == 16 {
      CopyLastJump(exec, st.next, fuel - 1, out);
      assert out + QUINE[16..] == out;
    } else {
      CopyFromJump(exec, st.next, k, fuel - 1, out);
    }
  }

  lemma {:induction false} CopyFromJump(exec: (State, seq<int>) -> Step, s: State, k: nat, fuel: nat, out: seq<int>)
    requires CopyLoop(exec)
    requires k + 1 < 16 && fuel >= 5 * (16 - k) - 3 && s.pc == 12 && s.relativeBase == k + 1 && Cells(s.mem, k + 1, 0)
    ensures var o := Drive(exec, s, [], fuel, out); o.status == Stopped(ProgramHalt) && o.output == out + QUINE[k + 1..]
    decreases 16 - k, 0
  {
    var st := exec(s, []);
    assert Moves(st, 0, k + 1, []) && Cells(st.next.mem, k + 1, 0);
    assert out + [] == out;
    CopyFrom(exec, st.next, k + 1, fuel - 1, out);
  }

  /** With the flag set the jump falls through to the final `99`. */
  lemma CopyLastJump(exec: (State, seq<int>) -> Step, s: State, fuel: nat, out: seq<int>)
    requires CopyLoop(exec)
    requires fuel >= 2 && s.pc == 12 && s.relativeBase == 16 && Cells(s.mem, 16, 1)
    ensures var o := Drive(exec, s, [], fuel, out); o.status == Stopped(ProgramHalt) && o.output == out
  {
    var st := exec(s, []);
    assert Moves(st, 15, 16, []) && Cells(st.next.mem, 16, 1);
    assert out + [] == out;
    assert Drive(exec, s, [], fuel, out) == Drive(exec, st.next, [], fuel - 1, out);
    CopyHalts(exec, st.next, fuel - 1, out);
  }

  /** The final `99` halts the run. */
  lemma CopyHalts(exec: (State, seq<int>) -> Step, s: State, fuel: nat, out: seq<int>)
    requires CopyLoop(exec)
    requires fuel >= 1 && s.pc == 15 && Cells(s.mem, 16, 1)
    ensures var o := Drive(exec, s, [], fuel, out); o.status == Stopped(ProgramHalt) && o.output == out
  {
    assert Halts(exec(s, []));
    assert Drive(exec, s, [], fuel, out) == Continue(exec, s, [], fuel, out);
  }

  /** The program halts having output exactly itself. */
  lemma BoostCopiesItself(fuel: nat)
    requires fuel >= 81
    ensures var o := Run(Load(QUINE), [], fuel, []); o.status == Stopped(ProgramHalt) && o.output == QUINE
  {
    CopyLoopHolds();
    CopyFrom(Exec, Load(QUINE), 0, fuel, []);
  }

  // ---------------------------------------------------------------------
  // A 16-digit product and a large literal
  // ---------------------------------------------------------------------

  const PRODUCT: seq<int> := [1102, 34915192, 34915192, 7, 4, 7, 99, 0]

  const SQUARE := 1219070632396864

  /** The product program's cells: itself, with `v` in cell 7. */
  ghost predicate ProductCells(mem: seq<int>, v: int)
  {
    && 8 <= |mem|
    && (forall i :: 0 <= i < 7 ==> Read(mem, i) == PRODUCT[i])
    && Read(mem, 7) == v
  }

  /** `1102,34915192,34915192,7` at pc 0: the square goes to cell 7. */
  lemma ProductMul(s: State) returns (t: State)
    requires s.pc == 0 && s.relativeBase == 0 && ProductCells(s.mem, 0)
    ensures Exec(s, []) == Running(t, [], [])
    ensures t.pc == 4 && t.relativeBase == 0 && ProductCells(t.mem, SQUARE)
  {
    SplitEncode(2, 1, 1, 0);
    assert Read(s.mem, 0) == 1102 && Read(s.mem, 1) == 34915192 && Read(s.mem, 2) == 34915192 && Read(s.mem, 3) == 7;
    assert Current(s) == Ok(Mul(7, 34915192, 34915192));
    StoreStep(s, []);
    StoreKeeps(s, []);
    t := Exec(s, []).next;
  }

  /** `4,7` at pc 4: outputs cell 7. */
  lemma ProductPut(s: State) returns (t: State)
    requires s.pc == 4 && s.relativeBase == 0 && ProductCells(s.mem, SQUARE)
    ensures Exec(s, []) == Running(t, [], [SQUARE])
    ensures t.pc == 6 && t.relativeBase == 0 && ProductCells(t.mem, SQUARE)
  {
    SplitEncode(4, 0, 0, 0);
    assert Read(s.mem, 4) == 4 && Read(s.mem, 5) == 7;
    assert Current(s) == Ok(Put(SQUARE));
    OutputStep(s, []);
    t := Exec(s, []).next;
  }

  /** `99` at pc 6 halts. */
  lemma ProductHalt(s: State) returns (t: State)
    requires s.pc == 6 && ProductCells(s.mem, SQUARE)
    ensures Exec(s, []) == Stop(ProgramHalt, t)
  {
    SplitEncode(99, 0, 0, 0);
    assert Read(s.mem, 6) == 99;
    assert Current(s) == Ok(Halt);
    HaltStep(s, []);
    t := Exec(s, []).at;
  }

  /** What the product program's three instructions do, for a step function `exec`. */
  ghost predicate Squares(exec: (State, seq<int>) -> Step)
  {
    && (forall s: State {:trigger exec(s, [])} | s.pc == 0 && s.relativeBase == 0 && ProductCells(s.mem, 0) ::
          Moves(exec(s, []), 4, 0, []) && ProductCells(exec(s, []).next.mem, SQUARE))
    && (forall s: State {:trigger exec(s, [])} | s.pc == 4 && s.relativeBase == 0 && ProductCells(s.mem, SQUARE) ::
          Moves(exec(s, []), 6, 0, [SQUARE]) && ProductCells(exec(s, []).next.mem, SQUARE))
    && (forall s: State {:trigger exec(s, [])} | s.pc == 6 && ProductCells(s.mem, SQUARE) :: Halts(exec(s, [])))
  }

  lemma SquaresHold()
    ensures Squares(Exec)
  {
    forall s: State {:trigger Exec(s, [])} | s.pc == 0 && s.relativeBase == 0 && ProductCells(s.mem, 0)
      ensures Moves(Exec(s, []), 4, 0, []) && ProductCells(Exec(s, []).next.mem, SQUARE)
    {
      var _ := ProductMul(s);
    }
    forall s: State {:trigger Exec(s, [])} | s.pc == 4 && s.relativeBase == 0 && ProductCells(s.mem, SQUARE)
      ensures Moves(Exec(s, []), 6, 0, [SQUARE]) && ProductCells(Exec(s, []).next.mem, SQUARE)
    {
      var _ := ProductPut(s);
    }
    forall s: State {:trigger Exec(s, [])} | s.pc == 6 && ProductCells(s.mem, SQUARE)
      ensures Halts(Exec(s, []))
    {
      var _ := ProductHalt(s);
    }
  }

  /** From the start, the product program outputs the square and halts. */
  lemma {:induction false} SquareFrom(exec: (State, seq<int>) -> Step, s: State, fuel: nat)
    requires Squares(exec)
    requires fuel >= 3 && s.pc == 0 && s.relativeBase == 0 && ProductCells(s.mem, 0)
    ensures var o := Drive(exec, s, [], fuel, []); o.status == Stopped(ProgramHalt) && o.output == [SQUARE]
  {
    var st := exec(s, []);
    assert Moves(st, 4, 0, []) && ProductCells(st.next.mem, SQUARE);
    var s1 := st.next;
    var none: seq<int> := [];
    assert none + none == none && none + [SQUARE] == [SQUARE];
    assert Drive(exec, s, [], fuel, []) == Drive(exec, s1, [], fuel - 1, []);
    var st1 := exec(s1, []);
    assert Moves(st1, 6, 0, [SQUARE]) && ProductCells(st1.next.mem, SQUARE);
    var s2 := st1.next;
    assert Drive(exec, s1, [], fuel - 1, []) == Drive(exec, s2, [], fuel - 2, [SQUARE]);
    assert Halts(exec(s2, []));
    assert Drive(exec, s2, [], fuel - 2, [SQUARE]) == Continue(exec, s2, [], fuel - 2, [SQUARE]);
    assert Drive(exec, s2, [], fuel - 2, [SQUARE]).status == Stopped(ProgramHalt);
  }

  /** The program outputs one value, the square of 34915192, which has 16 decimal digits. */
  lemma BoostSixteenDigits(fuel: nat)
    requires fuel >= 3
    ensures var o := Run(Load(PRODUCT), [], fuel, []);
      && o.status == Stopped(ProgramHalt) && |o.output| == 1
      && o.output[0] == 34915192 * 34915192
      && 1000000000000000 <= o.output[0] < 10000000000000000
  {
    SquaresHold();
    SquareFrom(Exec, Load(PRODUCT), fuel);
  }

  const LARGE: seq<int> := [104, 1125899906842624, 99]

  /** The program outputs the large number in its middle. */
  lemma BoostLargeValue(fuel: nat)
    requires fuel >= 2
    ensures var o := Run(Load(LARGE), [], fuel, []);
      o.status == Stopped(ProgramHalt) && o.output == [1125899906842624]
  {
    var s := Load(LARGE);
    SplitEncode(4, 1, 0, 0);
    assert Current(s) == Ok(Put(1125899906842624));
    OutputStep(s, []);
    var s1 := Exec(s, []).next;
    RunRunning(s, [], fuel, [], s1, [], [1125899906842624]);
    SplitEncode(99, 0, 0, 0);
    assert Read(s1.mem, 2) == Read(s.mem, 2) == 99;
    assert Current(s1) == Ok(Halt);
    HaltStep(s1, []);
    RunStops(s1, [], fuel - 1, [] + [1125899906842624], ProgramHalt, Exec(s1, []).at);
  }

  // ---------------------------------------------------------------------
  // The position-mode programs of day 2, on the full machine
  // ---------------------------------------------------------------------

  /** An add or multiply at `pc`: the run goes on from a state that reads as before except at the target. */
  lemma StoreRuns(s: State, fuel: nat) returns (t: State)
    requires fuel > 0 && Current(s).Ok?
    requires var ins := Current(s).value; (ins.Add? || ins.Mul?) && ins.d >= 0
    ensures Run(s, [], fuel, []) == Run(t, [], fuel - 1, [])
    ensures t.pc == s.pc + 4 && t.relativeBase == s.relativeBase
    ensures var ins := Current(s).value; Read(t.mem, ins.d) == if ins.Add? then ins.a + ins.b else ins.a * ins.b
    ensures forall x: nat :: x != Current(s).value.d ==> Read(t.mem, x) == Read(s.mem, x)
  {
    StoreStep(s, []);
    StoreKeeps(s, []);
    t := Exec(s, []).next;
    var none: seq<int> := [];
    assert none + none == none;
    RunRunning(s, [], fuel, [], t, [], []);
  }

  /** A 99 at `pc`: the run halts there, and every cell reads as before. */
  lemma HaltRuns(s: State, fuel: nat)
    requires fuel > 0 && Current(s) == Ok(Halt)
    ensures Run(s, [], fuel, []).status == Stopped(ProgramHalt)
    ensures forall x: nat :: Read(Run(s, [], fuel, []).state.mem, x) == Read(s.mem, x)
  {
    HaltStep(s, []);
    var st := Exec(s, []);
    RunStops(s, [], fuel, [], ProgramHalt, st.at);
    ExtendsReads(s.mem, st.at.mem);
  }

  /** `1,0,0,0,99` halts with 2 in cell 0. */
  lemma PositionAddExample(fuel: nat)
    requires fuel >= 2
    ensures var o := Run(Load([1, 0, 0, 0, 99]), [], fuel, []);
      o.status == Stopped(ProgramHalt) && Read(o.state.mem, 0) == 2
  {
    var s := Load([1, 0, 0, 0, 99]);
    SplitEncode(1, 0, 0, 0);
    assert Current(s) == Ok(Add(0, 1, 1));
    var t := StoreRuns(s, fuel);
    SplitEncode(99, 0, 0, 0);
    assert Read(t.mem, 4) == 99;
    assert Current(t) == Ok(Halt);
    HaltRuns(t, fuel - 1);
  }

  /** `2,3,0,3,99` halts with 6 in cell 3. */
  lemma PositionMultiplyExample(fuel: nat)
    requires fuel >= 2
    ensures var o := Run(Load([2, 3, 0, 3, 99]), [], fuel, []);
      o.status == Stopped(ProgramHalt) && Read(o.state.mem, 3) == 6
  {
    var s := Load([2, 3, 0, 3, 99]);
    SplitEncode(2, 0, 0, 0);
    assert Current(s) == Ok(Mul(3, 3, 2));
    var t := StoreRuns(s, fuel);
    SplitEncode(99, 0, 0, 0);
    assert Read(t.mem, 4) == 99;
    assert Current(t) == Ok(Halt);
    HaltRuns(t, fuel - 1);
  }

  /** `2,4,4,5,99,0` halts with 9801 in cell 5. */
  lemma PositionSquareExample(fuel: nat)
    requires fuel >= 2
    ensures var o := Run(Load([2, 4, 4, 5, 99, 0]), [], fuel, []);
      o.status == Stopped(ProgramHalt) && Read(o.state.mem, 5) == 9801
  {
    var s := Load([2, 4, 4, 5, 99, 0]);
    SplitEncode(2, 0, 0, 0);
    assert Current(s) == Ok(Mul(5, 99, 99));
    var t := StoreRuns(s, fuel);
    SplitEncode(99, 0, 0, 0);
    assert Read(t.mem, 4) == 99;
    assert Current(t) == Ok(Halt);
    HaltRuns(t, fuel - 1);
  }

  /** `1,1,1,4,99,5,6,0,99` overwrites its own 99 and halts with 30 in cell 0. */
  lemma PositionSelfModifyingExample(fuel: nat)
    requires fuel >= 3
    ensures var o := Run(Load([1, 1, 1, 4, 99, 5, 6, 0, 99]), [], fuel, []);
      o.status == Stopped(ProgramHalt) && Read(o.state.mem, 0) == 30
  {
    var s := Load([1, 1, 1, 4, 99, 5, 6, 0, 99]);
    SplitEncode(1, 0, 0, 0);
    assert Current(s) == Ok(Add(4, 1, 1));
    var t := StoreRuns(s, fuel);
    SplitEncode(2, 0, 0, 0);
    assert Read(t.mem, 4) == 2 && Read(t.mem, 5) == 5 && Read(t.mem, 6) == 6 && Read(t.mem, 7) == 0;
    assert Current(t) == Ok(Mul(0, 5, 6));
    var u := StoreRuns(t, fuel - 1);
    SplitEncode(99, 0, 0, 0);
    assert Read(u.mem, 8) == 99;
    assert Current(u) == Ok(Halt);
    HaltRuns(u, fuel - 2);
  }
}
