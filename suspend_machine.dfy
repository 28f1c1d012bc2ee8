/**
 * The day 7 Intcode machine (`src/bin/day7.rs`): the same instruction set
 * as day 5, but `compute` takes its input as an argument, returns the
 * values it output, and stops with `NeedInput` when a Get finds the input
 * used up. The program counter stays on that Get, so a later `compute`
 * with fresh input resumes the program where it paused; this is what lets
 * the amplifiers of the feedback loop hand signals to one another.
 */
module SuspendMachine {
  import opened SmallIntcode

  class IntcodeISS {
    var mem: seq<int>
    var pc: nat

    /** `IntcodeISS::new`: a copy of the program with `pc` 0. */
    constructor (prog: seq<int>)
      ensures mem == prog && pc == 0
    {
      mem := prog;
      pc := 0;
    }

    /** `peek`: one cell, or the index past the vector. */
    function Peek(i: nat): (r: Result<int>)
      reads this
      ensures r.Ok? <==> i < |mem|
      ensures r.Ok? ==> r.value == mem[i]
    {
      SmallIntcode.Peek(mem, i)
    }

    /** `poke`: writes one cell, or reports the index past the vector. */
    method Poke(i: nat, val: int) returns (ok: bool)
      modifies this
      ensures ok <==> i < |old(mem)|
      ensures mem == if ok then old(mem)[i := val] else old(mem)
      ensures pc == old(pc)
    {
      ok := i < |mem|;
      if ok {
        mem := mem[i := val];
      }
    }

    /**
     * One trip round `compute`'s loop, reading from `input`: decode at `pc`,
     * perform the instruction, and step or jump. A trip that ends the loop
     * leaves the machine as it was; in particular a starved Get keeps `pc`
     * on itself.
     */
    method Cycle(input: seq<int>) returns (st: Step)
      modifies this
      ensures st == Exec(old(mem), old(pc), input)
      ensures st.Running? ==> mem == st.mem && pc == st.pc
      ensures st.Stop? ==> mem == old(mem) && pc == old(pc)
    {
      match Decode(mem, pc)
      case Err(f) =>
        st := Stop(Failed(f));
      case Ok(ins) =>
        st := Execute(ins, input);
    }

    /** The body of `compute`'s `match` on a decoded instruction, then the `pc` update. */
    method Execute(ins: Instruction, input: seq<int>) returns (st: Step)
      modifies this
      ensures st == Apply(old(mem), old(pc), ins, input)
      ensures st.Running? ==> mem == st.mem && pc == st.pc
      ensures st.Stop? ==> mem == old(mem) && pc == old(pc)
    {
      var rest := input;
      var out: seq<int> := [];
      var ok := true;
      var len := 0;
      match ins {
        case Add(d, a, b) =>
          ok := Poke(d, a + b);
          len := 4;
        case Mul(d, a, b) =>
          ok := Poke(d, a * b);
          len := 4;
        case Get(d) =>
          if |input| == 0 {
            return Stop(Starved);
          }
          ok := Poke(d, input[0]);
          rest := input[1..];
          len := 2;
        case Put(a) =>
          out := [a];
          len := 2;
        case Jpt(a, t) =>
          if a != 0 {
            pc := t;
          } else {
            len := 3;
          }
        case Jpf(a, t) =>
          if a == 0 {
            pc := t;
          } else {
            len := 3;
          }
        case Lt(d, a, b) =>
          ok := Poke(d, if a < b then 1 else 0);
          len := 4;
        case Eq(d, a, b) =>
          ok := Poke(d, if a == b then 1 else 0);
          len := 4;
        case Halt =>
          return Stop(Halted);
      }
      if !ok {
        return Stop(Failed(OutOfBounds(ins.d)));
      }
      pc := pc + len;
      st := Running(mem, pc, rest, out);
    }

    /**
     * `compute(input)`, for at most `fuel` trips round the loop: the machine
     * ends in the state `Run` describes, and returns why it stopped together
     * with what it output during this call only.
     */
    method Compute(input: seq<int>, fuel: nat) returns (reason: Status, output: seq<int>)
      modifies this
      ensures var o := Run(old(mem), old(pc), input, fuel, []);
        && reason == o.status && output == o.output && mem == o.mem && pc == o.pc
    {
      var rest := input;
      output := [];
      var left: nat := fuel;
      while left > 0
        invariant left <= fuel
        invariant Run(old(mem), old(pc), input, fuel, []) == Run(mem, pc, rest, left, output)
        decreases left
      {
        ghost var m, p := mem, pc;
        var st := Cycle(rest);
        if st.Stop? {
          RunStops(m, p, rest, left, output);
          return st.status, output;
        }
        RunRunning(m, p, rest, left, output);
        rest := st.input;
        output := output + st.out;
        left := left - 1;
      }
      reason := OutOfFuel;
    }
  }

  /**
   * Suspending and resuming loses nothing: a run that stops with
   * `NeedInput` after reading all of `a`, resumed with `b` on the fuel it
   * has left, ends exactly as one run given `a + b` at the start, and the
   * two calls' outputs together are that run's output.
   */
  lemma SuspendResume(mem: seq<int>, pc: nat, a: seq<int>, b: seq<int>, fuel: nat)
    requires Run(mem, pc, a, fuel, []).status == Starved
    ensures var first := Run(mem, pc, a, fuel, []);
      var second := Run(first.mem, first.pc, b, first.fuel, []);
      Run(mem, pc, a + b, fuel, []) == second.(output := first.output + second.output)
  {
    var first := Run(mem, pc, a, fuel, []);
    Resume(mem, pc, a, b, fuel, []);
    OutputShift(first.mem, first.pc, b, first.fuel, first.output);
  }

  /**
   * Calling `compute` again on a halted machine halts at once with no
   * output and leaves it unchanged.
   */
  lemma HaltedStaysHalted(mem: seq<int>, pc: nat, input: seq<int>, fuel: nat, more: seq<int>, again: nat)
    requires Run(mem, pc, input, fuel, []).status == Halted && again > 0
    ensures var o := Run(mem, pc, input, fuel, []);
      Run(o.mem, o.pc, more, again, []) == Outcome(Halted, o.mem, o.pc, more, [], again)
  {
    var o := Run(mem, pc, input, fuel, []);
    StopsAt(mem, pc, input, fuel, []);
    assert Exec(o.mem, o.pc, more) == Stop(Halted);
    RunStops(o.mem, o.pc, more, again, []);
  }
}
