/**
 * The `IntcodeISS` object of day 9 and day 13: the memory vector, `pc`
 * and the relative base are fields that its methods update in place.
 * Each method is proved to do exactly what the functions of `FullMachine`
 * say, so every property proved there holds of the object.
 */
module FullMachineIss {
  import opened IntcodeDecode
  import opened FullMachine

  /** How `compute` continues after an instruction. */
  datatype IssOp = Next(len: nat) | Jump(addr: int) | Done

  class IntcodeISS {
    var mem: seq<int>
    var pc: nat
    var relativeBase: int

    /** The machine as a value. */
    function Snapshot(): State
      reads this
    {
      State(mem, pc, relativeBase)
    }

    /** `IntcodeISS::new`: the program is copied into memory; `pc` and the relative base are 0. */
    constructor(prog: seq<int>)
      ensures Snapshot() == Load(prog)
    {
      mem := prog;
      pc := 0;
      relativeBase := 0;
    }

    /** `resize_mem`: resize the memory to the page boundary above `addr`, filling with zeros. */
    method ResizeMem(addr: nat)
      modifies this
      ensures mem == Resized(old(mem), addr)
      ensures pc == old(pc) && relativeBase == old(relativeBase)
    {
      var newSize := (addr + PAGE_SIZE) / PAGE_SIZE * PAGE_SIZE;
      if newSize <= |mem| {
        mem := mem[..newSize];
      } else {
        mem := mem + Zeros(newSize - |mem|);
      }
    }

    /** `peek`: the cell at `addr`, growing the memory first when `addr` lies beyond it. */
    method Peek(addr: nat) returns (v: int)
      modifies this
      ensures v == Read(old(mem), addr) && mem == Touch(old(mem), addr)
      ensures pc == old(pc) && relativeBase == old(relativeBase)
    {
      if addr < |mem| {
        v := mem[addr];
      } else {
        ResizeMem(addr);
        PeekKeepsContents(old(mem), addr);
        TouchCovers(old(mem), addr);
        v := mem[addr];
      }
    }

    /** `poke`: store `val` at `addr`, growing the memory first when `addr` lies beyond it. */
    method Poke(addr: nat, val: int)
      modifies this
      ensures mem == Write(old(mem), addr, val)
      ensures pc == old(pc) && relativeBase == old(relativeBase)
    {
      if addr < |mem| {
        mem := mem[addr := val];
      } else {
        ResizeMem(addr);
        TouchCovers(old(mem), addr);
        mem := mem[addr := val];
      }
    }

    /** `addr_fetch`: the write target named by a parameter and its mode. */
    method AddrFetch(am: int, val: int) returns (r: Result<int>)
      ensures r == AddrOf(relativeBase, am, val)
    {
      match am
      case 0 => r := Ok(val);
      case 1 => r := Ok(val);
      case 2 => r := Ok(relativeBase + val);
      case _ => r := Err(UnknownMode(am));
    }

    /** `fetch`: the value of a read operand; a position is read with `peek`. */
    method Fetch(am: int, val: int) returns (r: Result<int>)
      modifies this
      ensures var f := FetchOperand(old(mem), old(relativeBase), am, val);
        && (f.Ok? ==> r == Ok(f.value.0) && mem == f.value.1)
        && (f.Err? ==> r == Err(f.fault) && mem == old(mem))
      ensures pc == old(pc) && relativeBase == old(relativeBase)
    {
      match am
      case 0 =>
        if val < 0 {
          r := Err(NegativeAddress(val));
        } else {
          var v := Peek(val);
          r := Ok(v);
        }
      case 1 =>
        r := Ok(val);
      case 2 =>
        if relativeBase + val < 0 {
          r := Err(NegativeAddress(relativeBase + val));
        } else {
          var v := Peek(relativeBase + val);
          r := Ok(v);
        }
      case _ =>
        r := Err(UnknownMode(am));
    }
  
    /**
     * `decode(addr)`: the word at `addr`, then (eagerly) the three cells after
     * `pc`, then the operands the opcode needs, destination first.
     */
    method Decode(addr: nat) returns (r: Result<Instruction>)
      modifies this
      ensures var dd := DecodeAt(old(Snapshot()), addr);
        && (dd.Ok? ==> r == Ok(dd.value.ins) && mem == dd.value.mem)
        && (dd.Err? ==> r == Err(dd.fault))
      ensures pc == old(pc) && relativeBase == old(relativeBase)
    {
      var word := Peek(addr);
      var w := Split(word);
      ghost var m0 := mem;
      var r1 := Peek(pc + 1);
      ghost var m1 := mem;
      var r2 := Peek(pc + 2);
      ghost var m2 := mem;
      var rd := Peek(pc + 3);
      assert mem == Touched(old(mem), addr, pc);
      PeekKeepsContents(old(mem), addr);
      PeekKeepsContents(m0, pc + 1);
      PeekKeepsContents(m1, pc + 2);
      assert r1 == Read(old(mem), pc + 1) && r2 == Read(old(mem), pc + 2) && rd == Read(old(mem), pc + 3);
      DecodeUnfold(old(Snapshot()), addr);
      r := ResolveOperands(w, r1, r2, rd);
    }

    /** The operand part of `decode`: the `match opcode` over the parameters already read. */
    method ResolveOperands(w: Word, r1: int, r2: int, rd: int) returns (r: Result<Instruction>)
      modifies this
      ensures var dd := Operands(w, r1, r2, rd, old(relativeBase), old(mem));
        && (dd.Ok? ==> r == Ok(dd.value.ins) && mem == dd.value.mem)
        && (dd.Err? ==> r == Err(dd.fault))
      ensures pc == old(pc) && relativeBase == old(relativeBase)
    {
      if w.opcode in {1, 2, 7, 8} {
        r := ResolveTernary(w, r1, r2, rd);
      } else if w.opcode == 3 {
        var d := AddrFetch(w.m1, r1);
        r := if d.Err? then Err(d.fault) else Ok(Get(d.value));
      } else if w.opcode in {4, 9} {
        var a := Fetch(w.m1, r1);
        r := if a.Err? then Err(a.fault) else Ok(if w.opcode == 4 then Put(a.value) else Rbo(a.value));
      } else if w.opcode in {5, 6} {
        r := ResolveJump(w, r1, r2);
      } else if w.opcode == 99 {
        r := Ok(Halt);
      } else {
        r := Err(UnknownOpcode(w.opcode));
      }
    }

    method ResolveTernary(w: Word, r1: int, r2: int, rd: int) returns (r: Result<Instruction>)
      requires w.opcode == 1 || w.opcode == 2 || w.opcode == 7 || w.opcode == 8
      modifies this
      ensures var dd := TernaryOperands(w, r1, r2, rd, old(relativeBase), old(mem));
        && (dd.Ok? ==> r == Ok(dd.value.ins) && mem == dd.value.mem)
        && (dd.Err? ==> r == Err(dd.fault))
      ensures pc == old(pc) && relativeBase == old(relativeBase)
    {
      var d := AddrFetch(w.md, rd);
      if d.Err? {
        return Err(d.fault);
      }
      var a := Fetch(w.m1, r1);
      if a.Err? {
        return Err(a.fault);
      }
      var b := Fetch(w.m2, r2);
      if b.Err? {
        return Err(b.fault);
      }
      r := Ok(Ternary(w.opcode, d.value, a.value, b.value));
    }

    method ResolveJump(w: Word, r1: int, r2: int) returns (r: Result<Instruction>)
      requires w.opcode == 5 || w.opcode == 6
      modifies this
      ensures var dd := JumpOperands(w, r1, r2, old(relativeBase), old(mem));
        && (dd.Ok? ==> r == Ok(dd.value.ins) && mem == dd.value.mem)
        && (dd.Err? ==> r == Err(dd.fault))
      ensures pc == old(pc) && relativeBase == old(relativeBase)
    {
      var a := Fetch(w.m1, r1);
      if a.Err? {
        return Err(a.fault);
      }
      var t := Fetch(w.m2, r2);
      if t.Err? {
        return Err(t.fault);
      }
      r := Ok(if w.opcode == 5 then Jpt(a.value, t.value) else Jpf(a.value, t.value));
    }
  
    /**
     * `compute`: executes instructions until the program halts, an input
     * instruction finds the input exhausted, or (in this model) `fuel`
     * instructions have run; returns why it stopped and the values output.
     */
    method Compute(input: seq<int>, fuel: nat) returns (status: Status, output: seq<int>)
      modifies this
      ensures var o := Run(old(Snapshot()), input, fuel, []);
        status == o.status && output == o.output && (!status.Failed? ==> Snapshot() == o.state)
    {
      var rest := input;
      var left := fuel;
      output := [];
      while left > 0
        invariant Run(old(Snapshot()), input, fuel, []) == Run(Snapshot(), rest, left, output)
        decreases left
      {
        var stop;
        stop, status, rest, output := Tick(rest, left, output);
        if stop {
          return;
        }
        left := left - 1;
      }
      status := OutOfFuel;
    }

    /**
     * One iteration of `compute`'s loop with `left` instructions of fuel:
     * either the run goes on from the new fields with one less, or it ends
     * here with the status and output the whole run ends with.
     */
    method Tick(input: seq<int>, left: nat, output: seq<int>) returns (stop: bool, status: Status, rest: seq<int>, out: seq<int>)
      requires left > 0
      modifies this
      ensures !stop ==> Run(old(Snapshot()), input, left, output) == Run(Snapshot(), rest, left - 1, out)
      ensures stop ==> var o := Run(old(Snapshot()), input, left, output);
        status == o.status && out == o.output && (!status.Failed? ==> Snapshot() == o.state)
    {
      ghost var s := Snapshot();
      var st := Cycle(input);
      match st {
        case Running(next, rest', o) =>
          RunRunning(s, input, left, output, next, rest', o);
          return false, OutOfFuel, rest', output + o;
        case Stop(reason, at) =>
          RunStops(s, input, left, output, reason, at);
          return true, Stopped(reason), input, output;
        case Crashed(fault) =>
          RunCrashes(s, input, left, output, fault);
          return true, Failed(fault), input, output;
      }
    }

    /** One pass of `compute`'s loop: decode at `pc`, then perform the instruction. */
    method Cycle(input: seq<int>) returns (st: Step)
      modifies this
      ensures st == Exec(old(Snapshot()), input)
      ensures st.Running? ==> Snapshot() == st.next
      ensures st.Stop? ==> Snapshot() == st.at
    {
      ghost var s := Snapshot();
      var decoded := Decode(pc);
      if decoded.Err? {
        return Crashed(decoded.fault);
      }
      ExecPerforms(s, input, decoded.value, mem);
      st := Perform(decoded.value, input);
    }

    /** The effect of one decoded instruction on the fields, as `compute`'s `match` performs it. */
    method Perform(ins: Instruction, input: seq<int>) returns (st: Step)
      modifies this
      ensures st == FullMachine.Perform(old(Snapshot()), ins, input)
      ensures st.Running? ==> Snapshot() == st.next
      ensures st.Stop? ==> Snapshot() == st.at
    {
      var op: IssOp;
      var rest, out := input, [];
      match ins {
        case Add(d, a, b) =>
          if d < 0 {
            return Crashed(NegativeAddress(d));
          }
          Poke(d, a + b);
          op := Next(4);
        case Mul(d, a, b) =>
          if d < 0 {
            return Crashed(NegativeAddress(d));
          }
          Poke(d, a * b);
          op := Next(4);
        case Get(d) =>
          if |input| == 0 {
            return Stop(NeedInput, Snapshot());
          }
          if d < 0 {
            return Crashed(NegativeAddress(d));
          }
          Poke(d, input[0]);
          rest := input[1..];
          op := Next(2);
        case Put(a) =>
          out := [a];
          op := Next(2);
        case Jpt(a, target) =>
          op := if a != 0 then Jump(target) else Next(3);
        case Jpf(a, target) =>
          op := if a == 0 then Jump(target) else Next(3);
        case Lt(d, a, b) =>
          if d < 0 {
            return Crashed(NegativeAddress(d));
          }
          Poke(d, if a < b then 1 else 0);
          op := Next(4);
        case Eq(d, a, b) =>
          if d < 0 {
            return Crashed(NegativeAddress(d));
          }
          Poke(d, if a == b then 1 else 0);
          op := Next(4);
        case Rbo(a) =>
          relativeBase := relativeBase + a;
          op := Next(2);
        case Halt =>
          op := Done;
      }
      match op {
        case Next(len) =>
          pc := pc + len;
        case Jump(addr) =>
          if addr < 0 {
            return Crashed(NegativeAddress(addr));
          }
          pc := addr;
        case Done =>
          return Stop(ProgramHalt, Snapshot());
      }
      st := Running(Snapshot(), rest, out);
    }
  }
}
