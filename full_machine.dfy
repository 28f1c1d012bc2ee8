/**
 * The full Intcode machine of day 9 and day 13 (the two `IntcodeISS`
 * implementations are identical): `i64` cells, a memory that grows in
 * 1024-cell pages filled with zeros, a relative base, three addressing
 * modes, and a `compute` that returns a stop reason together with the
 * values output during the call, suspending with `NeedInput` when an
 * input instruction finds the input exhausted.
 *
 * The specification is a step function `Exec` and a fuel-bounded `Run`;
 * the class `IntcodeISS` keeps the source's mutable fields and its methods
 * are proved to compute exactly what the functions describe.
 */
module FullMachine {
  import opened RustInt
  import opened IntcodeDecode

  const PAGE_SIZE: nat := 1024

  datatype StopReason = NeedInput | ProgramHalt

  /** The conditions under which the source panics. */
  datatype Fault =
    | UnknownOpcode(opcode: int)
    | UnknownMode(mode: int)
    | NegativeAddress(addr: int)

  datatype Result<T> = Ok(value: T) | Err(fault: Fault)

  /**
   * A decoded instruction. Write targets (`d`) and jump targets are kept as
   * the computed integers; the source casts them to an address only when
   * it uses them, which is where a negative one becomes fatal.
   */
  datatype Instruction =
    | Add(d: int, a: int, b: int)
    | Mul(d: int, a: int, b: int)
    | Get(d: int)
    | Put(a: int)
    | Jpt(a: int, target: int)
    | Jpf(a: int, target: int)
    | Lt(d: int, a: int, b: int)
    | Eq(d: int, a: int, b: int)
    | Rbo(a: int)
    | Halt

  datatype State = State(mem: seq<int>, pc: nat, relativeBase: int)

  /** `IntcodeISS::new`: the program is the memory, `pc` and the relative base start at 0. */
  function Load(prog: seq<int>): (s: State)
    ensures s.mem == prog && s.pc == 0 && s.relativeBase == 0
  {
    State(prog, 0, 0)
  }

  // ---------------------------------------------------------------------
  // Memory
  // ---------------------------------------------------------------------

  /** The length `resize_mem(addr)` gives the memory: `(addr + PAGE_SIZE) / PAGE_SIZE * PAGE_SIZE`. */
  function PageEnd(addr: nat): nat
  {
    (addr + PAGE_SIZE) / PAGE_SIZE * PAGE_SIZE
  }

  /** `PageEnd(addr)` is the smallest multiple of the page size strictly above `addr`. */
  lemma PageEndIsLeastPageAbove(addr: nat)
    ensures PageEnd(addr) % PAGE_SIZE == 0 && addr < PageEnd(addr)
    ensures forall n: nat :: n % PAGE_SIZE == 0 && addr < n ==> PageEnd(addr) <= n
  {
    var q := (addr + PAGE_SIZE) / PAGE_SIZE;
    assert addr / PAGE_SIZE + 1 == q;
    forall n: nat | n % PAGE_SIZE == 0 && addr < n
      ensures PageEnd(addr) <= n
    {
      assert n == n / PAGE_SIZE * PAGE_SIZE;
      assert addr / PAGE_SIZE < n / PAGE_SIZE;
    }
  }

  function Zeros(n: nat): (z: seq<int>)
    ensures |z| == n && forall i :: 0 <= i < n ==> z[i] == 0
  {
    seq(n, _ => 0)
  }

  /** `Vec::resize(PageEnd(addr), 0)`: truncates or zero-fills to the new length. */
  function Resized(mem: seq<int>, addr: nat): seq<int>
  {
    var n := PageEnd(addr);
    if n <= |mem| then mem[..n] else mem + Zeros(n - |mem|)
  }

  /** The value a cell holds; every cell beyond the vector reads as 0. */
  function Read(mem: seq<int>, addr: nat): int
  {
    if addr < |mem| then mem[addr] else 0
  }

  /** The memory after `peek(addr)`: unchanged if `addr` is inside, else resized to cover it. */
  function Touch(mem: seq<int>, addr: nat): seq<int>
  {
    if addr < |mem| then mem else Resized(mem, addr)
  }

  /** The memory after `poke(addr, val)`. */
  function Write(mem: seq<int>, addr: nat, val: int): seq<int>
  {
    var m := Touch(mem, addr);
    TouchCovers(mem, addr);
    m[addr := val]
  }

  /** `mem'` is `mem` followed by zeros: no value readable from `mem` has changed. */
  ghost predicate Extends(mem: seq<int>, mem': seq<int>)
  {
    && |mem| <= |mem'|
    && mem'[..|mem|] == mem
    && forall i :: |mem| <= i < |mem'| ==> mem'[i] == 0
  }

  lemma ResizedKeepsPrefix(mem: seq<int>, addr: nat)
    requires |mem| <= addr
    ensures |Resized(mem, addr)| == PageEnd(addr)
    ensures Extends(mem, Resized(mem, addr))
  {
    PageEndIsLeastPageAbove(addr);
  }

  lemma TouchCovers(mem: seq<int>, addr: nat)
    ensures addr < |Touch(mem, addr)|
    ensures Extends(mem, Touch(mem, addr))
  {
    if addr >= |mem| {
      ResizedKeepsPrefix(mem, addr);
    }
  }

  lemma ExtendsReads(mem: seq<int>, mem': seq<int>)
    requires Extends(mem, mem')
    ensures forall a: nat :: Read(mem', a) == Read(mem, a)
  {
    forall a: nat
      ensures Read(mem', a) == Read(mem, a)
    {
      if a < |mem| {
        assert mem'[a] == mem'[..|mem|][a];
      }
    }
  }

  /** `peek` past the end reads 0 and changes no readable cell. */
  lemma {:induction false} PeekKeepsContents(mem: seq<int>, addr: nat)
    ensures addr >= |mem| ==> Read(Touch(mem, addr), addr) == 0
    ensures forall a: nat :: Read(Touch(mem, addr), a) == Read(mem, a)
    ensures forall i :: 0 <= i < |mem| ==> Touch(mem, addr)[i] == mem[i]
  {
    TouchCovers(mem, addr);
    ExtendsReads(mem, Touch(mem, addr));
    assert forall i :: 0 <= i < |mem| ==> Touch(mem, addr)[i] == Touch(mem, addr)[..|mem|][i];
  }

  /** `poke(a, v)` then `peek(a)` gives `v`; every other address reads as before. */
  lemma {:induction false} PokeThenPeek(mem: seq<int>, addr: nat, val: int)
    ensures Read(Write(mem, addr, val), addr) == val
    ensures forall a: nat :: a != addr ==> Read(Write(mem, addr, val), a) == Read(mem, a)
  {
    PeekKeepsContents(mem, addr);
  }

  // ---------------------------------------------------------------------
  // Operand resolution and decoding
  // ---------------------------------------------------------------------

  /** `addr_fetch`: the write target for mode 0 or 1 is the raw parameter, for mode 2 it is relative. */
  function AddrOf(relativeBase: int, mode: int, raw: int): (r: Result<int>)
    ensures mode == 0 || mode == 1 ==> r == Ok(raw)
    ensures mode == 2 ==> r == Ok(relativeBase + raw)
    ensures r.Err? <==> !(0 <= mode <= 2)
  {
    match mode
    case 0 => Ok(raw)
    case 1 => Ok(raw)
    case 2 => Ok(relativeBase + raw)
    case _ => Err(UnknownMode(mode))
  }

  /** A cell read through `peek`: its value and the memory afterwards, or the fault of a negative address. */
  function PeekAt(mem: seq<int>, addr: int): Result<(int, seq<int>)>
  {
    if addr < 0 then Err(NegativeAddress(addr)) else Ok((Read(mem, addr), Touch(mem, addr)))
  }

  /** `fetch`: mode 0 reads `mem[raw]`, mode 1 is `raw` itself, mode 2 reads `mem[relative_base + raw]`. */
  function FetchOperand(mem: seq<int>, relativeBase: int, mode: int, raw: int): (r: Result<(int, seq<int>)>)
    ensures mode == 0 && raw >= 0 ==> r.Ok? && r.value.0 == Read(mem, raw)
    ensures mode == 1 ==> r == Ok((raw, mem))
    ensures mode == 2 && relativeBase + raw >= 0 ==> r.Ok? && r.value.0 == Read(mem, relativeBase + raw)
    ensures r.Err? <==> !(0 <= mode <= 2) || (mode == 0 && raw < 0) || (mode == 2 && relativeBase + raw < 0)
  {
    match mode
    case 0 => PeekAt(mem, raw)
    case 1 => Ok((raw, mem))
    case 2 => PeekAt(mem, relativeBase + raw)
    case _ => Err(UnknownMode(mode))
  }

  datatype Decoded = Decoded(ins: Instruction, mem: seq<int>)

  /** The instruction of one of the four three-parameter opcodes 1, 2, 7 and 8. */
  function Ternary(opcode: int, d: int, a: int, b: int): Instruction
    requires opcode == 1 || opcode == 2 || opcode == 7 || opcode == 8
  {
    match opcode
    case 1 => Add(d, a, b)
    case 2 => Mul(d, a, b)
    case 7 => Lt(d, a, b)
    case 8 => Eq(d, a, b)
  }

  /**
   * Resolves the parameters of an opcode: `addr_fetch` for the destination
   * first, then `fetch` for the first and second operand, in that order.
   */
  function Operands(w: Word, r1: int, r2: int, rd: int, relativeBase: int, mem: seq<int>): Result<Decoded>
  {
    match w.opcode
    case 1 => TernaryOperands(w, r1, r2, rd, relativeBase, mem)
    case 2 => TernaryOperands(w, r1, r2, rd, relativeBase, mem)
    case 7 => TernaryOperands(w, r1, r2, rd, relativeBase, mem)
    case 8 => TernaryOperands(w, r1, r2, rd, relativeBase, mem)
    case 3 =>
      (match AddrOf(relativeBase, w.m1, r1)
       case Err(f) => Err(f)
       case Ok(d) => Ok(Decoded(Get(d), mem)))
    case 4 =>
      (match FetchOperand(mem, relativeBase, w.m1, r1)
       case Err(f) => Err(f)
       case Ok((a, m)) => Ok(Decoded(Put(a), m)))
    case 5 => JumpOperands(w, r1, r2, relativeBase, mem)
    case 6 => JumpOperands(w, r1, r2, relativeBase, mem)
    case 9 =>
      (match FetchOperand(mem, relativeBase, w.m1, r1)
       case Err(f) => Err(f)
       case Ok((a, m)) => Ok(Decoded(Rbo(a), m)))
    case 99 => Ok(Decoded(Halt, mem))
    case _ => Err(UnknownOpcode(w.opcode))
  }

  function TernaryOperands(w: Word, r1: int, r2: int, rd: int, relativeBase: int, mem: seq<int>): Result<Decoded>
    requires w.opcode == 1 || w.opcode == 2 || w.opcode == 7 || w.opcode == 8
  {
    match AddrOf(relativeBase, w.md, rd)
    case Err(f) => Err(f)
    case Ok(d) =>
      match FetchOperand(mem, relativeBase, w.m1, r1)
      case Err(f) => Err(f)
      case Ok((a, m1)) =>
        match FetchOperand(m1, relativeBase, w.m2, r2)
        case Err(f) => Err(f)
        case Ok((b, m2)) => Ok(Decoded(Ternary(w.opcode, d, a, b), m2))
  }

  function JumpOperands(w: Word, r1: int, r2: int, relativeBase: int, mem: seq<int>): Result<Decoded>
    requires w.opcode == 5 || w.opcode == 6
  {
    match FetchOperand(mem, relativeBase, w.m1, r1)
    case Err(f) => Err(f)
    case Ok((a, m1)) =>
      match FetchOperand(m1, relativeBase, w.m2, r2)
      case Err(f) => Err(f)
      case Ok((t, m2)) => Ok(Decoded(if w.opcode == 5 then Jpt(a, t) else Jpf(a, t), m2))
  }

  /**
   * `decode(addr)`: reads the word at `addr` and, eagerly, the three cells
   * after `pc` (growing the memory if they lie beyond it), then resolves
   * the operands the opcode needs.
   */
  function DecodeAt(s: State, addr: nat): Result<Decoded>
  {
    var word := Read(s.mem, addr);
    var m0 := Touch(s.mem, addr);
    var r1 := Read(m0, s.pc + 1);
    var m1 := Touch(m0, s.pc + 1);
    var r2 := Read(m1, s.pc + 2);
    var m2 := Touch(m1, s.pc + 2);
    var rd := Read(m2, s.pc + 3);
    var m3 := Touch(m2, s.pc + 3);
    Operands(Split(word), r1, r2, rd, s.relativeBase, m3)
  }

  // ---------------------------------------------------------------------
  // Execution
  // ---------------------------------------------------------------------

  /** What one pass of `compute`'s loop does. */
  datatype Step =
    | Running(next: State, rest: seq<int>, out: seq<int>)
    | Stop(reason: StopReason, at: State)
    | Crashed(fault: Fault)

  /** `poke(d, val)` followed by `pc += len`. */
  function Store(t: State, d: int, val: int, len: nat): Step
  {
    if d < 0 then Crashed(NegativeAddress(d))
    else Running(t.(mem := Write(t.mem, d, val), pc := t.pc + len), [], [])
  }

  /** `pc = target`; a negative target is fatal at the next fetch. */
  function JumpTo(t: State, target: int): Step
  {
    if target < 0 then Crashed(NegativeAddress(target)) else Running(t.(pc := target), [], [])
  }

  /** `pc += len` with nothing else changed. */
  function Advance(t: State, len: nat): Step
  {
    Running(t.(pc := t.pc + len), [], [])
  }

  /** Continues a step that consumed nothing with the given remaining input and output. */
  function WithIo(st: Step, rest: seq<int>, out: seq<int>): Step
  {
    if st.Running? then Running(st.next, rest, out) else st
  }

  /** The effect of a decoded instruction on the state `t` (whose memory is the decoded one). */
  function Perform(t: State, ins: Instruction, input: seq<int>): Step
  {
    match ins
    case Add(d, a, b) => WithIo(Store(t, d, a + b, 4), input, [])
    case Mul(d, a, b) => WithIo(Store(t, d, a * b, 4), input, [])
    case Get(d) =>
      if |input| == 0 then Stop(NeedInput, t)
      else WithIo(Store(t, d, input[0], 2), input[1..], [])
    case Put(a) => WithIo(Advance(t, 2), input, [a])
    case Jpt(a, target) => WithIo(if a != 0 then JumpTo(t, target) else Advance(t, 3), input, [])
    case Jpf(a, target) => WithIo(if a == 0 then JumpTo(t, target) else Advance(t, 3), input, [])
    case Lt(d, a, b) => WithIo(Store(t, d, if a < b then 1 else 0, 4), input, [])
    case Eq(d, a, b) => WithIo(Store(t, d, if a == b then 1 else 0, 4), input, [])
    case Rbo(a) => WithIo(Advance(t.(relativeBase := t.relativeBase + a), 2), input, [])
    case Halt => Stop(ProgramHalt, t)
  }

  /** One pass of `compute`'s loop: decode at `pc`, then perform the instruction. */
  function Exec(s: State, input: seq<int>): Step
  {
    match DecodeAt(s, s.pc)
    case Err(f) => Crashed(f)
    case Ok(Decoded(ins, mem)) => Perform(s.(mem := mem), ins, input)
  }

  datatype Status = Stopped(reason: StopReason) | Failed(fault: Fault) | OutOfFuel

  /** Where a run ended, with the input left unread, all output produced, and the fuel left. */
  datatype Outcome = Outcome(status: Status, state: State, input: seq<int>, output: seq<int>, fuel: nat)

  /**
   * `compute`'s loop over any step function: runs until the machine halts,
   * suspends or faults, executing at most `fuel` steps. `out` is the output
   * gathered so far.
   */
  function Drive(exec: (State, seq<int>) -> Step, s: State, input: seq<int>, fuel: nat, out: seq<int>): Outcome
    decreases fuel, 1
  {
    if fuel == 0 then Outcome(OutOfFuel, s, input, out, 0)
    else Continue(exec, s, input, fuel, out)
  }

  /** One turn of `Drive` with fuel left: perform a step and go on, or end the run there. */
  function Continue(exec: (State, seq<int>) -> Step, s: State, input: seq<int>, fuel: nat, out: seq<int>): Outcome
    requires fuel > 0
    decreases fuel, 0
  {
    match exec(s, input)
    case Running(next, rest, o) => Drive(exec, next, rest, fuel - 1, out + o)
    case Stop(reason, at) => Outcome(Stopped(reason), at, input, out, fuel)
    case Crashed(f) => Outcome(Failed(f), s, input, out, fuel)
  }

  function Run(s: State, input: seq<int>, fuel: nat, out: seq<int>): Outcome
  {
    Drive(Exec, s, input, fuel, out)
  }

  // ---------------------------------------------------------------------
  // A read-only decoder: what `decode` means, independent of paging
  // ---------------------------------------------------------------------

  /** The value of a read operand, taken from the cells as they read. */
  function OperandValue(mem: seq<int>, relativeBase: int, mode: int, raw: int): (r: Result<int>)
    ensures r.Ok? <==> (mode == 1 || (mode == 0 && raw >= 0) || (mode == 2 && relativeBase + raw >= 0))
  {
    match mode
    case 0 => if raw < 0 then Err(NegativeAddress(raw)) else Ok(Read(mem, raw))
    case 1 => Ok(raw)
    case 2 => if relativeBase + raw < 0 then Err(NegativeAddress(relativeBase + raw)) else Ok(Read(mem, relativeBase + raw))
    case _ => Err(UnknownMode(mode))
  }

  /** The instruction that the cells at `addr` and `pc + 1 .. pc + 3` denote, faults in the source's order. */
  function InstructionAt(mem: seq<int>, addr: nat, pc: nat, relativeBase: int): Result<Instruction>
  {
    RefOperands(Split(Read(mem, addr)), Read(mem, pc + 1), Read(mem, pc + 2), Read(mem, pc + 3), relativeBase, mem)
  }

  /** The operands of an opcode, read from `mem` without changing it. */
  function RefOperands(w: Word, r1: int, r2: int, rd: int, relativeBase: int, mem: seq<int>): Result<Instruction>
  {
    match w.opcode
    case 1 => TernaryAt(w, r1, r2, rd, relativeBase, mem)
    case 2 => TernaryAt(w, r1, r2, rd, relativeBase, mem)
    case 7 => TernaryAt(w, r1, r2, rd, relativeBase, mem)
    case 8 => TernaryAt(w, r1, r2, rd, relativeBase, mem)
    case 3 =>
      (match AddrOf(relativeBase, w.m1, r1)
       case Err(f) => Err(f)
       case Ok(d) => Ok(Get(d)))
    case 4 =>
      (match OperandValue(mem, relativeBase, w.m1, r1)
       case Err(f) => Err(f)
       case Ok(a) => Ok(Put(a)))
    case 5 => JumpAt(w, r1, r2, relativeBase, mem)
    case 6 => JumpAt(w, r1, r2, relativeBase, mem)
    case 9 =>
      (match OperandValue(mem, relativeBase, w.m1, r1)
       case Err(f) => Err(f)
       case Ok(a) => Ok(Rbo(a)))
    case 99 => Ok(Halt)
    case _ => Err(UnknownOpcode(w.opcode))
  }

  lemma RefOperandsReads(w: Word, r1: int, r2: int, rd: int, relativeBase: int, m1: seq<int>, m2: seq<int>)
    requires SameReads(m1, m2)
    ensures RefOperands(w, r1, r2, rd, relativeBase, m1) == RefOperands(w, r1, r2, rd, relativeBase, m2)
  {
    assert OperandValue(m1, relativeBase, w.m1, r1) == OperandValue(m2, relativeBase, w.m1, r1);
    assert OperandValue(m1, relativeBase, w.m2, r2) == OperandValue(m2, relativeBase, w.m2, r2);
  }

  function TernaryAt(w: Word, r1: int, r2: int, rd: int, relativeBase: int, mem: seq<int>): Result<Instruction>
    requires w.opcode == 1 || w.opcode == 2 || w.opcode == 7 || w.opcode == 8
  {
    match AddrOf(relativeBase, w.md, rd)
    case Err(f) => Err(f)
    case Ok(d) =>
      match OperandValue(mem, relativeBase, w.m1, r1)
      case Err(f) => Err(f)
      case Ok(a) =>
        match OperandValue(mem, relativeBase, w.m2, r2)
        case Err(f) => Err(f)
        case Ok(b) => Ok(Ternary(w.opcode, d, a, b))
  }

  function JumpAt(w: Word, r1: int, r2: int, relativeBase: int, mem: seq<int>): Result<Instruction>
    requires w.opcode == 5 || w.opcode == 6
  {
    match OperandValue(mem, relativeBase, w.m1, r1)
    case Err(f) => Err(f)
    case Ok(a) =>
      match OperandValue(mem, relativeBase, w.m2, r2)
      case Err(f) => Err(f)
      case Ok(t) => Ok(if w.opcode == 5 then Jpt(a, t) else Jpf(a, t))
  }

  /** Every opcode outside 1..9 and 99 is fatal; a known one never fails as unknown. */
  lemma UnknownOpcodeIsFatal(mem: seq<int>, addr: nat, pc: nat, relativeBase: int)
    ensures var op := Split(Read(mem, addr)).opcode;
      && (!KnownOpcode(op) ==> InstructionAt(mem, addr, pc, relativeBase) == Err(UnknownOpcode(op)))
      && (KnownOpcode(op) ==> InstructionAt(mem, addr, pc, relativeBase) != Err(UnknownOpcode(op)))
  {
    var w := Split(Read(mem, addr));
    var r := InstructionAt(mem, addr, pc, relativeBase);
    if !KnownOpcode(w.opcode) {
      assert r == Err(UnknownOpcode(w.opcode));
    } else if r.Err? {
      assert !r.fault.UnknownOpcode?;
    }
  }

  ghost predicate SameReads(m1: seq<int>, m2: seq<int>)
  {
    forall a: nat :: Read(m1, a) == Read(m2, a)
  }

  lemma ExtendsTransitive(m1: seq<int>, m2: seq<int>, m3: seq<int>)
    requires Extends(m1, m2) && Extends(m2, m3)
    ensures Extends(m1, m3)
  {
    assert m3[..|m1|] == m3[..|m2|][..|m1|];
    forall i | |m1| <= i < |m3|
      ensures m3[i] == 0
    {
      if i < |m2| {
        assert m3[i] == m3[..|m2|][i];
      }
    }
  }

  lemma ExtendsReflexive(m: seq<int>)
    ensures Extends(m, m)
  {
    assert m[..|m|] == m;
  }

  /** `fetch` reads what the cells hold, and only grows the memory. */
  lemma {:induction false} FetchAgrees(mem: seq<int>, relativeBase: int, mode: int, raw: int)
    ensures var r := FetchOperand(mem, relativeBase, mode, raw);
      && (r.Err? ==> OperandValue(mem, relativeBase, mode, raw) == Err(r.fault))
      && (r.Ok? ==> OperandValue(mem, relativeBase, mode, raw) == Ok(r.value.0) && Extends(mem, r.value.1))
  {
    var a := if mode == 0 then raw else relativeBase + raw;
    if (mode == 0 || mode == 2) && a >= 0 {
      TouchCovers(mem, a);
    } else {
      ExtendsReflexive(mem);
    }
  }

  /** Fetching again from a memory that extends the result of a fetch gives the same value and no growth. */
  lemma {:induction false} FetchAgain(mem: seq<int>, m1: seq<int>, m': seq<int>, relativeBase: int, mode: int, raw: int, v: int)
    requires FetchOperand(mem, relativeBase, mode, raw) == Ok((v, m1))
    requires Extends(m1, m')
    ensures FetchOperand(m', relativeBase, mode, raw) == Ok((v, m'))
  {
    if mode != 1 {
      var a := if mode == 0 then raw else relativeBase + raw;
      PeekKeepsContents(mem, a);
      TouchCovers(mem, a);
      ExtendsReads(m1, m');
    }
  }

  /** Resolving the operands reads what the cells hold, and only grows the memory. */
  lemma {:induction false} OperandsAgree(w: Word, r1: int, r2: int, rd: int, relativeBase: int, mem: seq<int>)
    ensures var r := Operands(w, r1, r2, rd, relativeBase, mem);
      var ref := RefOperands(w, r1, r2, rd, relativeBase, mem);
      && (r.Err? <==> ref.Err?)
      && (r.Err? ==> r.fault == ref.fault)
      && (r.Ok? ==> r.value.ins == ref.value && Extends(mem, r.value.mem))
  {
    ExtendsReflexive(mem);
    FetchAgrees(mem, relativeBase, w.m1, r1);
    if w.opcode in {1, 2, 7, 8, 5, 6} {
      PairAgrees(w, r1, r2, rd, relativeBase, mem);
    }
  }

  /** `OperandsAgree` for the opcodes that fetch two operands. */
  lemma {:induction false} PairAgrees(w: Word, r1: int, r2: int, rd: int, relativeBase: int, mem: seq<int>)
    requires w.opcode in {1, 2, 7, 8, 5, 6}
    ensures var r := if w.opcode in {5, 6} then JumpOperands(w, r1, r2, relativeBase, mem)
                     else TernaryOperands(w, r1, r2, rd, relativeBase, mem);
      var ref := if w.opcode in {5, 6} then JumpAt(w, r1, r2, relativeBase, mem)
                 else TernaryAt(w, r1, r2, rd, relativeBase, mem);
      && (r.Err? <==> ref.Err?)
      && (r.Err? ==> r.fault == ref.fault)
      && (r.Ok? ==> r.value.ins == ref.value && Extends(mem, r.value.mem))
  {
    FetchAgrees(mem, relativeBase, w.m1, r1);
    var f1 := FetchOperand(mem, relativeBase, w.m1, r1);
    if f1.Ok? {
      FetchAgrees(f1.value.1, relativeBase, w.m2, r2);
      ExtendsReads(mem, f1.value.1);
      var f2 := FetchOperand(f1.value.1, relativeBase, w.m2, r2);
      if f2.Ok? {
        ExtendsTransitive(mem, f1.value.1, f2.value.1);
      }
    }
  }

  /** The memory after `decode`'s four eager reads at `addr` and `pc + 1 .. pc + 3`. */
  function Touched(mem: seq<int>, addr: nat, pc: nat): seq<int>
  {
    Touch(Touch(Touch(Touch(mem, addr), pc + 1), pc + 2), pc + 3)
  }

  /** `decode` sees the cells as they read before it grew the memory. */
  lemma {:induction false} DecodeUnfold(s: State, addr: nat)
    ensures var m := Touched(s.mem, addr, s.pc);
      && Extends(s.mem, m) && addr < |m| && s.pc + 3 < |m|
      && DecodeAt(s, addr)
         == Operands(Split(Read(s.mem, addr)), Read(s.mem, s.pc + 1), Read(s.mem, s.pc + 2), Read(s.mem, s.pc + 3), s.relativeBase, m)
  {
    var m0 := Touch(s.mem, addr);
    var m1 := Touch(m0, s.pc + 1);
    var m2 := Touch(m1, s.pc + 2);
    var m3 := Touch(m2, s.pc + 3);
    TouchCovers(s.mem, addr);
    TouchCovers(m0, s.pc + 1);
    TouchCovers(m1, s.pc + 2);
    TouchCovers(m2, s.pc + 3);
    ExtendsTransitive(s.mem, m0, m1);
    ExtendsTransitive(s.mem, m1, m2);
    ExtendsTransitive(s.mem, m2, m3);
    ExtendsReads(s.mem, m0);
    ExtendsReads(s.mem, m1);
    ExtendsReads(s.mem, m2);
  }

  /** Growing memory by `peek` is invisible to decoding: `decode` means what the cells read as. */
  lemma {:induction false} DecodeAgrees(s: State, addr: nat)
    ensures var r := DecodeAt(s, addr);
      var ref := InstructionAt(s.mem, addr, s.pc, s.relativeBase);
      && (r.Err? <==> ref.Err?)
      && (r.Err? ==> r.fault == ref.fault)
      && (r.Ok? ==> r.value.ins == ref.value && Extends(s.mem, r.value.mem))
  {
    var m3 := Touched(s.mem, addr, s.pc);
    var w := Split(Read(s.mem, addr));
    var r1, r2, rd := Read(s.mem, s.pc + 1), Read(s.mem, s.pc + 2), Read(s.mem, s.pc + 3);
    var r := Operands(w, r1, r2, rd, s.relativeBase, m3);
    assert DecodeAt(s, addr) == r && Extends(s.mem, m3) by {
      DecodeUnfold(s, addr);
    }
    assert InstructionAt(s.mem, addr, s.pc, s.relativeBase) == RefOperands(w, r1, r2, rd, s.relativeBase, m3) by {
      ExtendsReads(s.mem, m3);
      RefOperandsReads(w, r1, r2, rd, s.relativeBase, m3, s.mem);
    }
    OperandsAgree(w, r1, r2, rd, s.relativeBase, m3);
    if r.Ok? {
      ExtendsTransitive(s.mem, m3, r.value.mem);
    }
  }

  /** Decoding again on the memory a decode left behind gives the same instruction and no growth. */
  lemma {:induction false} DecodeAgain(s: State, addr: nat, ins: Instruction, m': seq<int>)
    requires DecodeAt(s, addr) == Ok(Decoded(ins, m'))
    ensures DecodeAt(s.(mem := m'), addr) == Ok(Decoded(ins, m'))
  {
    var m3 := Touched(s.mem, addr, s.pc);
    var w := Split(Read(s.mem, addr));
    var r1, r2, rd := Read(s.mem, s.pc + 1), Read(s.mem, s.pc + 2), Read(s.mem, s.pc + 3);
    assert Operands(w, r1, r2, rd, s.relativeBase, m3) == Ok(Decoded(ins, m')) && Extends(s.mem, m') && Extends(m3, m')
      && addr < |m'| && s.pc + 3 < |m'| by {
      DecodeUnfold(s, addr);
      OperandsAgree(w, r1, r2, rd, s.relativeBase, m3);
      ExtendsTransitive(s.mem, m3, m');
    }
    DecodeGrown(s, addr, m');
    OperandsAgain(w, r1, r2, rd, s.relativeBase, m3, ins, m');
  }

  /** On a memory grown past the instruction's cells, decoding reads the same words and touches nothing. */
  lemma {:induction false} DecodeGrown(s: State, addr: nat, m': seq<int>)
    requires Extends(s.mem, m') && addr < |m'| && s.pc + 3 < |m'|
    ensures DecodeAt(s.(mem := m'), addr)
      == Operands(Split(Read(s.mem, addr)), Read(s.mem, s.pc + 1), Read(s.mem, s.pc + 2), Read(s.mem, s.pc + 3), s.relativeBase, m')
  {
    ExtendsReads(s.mem, m');
    assert Read(m', addr) == Read(s.mem, addr);
    assert Read(m', s.pc + 1) == Read(s.mem, s.pc + 1);
    assert Read(m', s.pc + 2) == Read(s.mem, s.pc + 2);
    assert Read(m', s.pc + 3) == Read(s.mem, s.pc + 3);
    DecodeUnfold(s.(mem := m'), addr);
    TouchedInside(m', addr, s.pc);
  }

  lemma TouchedInside(m: seq<int>, addr: nat, pc: nat)
    requires addr < |m| && pc + 3 < |m|
    ensures Touched(m, addr, pc) == m
  {
  }

  lemma {:induction false} OperandsAgain(w: Word, r1: int, r2: int, rd: int, relativeBase: int, mem: seq<int>, ins: Instruction, m': seq<int>)
    requires Operands(w, r1, r2, rd, relativeBase, mem) == Ok(Decoded(ins, m'))
    ensures Operands(w, r1, r2, rd, relativeBase, m') == Ok(Decoded(ins, m'))
  {
    ExtendsReflexive(m');
    var f1 := FetchOperand(mem, relativeBase, w.m1, r1);
    if f1.Ok? && w.opcode in {1, 2, 4, 5, 6, 7, 8, 9} {
      var (a, ma) := f1.value;
      if w.opcode in {4, 9} {
        FetchAgain(mem, ma, m', relativeBase, w.m1, r1, a);
      } else {
        var f2 := FetchOperand(ma, relativeBase, w.m2, r2);
        FetchAgrees(ma, relativeBase, w.m2, r2);
        ExtendsTransitive(ma, f2.value.1, m');
        FetchAgain(mem, ma, m', relativeBase, w.m1, r1, a);
        FetchAgain(ma, m', m', relativeBase, w.m2, r2, f2.value.0);
      }
    }
  }

  /** When the four cells at `pc` lie inside the memory, decoding grows nothing before the operands. */
  lemma DecodeInside(s: State)
    requires s.pc + 3 < |s.mem|
    ensures DecodeAt(s, s.pc)
      == Operands(Split(s.mem[s.pc]), s.mem[s.pc + 1], s.mem[s.pc + 2], s.mem[s.pc + 3], s.relativeBase, s.mem)
  {
  }

  // ---------------------------------------------------------------------
  // What one step does
  // ---------------------------------------------------------------------

  /** The instruction at `pc`, as `compute` decodes it. */
  function Current(s: State): Result<Instruction>
  {
    InstructionAt(s.mem, s.pc, s.pc, s.relativeBase)
  }

  /** A failing decode is a crash with the same fault. */
  lemma {:induction false} DecodeFaultCrashes(s: State, input: seq<int>)
    requires Current(s).Err?
    ensures Exec(s, input) == Crashed(Current(s).fault)
  {
    DecodeAgrees(s, s.pc);
  }

  /**
   * Add, Mul, Lt and Eq write their result to cell `d`, change no other cell,
   * and advance `pc` by 4; Lt and Eq store exactly 1 or 0.
   */
  lemma {:induction false} StoreStep(s: State, input: seq<int>)
    requires Current(s).Ok?
    requires var ins := Current(s).value; ins.Add? || ins.Mul? || ins.Lt? || ins.Eq?
    ensures var ins := Current(s).value; ins.d < 0 ==> Exec(s, input) == Crashed(NegativeAddress(ins.d))
    ensures var ins := Current(s).value; var st := Exec(s, input);
      ins.d >= 0 ==>
        && st.Running? && st.rest == input && st.out == []
        && st.next.pc == s.pc + 4 && st.next.relativeBase == s.relativeBase
        && (ins.Add? ==> Read(st.next.mem, ins.d) == ins.a + ins.b)
        && (ins.Mul? ==> Read(st.next.mem, ins.d) == ins.a * ins.b)
        && (ins.Lt? ==> (Read(st.next.mem, ins.d) == 1 <==> ins.a < ins.b))
        && (ins.Eq? ==> (Read(st.next.mem, ins.d) == 1 <==> ins.a == ins.b))
        && ((ins.Lt? || ins.Eq?) ==> Read(st.next.mem, ins.d) in {0, 1})
  {
    DecodeAgrees(s, s.pc);
    var ins := Current(s).value;
    var m' := DecodeAt(s, s.pc).value.mem;
    ExtendsReads(s.mem, m');
    if ins.d >= 0 {
      TouchCovers(m', ins.d);
      var v := match ins
        case Add(_, a, b) => a + b
        case Mul(_, a, b) => a * b
        case Lt(_, a, b) => if a < b then 1 else 0
        case Eq(_, a, b) => if a == b then 1 else 0;
      assert Exec(s, input) == Running(s.(mem := Write(m', ins.d, v), pc := s.pc + 4), input, []);
      PokeThenPeek(m', ins.d, v);
    }
  }

  /** A store changes no cell but its target, and memory only grows. */
  lemma {:induction false} StoreKeeps(s: State, input: seq<int>)
    requires Current(s).Ok?
    requires var ins := Current(s).value; ins.Add? || ins.Mul? || ins.Lt? || ins.Eq?
    ensures var ins := Current(s).value; var st := Exec(s, input);
      ins.d >= 0 ==>
        && st.Running? && |s.mem| <= |st.next.mem|
        && forall x: nat :: x != ins.d ==> Read(st.next.mem, x) == Read(s.mem, x)
  {
    DecodeAgrees(s, s.pc);
    var ins := Current(s).value;
    var m' := DecodeAt(s, s.pc).value.mem;
    ExtendsReads(s.mem, m');
    if ins.d >= 0 {
      TouchCovers(m', ins.d);
      var v := match ins
        case Add(_, a, b) => a + b
        case Mul(_, a, b) => a * b
        case Lt(_, a, b) => if a < b then 1 else 0
        case Eq(_, a, b) => if a == b then 1 else 0;
      assert Exec(s, input) == Running(s.(mem := Write(m', ins.d, v), pc := s.pc + 4), input, []);
      PokeThenPeek(m', ins.d, v);
    }
  }

  /**
   * Get with no input left suspends with `pc`, the relative base and every
   * cell as they were, so that a later call retries the same instruction;
   * with input it stores the first value at `d` and advances `pc` by 2.
   */
  lemma {:induction false} InputStep(s: State, input: seq<int>)
    requires Current(s).Ok? && Current(s).value.Get?
    ensures var d := Current(s).value.d; var st := Exec(s, input);
      |input| == 0 ==>
        && st.Stop? && st.reason == NeedInput
        && st.at.pc == s.pc && st.at.relativeBase == s.relativeBase && Extends(s.mem, st.at.mem)
        && forall more :: Exec(st.at, more) == Exec(s, more)
    ensures var d := Current(s).value.d; var st := Exec(s, input);
      |input| > 0 && d < 0 ==> st == Crashed(NegativeAddress(d))
    ensures var d := Current(s).value.d; var st := Exec(s, input);
      |input| > 0 && d >= 0 ==>
        && st.Running? && st.rest == input[1..] && st.out == []
        && st.next.pc == s.pc + 2 && st.next.relativeBase == s.relativeBase
        && Read(st.next.mem, d) == input[0]
        && forall x: nat :: x != d ==> Read(st.next.mem, x) == Read(s.mem, x)
  {
    DecodeAgrees(s, s.pc);
    var d := Current(s).value.d;
    var m' := DecodeAt(s, s.pc).value.mem;
    ExtendsReads(s.mem, m');
    DecodeAgain(s, s.pc, Get(d), m');
    if |input| > 0 && d >= 0 {
      PokeThenPeek(m', d, input[0]);
    }
  }

  /** Put outputs its operand, changes no cell and advances `pc` by 2. */
  lemma {:induction false} OutputStep(s: State, input: seq<int>)
    requires Current(s).Ok? && Current(s).value.Put?
    ensures var st := Exec(s, input);
      && st.Running? && st.rest == input && st.out == [Current(s).value.a]
      && st.next.pc == s.pc + 2 && st.next.relativeBase == s.relativeBase && SameReads(st.next.mem, s.mem)
      && |s.mem| <= |st.next.mem|
  {
    DecodeAgrees(s, s.pc);
    ExtendsReads(s.mem, DecodeAt(s, s.pc).value.mem);
  }

  /**
   * Jpt jumps to its target iff its operand is non-zero and Jpf iff it is
   * zero; otherwise `pc` advances by 3. No cell changes.
   */
  lemma {:induction false} JumpStep(s: State, input: seq<int>)
    requires Current(s).Ok? && (Current(s).value.Jpt? || Current(s).value.Jpf?)
    ensures var ins := Current(s).value; var st := Exec(s, input);
      var jumps := if ins.Jpt? then ins.a != 0 else ins.a == 0;
      && (jumps && ins.target < 0 ==> st == Crashed(NegativeAddress(ins.target)))
      && (!jumps || ins.target >= 0 ==>
           && st.Running? && st.rest == input && st.out == []
           && st.next.pc == (if jumps then ins.target else s.pc + 3)
           && st.next.relativeBase == s.relativeBase && SameReads(st.next.mem, s.mem)
           && |s.mem| <= |st.next.mem|)
  {
    DecodeAgrees(s, s.pc);
    ExtendsReads(s.mem, DecodeAt(s, s.pc).value.mem);
  }

  /** Rbo adds its operand to the relative base and advances `pc` by 2. */
  lemma {:induction false} RelativeBaseStep(s: State, input: seq<int>)
    requires Current(s).Ok? && Current(s).value.Rbo?
    ensures var st := Exec(s, input);
      && st.Running? && st.rest == input && st.out == []
      && st.next.relativeBase == s.relativeBase + Current(s).value.a
      && st.next.pc == s.pc + 2 && SameReads(st.next.mem, s.mem) && |s.mem| <= |st.next.mem|
  {
    DecodeAgrees(s, s.pc);
    ExtendsReads(s.mem, DecodeAt(s, s.pc).value.mem);
  }

  /** Halt stops with `pc` still on the 99 and no cell changed. */
  lemma {:induction false} HaltStep(s: State, input: seq<int>)
    requires Current(s) == Ok(Halt)
    ensures var st := Exec(s, input);
      && st.Stop? && st.reason == ProgramHalt
      && st.at.pc == s.pc && st.at.relativeBase == s.relativeBase && Extends(s.mem, st.at.mem)
  {
    DecodeAgrees(s, s.pc);
  }

  // ---------------------------------------------------------------------
  // Runs: output order, fuel, suspension and resumption
  // ---------------------------------------------------------------------

  /** `compute` returns the values output during the call, in execution order, after any given prefix. */
  lemma {:induction false} DriveOutputAppends(exec: (State, seq<int>) -> Step, s: State, input: seq<int>, fuel: nat, out: seq<int>)
    ensures Drive(exec, s, input, fuel, out) == Drive(exec, s, input, fuel, []).(output := out + Drive(exec, s, input, fuel, []).output)
    decreases fuel
  {
    if fuel > 0 {
      var st := exec(s, input);
      if st.Running? {
        var rest := Drive(exec, st.next, st.rest, fuel - 1, []);
        DriveOutputAppends(exec, st.next, st.rest, fuel - 1, out + st.out);
        DriveOutputAppends(exec, st.next, st.rest, fuel - 1, st.out);
        assert [] + st.out == st.out;
        assert out + st.out + rest.output == out + (st.out + rest.output);
      }
    }
  }

  lemma RunOutputAppends(s: State, input: seq<int>, fuel: nat, out: seq<int>)
    ensures Run(s, input, fuel, out) == Run(s, input, fuel, []).(output := out + Run(s, input, fuel, []).output)
  {
    DriveOutputAppends(Exec, s, input, fuel, out);
  }

  /** Fuel only bounds the run: a run that stopped ends the same way with more fuel, keeping the surplus. */
  lemma {:induction false} DriveMoreFuel(exec: (State, seq<int>) -> Step, s: State, input: seq<int>, fuel: nat, extra: nat, out: seq<int>)
    requires !Drive(exec, s, input, fuel, out).status.OutOfFuel?
    ensures Drive(exec, s, input, fuel + extra, out) == Drive(exec, s, input, fuel, out).(fuel := Drive(exec, s, input, fuel, out).fuel + extra)
    decreases fuel
  {
    var st := exec(s, input);
    if st.Running? {
      DriveMoreFuel(exec, st.next, st.rest, fuel - 1, extra, out + st.out);
    }
  }

  /** A step never looks past the first input value: extra input is simply left over. */
  lemma {:induction false} ExecMoreInput(s: State, a: seq<int>, b: seq<int>)
    ensures Exec(s, a).Running? ==> Exec(s, a + b) == Exec(s, a).(rest := Exec(s, a).rest + b)
    ensures Exec(s, a).Stop? && Exec(s, a).reason == NeedInput ==> a == []
    ensures !Exec(s, a).Running? && |a| > 0 ==> Exec(s, a + b) == Exec(s, a)
  {
    match DecodeAt(s, s.pc)
    case Err(_) =>
    case Ok(Decoded(ins, mem)) =>
      PerformMoreInput(s.(mem := mem), ins, a, b);
  }

  lemma {:induction false} PerformMoreInput(t: State, ins: Instruction, a: seq<int>, b: seq<int>)
    ensures Perform(t, ins, a).Running? ==> Perform(t, ins, a + b) == Perform(t, ins, a).(rest := Perform(t, ins, a).rest + b)
    ensures Perform(t, ins, a).Stop? && Perform(t, ins, a).reason == NeedInput ==> a == []
    ensures !Perform(t, ins, a).Running? && |a| > 0 ==> Perform(t, ins, a + b) == Perform(t, ins, a)
  {
    if ins.Get? && |a| > 0 {
      assert (a + b)[0] == a[0];
      assert (a + b)[1..] == a[1..] + b;
    }
  }

  /** What a step function must satisfy for runs to be resumable: it reads input only when it needs it. */
  ghost predicate InputOblivious(exec: (State, seq<int>) -> Step, s: State, a: seq<int>, b: seq<int>)
  {
    && (exec(s, a).Running? ==> exec(s, a + b) == exec(s, a).(rest := exec(s, a).rest + b))
    && (exec(s, a).Stop? && exec(s, a).reason == NeedInput ==> a == [])
    && (!exec(s, a).Running? && |a| > 0 ==> exec(s, a + b) == exec(s, a))
  }

  ghost predicate RetriesAfterSuspend(exec: (State, seq<int>) -> Step, s: State, input: seq<int>)
  {
    exec(s, []).Stop? && exec(s, []).reason == NeedInput ==> exec(exec(s, []).at, input) == exec(s, input)
  }

  ghost predicate Resumable(exec: (State, seq<int>) -> Step)
  {
    && (forall s, a, b :: InputOblivious(exec, s, a, b))
    && (forall s, input :: RetriesAfterSuspend(exec, s, input))
  }

  lemma ExecIsResumable()
    ensures Resumable(Exec)
  {
    forall s, a, b
      ensures InputOblivious(Exec, s, a, b)
    {
      ExecMoreInput(s, a, b);
    }
    forall s, input
      ensures RetriesAfterSuspend(Exec, s, input)
    {
      if Exec(s, []).Stop? && Exec(s, []).reason == NeedInput {
        ExecResumes(s, Exec(s, []).at, input);
      }
    }
  }

  lemma {:induction false} DriveResume(exec: (State, seq<int>) -> Step, s: State, a: seq<int>, b: seq<int>, fuel: nat, out: seq<int>)
    requires Resumable(exec)
    requires Drive(exec, s, a, fuel, out).status == Stopped(NeedInput)
    ensures Drive(exec, s, a, fuel, out).input == []
    ensures var o := Drive(exec, s, a, fuel, out);
      var whole := Drive(exec, s, a + b, fuel, out);
      var resumed := Drive(exec, o.state, b, o.fuel, o.output);
      && whole.status == resumed.status && whole.input == resumed.input
      && whole.output == resumed.output && whole.fuel == resumed.fuel
      && (!whole.status.Failed? ==> whole.state == resumed.state)
    decreases fuel
  {
    var st := exec(s, a);
    assert InputOblivious(exec, s, a, b);
    if st.Running? {
      DriveResume(exec, st.next, st.rest, b, fuel - 1, out + st.out);
    } else {
      assert st.Stop? && st.reason == NeedInput && a == [];
      assert a + b == b;
      assert RetriesAfterSuspend(exec, s, b);
    }
  }

  /**
   * A run that suspends for input has consumed all of it; feeding more input
   * to the suspended state continues exactly as one run over all the input
   * would have (the state after an immediate fault is the one place where
   * the two can differ: it is the state the fault was met in).
   */
  lemma RunResume(s: State, a: seq<int>, b: seq<int>, fuel: nat, out: seq<int>)
    requires Run(s, a, fuel, out).status == Stopped(NeedInput)
    ensures Run(s, a, fuel, out).input == []
    ensures var o := Run(s, a, fuel, out);
      var whole := Run(s, a + b, fuel, out);
      var resumed := Run(o.state, b, o.fuel, o.output);
      && whole.status == resumed.status && whole.input == resumed.input
      && whole.output == resumed.output && whole.fuel == resumed.fuel
      && (!whole.status.Failed? ==> whole.state == resumed.state)
  {
    ExecIsResumable();
    DriveResume(Exec, s, a, b, fuel, out);
  }

  /** After a suspension the stopped state steps exactly as the state before the Get did. */
  lemma {:induction false} ExecResumes(s: State, t: State, input: seq<int>)
    requires Exec(s, []) == Stop(NeedInput, t)
    ensures Exec(t, input) == Exec(s, input)
  {
    var r := DecodeAt(s, s.pc);
    assert r.Ok?;
    var t' := s.(mem := r.value.mem);
    PerformSuspends(t', r.value.ins, []);
    DecodeAgain(s, s.pc, r.value.ins, r.value.mem);
    assert Exec(t, input) == Perform(t, r.value.ins, input);
  }

  lemma PerformSuspends(t: State, ins: Instruction, input: seq<int>)
    ensures Perform(t, ins, input).Stop? && Perform(t, ins, input).reason == NeedInput
      <==> ins.Get? && input == []
    ensures Perform(t, ins, input).Stop? ==> Perform(t, ins, input).at == t
  {
  }

  /** `Exec` performs what `decode` returned, on the memory `decode` left. */
  lemma ExecPerforms(s: State, input: seq<int>, ins: Instruction, mem: seq<int>)
    requires DecodeAt(s, s.pc) == Ok(Decoded(ins, mem))
    ensures Exec(s, input) == Perform(s.(mem := mem), ins, input)
  {
  }

  lemma RunRunning(s: State, input: seq<int>, fuel: nat, out: seq<int>, next: State, rest: seq<int>, o: seq<int>)
    requires fuel > 0 && Exec(s, input) == Running(next, rest, o)
    ensures Run(s, input, fuel, out) == Run(next, rest, fuel - 1, out + o)
  {
    assert Run(s, input, fuel, out) == Continue(Exec, s, input, fuel, out);
  }

  lemma RunStops(s: State, input: seq<int>, fuel: nat, out: seq<int>, reason: StopReason, at: State)
    requires fuel > 0 && Exec(s, input) == Stop(reason, at)
    ensures Run(s, input, fuel, out) == Outcome(Stopped(reason), at, input, out, fuel)
  {
    assert Run(s, input, fuel, out) == Continue(Exec, s, input, fuel, out);
  }

  lemma RunCrashes(s: State, input: seq<int>, fuel: nat, out: seq<int>, fault: Fault)
    requires fuel > 0 && Exec(s, input) == Crashed(fault)
    ensures Run(s, input, fuel, out) == Outcome(Failed(fault), s, input, out, fuel)
  {
    assert Run(s, input, fuel, out) == Continue(Exec, s, input, fuel, out);
  }
}
