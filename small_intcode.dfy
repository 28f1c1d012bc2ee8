/**
 * The instruction decoder and the per-instruction effect shared by the
 * day 5 and day 7 Intcode machines (`src/bin/day5.rs`, `src/bin/day7.rs`):
 * `i32` cells in a vector that never grows, position (0) and immediate (1)
 * addressing, and a write target that must be in position mode.
 *
 * Both machines read the parameter cells lazily, as each instruction needs
 * them, so a `99` in the last cell is fine. An address is an `i32` cast to
 * `u32` (`as Addr`), which wraps a negative value far past the end of any
 * memory; indexing the vector there panics.
 */
module SmallIntcode {
  import opened IntcodeDecode

  /** `u32::MAX + 1`: the range of `Addr`. */
  const ADDR_RANGE: int := 0x1_0000_0000

  /** `v as Addr` for an `i32` value: two's-complement reinterpretation, i.e. `v` modulo 2^32. */
  function AsAddr(v: int): (a: nat)
    ensures a < ADDR_RANGE
    ensures 0 <= v < ADDR_RANGE ==> a == v
    ensures -ADDR_RANGE <= v < 0 ==> a == v + ADDR_RANGE
  {
    v % ADDR_RANGE
  }

  /** The conditions under which the two machines panic. */
  datatype Fault =
    | OutOfBounds(addr: nat)
    | WriteModeNotPosition(md: int)
    | UnknownMode(mode: int)
    | UnknownOpcode(opcode: int)
    | InputExhausted

  datatype Result<T> = Ok(value: T) | Err(fault: Fault)

  /** A decoded instruction; write and jump targets are already addresses. */
  datatype Instruction =
    | Add(d: nat, a: int, b: int)
    | Mul(d: nat, a: int, b: int)
    | Get(d: nat)
    | Put(a: int)
    | Jpt(a: int, target: nat)
    | Jpf(a: int, target: nat)
    | Lt(d: nat, a: int, b: int)
    | Eq(d: nat, a: int, b: int)
    | Halt

  /** `peek(i)`: the cell, or the panic of an index past the vector. */
  function Peek(mem: seq<int>, i: nat): (r: Result<int>)
    ensures r.Ok? <==> i < |mem|
    ensures r.Ok? ==> r.value == mem[i]
  {
    if i < |mem| then Ok(mem[i]) else Err(OutOfBounds(i))
  }

  /** `fetch(mode, val)`: mode 0 reads the cell `val` names, mode 1 is `val` itself, others panic. */
  function Fetch(mem: seq<int>, mode: int, val: int): (r: Result<int>)
    ensures mode == 1 ==> r == Ok(val)
    ensures mode == 0 ==> r == Peek(mem, AsAddr(val))
    ensures mode != 0 && mode != 1 ==> r == Err(UnknownMode(mode))
  {
    match mode
    case 0 => Peek(mem, AsAddr(val))
    case 1 => Ok(val)
    case _ => Err(UnknownMode(mode))
  }

  /** Reads the parameter cell `pc + k` and fetches it in `mode`. */
  function Param(mem: seq<int>, pc: nat, k: nat, mode: int): Result<int>
  {
    match Peek(mem, pc + k)
    case Err(f) => Err(f)
    case Ok(raw) => Fetch(mem, mode, raw)
  }

  /** The write target in cell `pc + 3`, cast to an address. */
  function Target(mem: seq<int>, pc: nat): Result<nat>
  {
    match Peek(mem, pc + 3)
    case Err(f) => Err(f)
    case Ok(raw) => Ok(AsAddr(raw))
  }

  /** The instruction of one of the three-parameter opcodes 1, 2, 7 and 8. */
  function Ternary(opcode: int, d: nat, a: int, b: int): Instruction
    requires opcode == 1 || opcode == 2 || opcode == 7 || opcode == 8
  {
    match opcode
    case 1 => Add(d, a, b)
    case 2 => Mul(d, a, b)
    case 7 => Lt(d, a, b)
    case 8 => Eq(d, a, b)
  }

  /**
   * `decode(pc)`: the word at `pc` is split into opcode and modes, the
   * write-target mode is asserted to be 0 for every opcode, then the
   * parameters are read in the order the constructor arguments are
   * evaluated: target, first operand, second operand.
   */
  function Decode(mem: seq<int>, pc: nat): Result<Instruction>
  {
    match Peek(mem, pc)
    case Err(f) => Err(f)
    case Ok(word) =>
      var w := Split(word);
      if w.md != 0 then Err(WriteModeNotPosition(w.md))
      else
        match w.opcode
        case 1 => TernaryAt(mem, pc, w)
        case 2 => TernaryAt(mem, pc, w)
        case 7 => TernaryAt(mem, pc, w)
        case 8 => TernaryAt(mem, pc, w)
        case 3 =>
          (match Peek(mem, pc + 1)
           case Err(f) => Err(f)
           case Ok(raw) => Ok(Get(AsAddr(raw))))
        case 4 =>
          (match Param(mem, pc, 1, w.m1)
           case Err(f) => Err(f)
           case Ok(a) => Ok(Put(a)))
        case 5 => JumpAt(mem, pc, w)
        case 6 => JumpAt(mem, pc, w)
        case 99 => Ok(Halt)
        case _ => Err(UnknownOpcode(w.opcode))
  }

  function TernaryAt(mem: seq<int>, pc: nat, w: Word): Result<Instruction>
    requires w.opcode == 1 || w.opcode == 2 || w.opcode == 7 || w.opcode == 8
  {
    match Target(mem, pc)
    case Err(f) => Err(f)
    case Ok(d) =>
      match Param(mem, pc, 1, w.m1)
      case Err(f) => Err(f)
      case Ok(a) =>
        match Param(mem, pc, 2, w.m2)
        case Err(f) => Err(f)
        case Ok(b) => Ok(Ternary(w.opcode, d, a, b))
  }

  function JumpAt(mem: seq<int>, pc: nat, w: Word): Result<Instruction>
    requires w.opcode == 5 || w.opcode == 6
  {
    match Param(mem, pc, 1, w.m1)
    case Err(f) => Err(f)
    case Ok(a) =>
      match Param(mem, pc, 2, w.m2)
      case Err(f) => Err(f)
      case Ok(t) => Ok(if w.opcode == 5 then Jpt(a, AsAddr(t)) else Jpf(a, AsAddr(t)))
  }

  /**
   * What `compute`'s `match` does with one decoded instruction:
   * the new memory and `pc`, whether the first input value was consumed,
   * and the values output; or a halt, a Get with no input, or a panic.
   */
  datatype Effect =
    | Proceed(mem: seq<int>, pc: nat, consumed: bool, out: seq<int>)
    | AtHalt
    | NoInput
    | Panic(fault: Fault)

  /** `poke(d, val)` and `pc += len`. */
  function Store(mem: seq<int>, pc: nat, d: nat, val: int, len: nat, consumed: bool): Effect
  {
    if d < |mem| then Proceed(mem[d := val], pc + len, consumed, []) else Panic(OutOfBounds(d))
  }

  function Perform(mem: seq<int>, pc: nat, ins: Instruction, input: seq<int>): Effect
  {
    match ins
    case Add(d, a, b) => Store(mem, pc, d, a + b, 4, false)
    case Mul(d, a, b) => Store(mem, pc, d, a * b, 4, false)
    case Get(d) => if |input| == 0 then NoInput else Store(mem, pc, d, input[0], 2, true)
    case Put(a) => Proceed(mem, pc + 2, false, [a])
    case Jpt(a, t) => Proceed(mem, if a != 0 then t else pc + 3, false, [])
    case Jpf(a, t) => Proceed(mem, if a == 0 then t else pc + 3, false, [])
    case Lt(d, a, b) => Store(mem, pc, d, if a < b then 1 else 0, 4, false)
    case Eq(d, a, b) => Store(mem, pc, d, if a == b then 1 else 0, 4, false)
    case Halt => AtHalt
  }

  /** A word whose write-target digit is not 0 is fatal whatever its opcode. */
  lemma {:induction false} TargetModeMustBePosition(mem: seq<int>, pc: nat)
    requires pc < |mem|
    ensures var w := Split(mem[pc]); w.md != 0 <==> Decode(mem, pc) == Err(WriteModeNotPosition(w.md))
  {
  }

  /** Every opcode outside 1..8 and 99 is fatal. */
  lemma {:induction false} UnknownOpcodeIsFatal(mem: seq<int>, pc: nat)
    requires pc < |mem| && Split(mem[pc]).md == 0
    ensures var op := Split(mem[pc]).opcode;
      !(1 <= op <= 8 || op == 99) <==> Decode(mem, pc) == Err(UnknownOpcode(op))
  {
    var op := Split(mem[pc]).opcode;
    if 1 <= op <= 8 || op == 99 {
      var r := Decode(mem, pc);
      if r.Err? {
        assert !r.fault.UnknownOpcode?;
      }
    }
  }

  /**
   * The effect of each instruction: arithmetic and comparisons store into
   * their target (comparisons exactly 0 or 1) and advance by 4; Get stores
   * the first input value and advances by 2, or starves on empty input;
   * Put emits its operand and advances by 2; a conditional jump goes to its
   * target iff its condition holds and otherwise advances by 3; no other
   * cell changes.
   */
  lemma {:induction false} PerformEffect(mem: seq<int>, pc: nat, ins: Instruction, input: seq<int>)
    ensures var e := Perform(mem, pc, ins, input);
      && (ins.Add? || ins.Mul? || ins.Lt? || ins.Eq? ==>
            var val := match ins
              case Add(_, a, b) => a + b
              case Mul(_, a, b) => a * b
              case Lt(_, a, b) => if a < b then 1 else 0
              case Eq(_, a, b) => if a == b then 1 else 0;
            if ins.d < |mem| then e == Proceed(mem[ins.d := val], pc + 4, false, []) else e == Panic(OutOfBounds(ins.d)))
      && (ins.Lt? || ins.Eq? ==> e.Proceed? ==> e.mem[ins.d] in {0, 1})
      && (ins.Get? && |input| == 0 ==> e == NoInput)
      && (ins.Get? && |input| > 0 ==>
            if ins.d < |mem| then e == Proceed(mem[ins.d := input[0]], pc + 2, true, []) else e == Panic(OutOfBounds(ins.d)))
      && (ins.Put? ==> e == Proceed(mem, pc + 2, false, [ins.a]))
      && (ins.Jpt? ==> e == Proceed(mem, if ins.a != 0 then ins.target else pc + 3, false, []))
      && (ins.Jpf? ==> e == Proceed(mem, if ins.a == 0 then ins.target else pc + 3, false, []))
      && (ins.Halt? <==> e == AtHalt)
      && (e == NoInput <==> ins.Get? && |input| == 0)
      && (e.Proceed? ==> |e.mem| == |mem| && |e.out| <= 1 && (e.consumed ==> ins.Get? && |input| > 0))
  {
  }

  /**
   * How a run of `compute` ends: at a `99`, at a Get with no input left
   * (day 7's `NeedInput`; day 5 panics there), at a panic, or when the
   * model's step budget is spent.
   */
  datatype Status = Halted | Starved | Failed(fault: Fault) | OutOfFuel

  /** One trip round `compute`'s loop: the next state, or the reason the loop ends here. */
  datatype Step = Running(mem: seq<int>, pc: nat, input: seq<int>, out: seq<int>) | Stop(status: Status)

  /** The final state of a run, with the unread input, everything output and the unspent fuel. */
  datatype Outcome = Outcome(status: Status, mem: seq<int>, pc: nat, input: seq<int>, output: seq<int>, fuel: nat)

  function Exec(mem: seq<int>, pc: nat, input: seq<int>): Step
  {
    match Decode(mem, pc)
    case Err(f) => Stop(Failed(f))
    case Ok(ins) => Apply(mem, pc, ins, input)
  }

  /** The trip of `compute`'s loop once `ins` is decoded. */
  function Apply(mem: seq<int>, pc: nat, ins: Instruction, input: seq<int>): Step
  {
    match Perform(mem, pc, ins, input)
    case Proceed(m, p, consumed, out) => Running(m, p, if consumed then input[1..] else input, out)
    case AtHalt => Stop(Halted)
    case NoInput => Stop(Starved)
    case Panic(f) => Stop(Failed(f))
  }

  /**
   * `compute`'s loop, for at most `fuel` trips; `out` is what was output
   * before. The loop stops in the state where the ending instruction was
   * decoded: a halted or starved machine still points at its `99` or Get.
   */
  function Run(mem: seq<int>, pc: nat, input: seq<int>, fuel: nat, out: seq<int>): (o: Outcome)
    decreases fuel, 1
  {
    if fuel == 0 then Outcome(OutOfFuel, mem, pc, input, out, 0) else Continue(mem, pc, input, fuel, out)
  }

  /** One trip of `Run` with fuel left. */
  function Continue(mem: seq<int>, pc: nat, input: seq<int>, fuel: nat, out: seq<int>): (o: Outcome)
    requires fuel > 0
    decreases fuel, 0
  {
    match Exec(mem, pc, input)
    case Running(m, p, rest, o) => Run(m, p, rest, fuel - 1, out + o)
    case Stop(s) => Outcome(s, mem, pc, input, out, fuel)
  }

  lemma {:induction false} ExecIo(mem: seq<int>, pc: nat, input: seq<int>)
    ensures var st := Exec(mem, pc, input);
      && (st.Running? ==> |st.mem| == |mem| && |st.out| <= 1 && (st.input == input || (|input| > 0 && st.input == input[1..])))
      && (st.Stop? && st.status == Starved ==> input == [])
  {
    match Decode(mem, pc)
    case Err(f) =>
    case Ok(ins) => PerformEffect(mem, pc, ins, input);
  }

  /**
   * Input is read from the front and never pushed back, output is only ever
   * appended to, the memory never changes size, and a machine that starves
   * has read all of its input.
   */
  lemma {:induction false} RunIo(mem: seq<int>, pc: nat, input: seq<int>, fuel: nat, out: seq<int>)
    ensures var o := Run(mem, pc, input, fuel, out);
      && |o.mem| == |mem|
      && |o.input| <= |input| && o.input == input[|input| - |o.input|..]
      && |out| <= |o.output| && o.output[..|out|] == out
      && o.fuel <= fuel
      && (o.status == OutOfFuel <==> o.fuel == 0)
      && (o.status == Starved ==> o.input == [])
  {
    OutputShift(mem, pc, input, fuel, out);
    var o := Run(mem, pc, input, fuel, []);
    assert (out + o.output)[..|out|] == out;
    RunInput(mem, pc, input, fuel, out);
  }

  lemma {:induction false} RunInput(mem: seq<int>, pc: nat, input: seq<int>, fuel: nat, out: seq<int>)
    ensures var o := Run(mem, pc, input, fuel, out);
      && |o.mem| == |mem|
      && |o.input| <= |input| && o.input == input[|input| - |o.input|..]
      && o.fuel <= fuel
      && (o.status == OutOfFuel <==> o.fuel == 0)
      && (o.status == Starved ==> o.input == [])
    decreases fuel
  {
    if fuel > 0 {
      assert Run(mem, pc, input, fuel, out) == Continue(mem, pc, input, fuel, out);
      ExecIo(mem, pc, input);
      match Exec(mem, pc, input)
      case Running(m, p, rest, o) =>
        RunInput(m, p, rest, fuel - 1, out + o);
        var r := Run(m, p, rest, fuel - 1, out + o);
        if rest != input {
          assert input[|input| - |r.input|..] == input[1..][|rest| - |r.input|..];
        }
      case Stop(s) =>
    }
  }

  /** A run that ends before its fuel does ends the same way given more fuel. */
  lemma {:induction false} RunMoreFuel(mem: seq<int>, pc: nat, input: seq<int>, fuel: nat, extra: nat, out: seq<int>)
    requires Run(mem, pc, input, fuel, out).status != OutOfFuel
    ensures var o := Run(mem, pc, input, fuel, out);
      Run(mem, pc, input, fuel + extra, out) == o.(fuel := o.fuel + extra)
    decreases fuel
  {
    assert Run(mem, pc, input, fuel, out) == Continue(mem, pc, input, fuel, out);
    assert Run(mem, pc, input, fuel + extra, out) == Continue(mem, pc, input, fuel + extra, out);
    match Exec(mem, pc, input)
    case Running(m, p, rest, o) =>
      RunMoreFuel(m, p, rest, fuel - 1, extra, out + o);
    case Stop(s) =>
  }

  /** A step that goes on with input `a` goes on identically with more input after `a`. */
  lemma {:induction false} ExecExtends(mem: seq<int>, pc: nat, a: seq<int>, b: seq<int>)
    requires Exec(mem, pc, a).Running?
    ensures var st := Exec(mem, pc, a);
      Exec(mem, pc, a + b) == st.(input := st.input + b)
  {
    match Decode(mem, pc)
    case Err(f) =>
    case Ok(ins) =>
      PerformEffect(mem, pc, ins, a);
      PerformEffect(mem, pc, ins, a + b);
      if ins.Get? {
        assert (a + b)[1..] == a[1..] + b;
      }
  }

  /**
   * Suspending and resuming: a run that starves on input `a` and is then
   * continued from where it stopped with input `b` does exactly what one
   * run given `a + b` from the start does.
   */
  lemma {:induction false} Resume(mem: seq<int>, pc: nat, a: seq<int>, b: seq<int>, fuel: nat, out: seq<int>)
    requires Run(mem, pc, a, fuel, out).status == Starved
    ensures var o := Run(mem, pc, a, fuel, out);
      Run(mem, pc, a + b, fuel, out) == Run(o.mem, o.pc, b, o.fuel, o.output)
    decreases fuel
  {
    assert Run(mem, pc, a, fuel, out) == Continue(mem, pc, a, fuel, out);
    assert Run(mem, pc, a + b, fuel, out) == Continue(mem, pc, a + b, fuel, out);
    match Exec(mem, pc, a)
    case Running(m, p, rest, o) =>
      ExecExtends(mem, pc, a, b);
      Resume(m, p, rest, b, fuel - 1, out + o);
    case Stop(s) =>
      ExecIo(mem, pc, a);
      assert a + b == b;
  }

  /** What a run outputs does not depend on what was output before it. */
  lemma {:induction false} OutputShift(mem: seq<int>, pc: nat, input: seq<int>, fuel: nat, out: seq<int>)
    ensures var o := Run(mem, pc, input, fuel, []);
      Run(mem, pc, input, fuel, out) == o.(output := out + o.output)
  {
    var none: seq<int> := [];
    assert out + none == out;
    OutputPrefix(mem, pc, input, fuel, out, none);
  }

  lemma {:induction false} OutputPrefix(mem: seq<int>, pc: nat, input: seq<int>, fuel: nat, a: seq<int>, b: seq<int>)
    ensures var o := Run(mem, pc, input, fuel, b);
      Run(mem, pc, input, fuel, a + b) == o.(output := a + o.output)
    decreases fuel
  {
    if fuel > 0 {
      assert Run(mem, pc, input, fuel, a + b) == Continue(mem, pc, input, fuel, a + b);
      assert Run(mem, pc, input, fuel, b) == Continue(mem, pc, input, fuel, b);
      match Exec(mem, pc, input)
      case Running(m, p, rest, o) =>
        OutputPrefix(m, p, rest, fuel - 1, a, b + o);
        assert (a + b) + o == a + (b + o);
      case Stop(st) =>
    }
  }

  /**
   * Where a run stops: a halted machine points at a `99`, a starved one at
   * the Get it could not serve (so resuming it re-executes that Get).
   */
  lemma {:induction false} StopsAt(mem: seq<int>, pc: nat, input: seq<int>, fuel: nat, out: seq<int>)
    ensures var o := Run(mem, pc, input, fuel, out);
      && (o.status == Halted ==> Decode(o.mem, o.pc) == Ok(Halt))
      && (o.status == Starved ==> Decode(o.mem, o.pc).Ok? && Decode(o.mem, o.pc).value.Get? && o.input == [])
    decreases fuel
  {
    if fuel > 0 {
      assert Run(mem, pc, input, fuel, out) == Continue(mem, pc, input, fuel, out);
      match Exec(mem, pc, input)
      case Running(m, p, rest, o) =>
        StopsAt(m, p, rest, fuel - 1, out + o);
      case Stop(st) =>
        match Decode(mem, pc)
        case Err(f) =>
        case Ok(ins) => PerformEffect(mem, pc, ins, input);
    }
  }

  /** One trip of a run that goes on. */
  lemma {:induction false} RunRunning(mem: seq<int>, pc: nat, input: seq<int>, fuel: nat, out: seq<int>)
    requires fuel > 0 && Exec(mem, pc, input).Running?
    ensures var st := Exec(mem, pc, input);
      Run(mem, pc, input, fuel, out) == Run(st.mem, st.pc, st.input, fuel - 1, out + st.out)
  {
    assert Run(mem, pc, input, fuel, out) == Continue(mem, pc, input, fuel, out);
  }

  /** The trip of a run that ends it. */
  lemma {:induction false} RunStops(mem: seq<int>, pc: nat, input: seq<int>, fuel: nat, out: seq<int>)
    requires fuel > 0 && Exec(mem, pc, input).Stop?
    ensures Run(mem, pc, input, fuel, out) == Outcome(Exec(mem, pc, input).status, mem, pc, input, out, fuel)
  {
    assert Run(mem, pc, input, fuel, out) == Continue(mem, pc, input, fuel, out);
  }

  /** Parameter `k` of the instruction at `pc` can be fetched in `mode` without a panic. */
  predicate Ready(mem: seq<int>, pc: nat, k: nat, mode: int)
  {
    pc + k < |mem| && (mode == 1 || (mode == 0 && AsAddr(mem[pc + k]) < |mem|))
  }

  /** The value of parameter `k`: the raw cell in immediate mode, the cell it names in position mode. */
  function Operand(mem: seq<int>, pc: nat, k: nat, mode: int): int
    requires Ready(mem, pc, k, mode)
  {
    if mode == 1 then mem[pc + k] else mem[AsAddr(mem[pc + k])]
  }

  /** What the opcodes 1, 2, 7 and 8 store: sum, product, and `<` and `==` as 1 or 0. */
  function Combine(opcode: int, a: int, b: int): int
  {
    match opcode
    case 1 => a + b
    case 2 => a * b
    case 7 => if a < b then 1 else 0
    case _ => if a == b then 1 else 0
  }

  /** Add, multiply, less-than and equals: store into the cell `pc + 3` names, advance by 4. */
  lemma {:induction false} ExecTernary(mem: seq<int>, pc: nat, input: seq<int>)
    requires pc + 3 < |mem| && AsAddr(mem[pc + 3]) < |mem|
    requires var w := Split(mem[pc]);
      w.md == 0 && w.opcode in {1, 2, 7, 8} && Ready(mem, pc, 1, w.m1) && Ready(mem, pc, 2, w.m2)
    ensures var w := Split(mem[pc]);
      var val := Combine(w.opcode, Operand(mem, pc, 1, w.m1), Operand(mem, pc, 2, w.m2));
      Exec(mem, pc, input) == Running(mem[AsAddr(mem[pc + 3]) := val], pc + 4, input, [])
  {
  }

  /** Get: store the first input value into the cell `pc + 1` names, advance by 2. */
  lemma {:induction false} ExecGet(mem: seq<int>, pc: nat, input: seq<int>)
    requires pc + 1 < |mem| && AsAddr(mem[pc + 1]) < |mem| && |input| > 0
    requires var w := Split(mem[pc]); w.md == 0 && w.opcode == 3
    ensures Exec(mem, pc, input) == Running(mem[AsAddr(mem[pc + 1]) := input[0]], pc + 2, input[1..], [])
  {
  }

  /** Put: output the first parameter, advance by 2. */
  lemma {:induction false} ExecPut(mem: seq<int>, pc: nat, input: seq<int>)
    requires pc < |mem| && var w := Split(mem[pc]); w.md == 0 && w.opcode == 4 && Ready(mem, pc, 1, w.m1)
    ensures Exec(mem, pc, input) == Running(mem, pc + 2, input, [Operand(mem, pc, 1, Split(mem[pc]).m1)])
  {
  }

  /** Jump-if-true (5) and jump-if-false (6): to the second parameter if the test holds, else advance by 3. */
  lemma {:induction false} ExecJump(mem: seq<int>, pc: nat, input: seq<int>)
    requires pc < |mem|
    requires var w := Split(mem[pc]);
      w.md == 0 && w.opcode in {5, 6} && Ready(mem, pc, 1, w.m1) && Ready(mem, pc, 2, w.m2)
    ensures var w := Split(mem[pc]);
      var a := Operand(mem, pc, 1, w.m1);
      var taken := if w.opcode == 5 then a != 0 else a == 0;
      Exec(mem, pc, input) == Running(mem, if taken then AsAddr(Operand(mem, pc, 2, w.m2)) else pc + 3, input, [])
  {
  }

  /** A Get with the input used up stops the run on itself. */
  lemma {:induction false} ExecStarve(mem: seq<int>, pc: nat)
    requires pc + 1 < |mem| && var w := Split(mem[pc]); w.md == 0 && w.opcode == 3
    ensures Exec(mem, pc, []) == Stop(Starved)
  {
  }

  /** `99` ends the run. */
  lemma {:induction false} ExecHalt(mem: seq<int>, pc: nat, input: seq<int>)
    requires pc < |mem| && Split(mem[pc]).md == 0 && Split(mem[pc]).opcode == 99
    ensures Exec(mem, pc, input) == Stop(Halted)
  {
  }

  /*
   * The lemmas below restate the Exec lemmas as one trip of a run, with the
   * next `pc` and the fuel left passed in: a chain of them then links
   * literally equal `Run` terms.
   */

  /** `ExecTernary` as one trip of a run that stores `val` into cell `d`. */
  lemma {:induction false} RunTernary(mem: seq<int>, pc: nat, input: seq<int>, fuel: nat, out: seq<int>, d: nat, val: int, next: nat, left: nat)
    requires fuel == left + 1 && next == pc + 4 && pc + 3 < |mem| && AsAddr(mem[pc + 3]) == d && d < |mem|
    requires var w := Split(mem[pc]);
      && w.md == 0 && w.opcode in {1, 2, 7, 8} && Ready(mem, pc, 1, w.m1) && Ready(mem, pc, 2, w.m2)
      && Combine(w.opcode, Operand(mem, pc, 1, w.m1), Operand(mem, pc, 2, w.m2)) == val
    ensures Run(mem, pc, input, fuel, out) == Run(mem[d := val], next, input, left, out)
  {
    ExecTernary(mem, pc, input);
    RunRunning(mem, pc, input, fuel, out);
    assert out + [] == out;
  }

  /** `ExecGet` as one trip of a run that reads `v` into cell `d`. */
  lemma {:induction false} RunGet(mem: seq<int>, pc: nat, input: seq<int>, fuel: nat, out: seq<int>, d: nat, v: int, rest: seq<int>, next: nat, left: nat)
    requires fuel == left + 1 && next == pc + 2 && pc + 1 < |mem| && AsAddr(mem[pc + 1]) == d && d < |mem| && input == [v] + rest
    requires var w := Split(mem[pc]); w.md == 0 && w.opcode == 3
    ensures Run(mem, pc, input, fuel, out) == Run(mem[d := v], next, rest, left, out)
  {
    ExecGet(mem, pc, input);
    RunRunning(mem, pc, input, fuel, out);
    assert out + [] == out;
    assert input[1..] == rest;
  }

  /** `ExecPut` as one trip of a run that outputs `val`. */
  lemma {:induction false} RunPut(mem: seq<int>, pc: nat, input: seq<int>, fuel: nat, out: seq<int>, val: int, next: nat, left: nat)
    requires fuel == left + 1 && next == pc + 2 && pc < |mem|
    requires var w := Split(mem[pc]); w.md == 0 && w.opcode == 4 && Ready(mem, pc, 1, w.m1) && Operand(mem, pc, 1, w.m1) == val
    ensures Run(mem, pc, input, fuel, out) == Run(mem, next, input, left, out + [val])
  {
    ExecPut(mem, pc, input);
    RunRunning(mem, pc, input, fuel, out);
  }

  /** `ExecJump` as one trip of a run that continues at `next`. */
  lemma {:induction false} RunJump(mem: seq<int>, pc: nat, input: seq<int>, fuel: nat, out: seq<int>, next: nat, left: nat)
    requires fuel == left + 1 && pc < |mem|
    requires var w := Split(mem[pc]);
      && w.md == 0 && w.opcode in {5, 6} && Ready(mem, pc, 1, w.m1) && Ready(mem, pc, 2, w.m2)
      && var a := Operand(mem, pc, 1, w.m1);
      var taken := if w.opcode == 5 then a != 0 else a == 0;
      next == if taken then AsAddr(Operand(mem, pc, 2, w.m2)) else pc + 3
    ensures Run(mem, pc, input, fuel, out) == Run(mem, next, input, left, out)
  {
    ExecJump(mem, pc, input);
    RunRunning(mem, pc, input, fuel, out);
    assert out + [] == out;
  }

  /** `ExecHalt` as the last trip of a run. */
  lemma {:induction false} RunHalt(mem: seq<int>, pc: nat, input: seq<int>, fuel: nat, out: seq<int>)
    requires fuel > 0 && pc < |mem| && Split(mem[pc]).md == 0 && Split(mem[pc]).opcode == 99
    ensures Run(mem, pc, input, fuel, out) == Outcome(Halted, mem, pc, input, out, fuel)
  {
    ExecHalt(mem, pc, input);
    RunStops(mem, pc, input, fuel, out);
  }

  /** `ExecStarve` as the last trip of a run. */
  lemma {:induction false} RunStarve(mem: seq<int>, pc: nat, fuel: nat, out: seq<int>)
    requires fuel > 0 && pc + 1 < |mem| && Split(mem[pc]).md == 0 && Split(mem[pc]).opcode == 3
    ensures Run(mem, pc, [], fuel, out) == Outcome(Starved, mem, pc, [], out, fuel)
  {
    ExecStarve(mem, pc);
    RunStops(mem, pc, [], fuel, out);
  }
}
