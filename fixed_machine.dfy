/**
 * The two-opcode Intcode calculator of day 2 (`src/bin/day2.rs` and the
 * identical machine in `d02/src/main.rs`): a fixed memory of 1024 unsigned
 * cells and a program counter. Opcode 1 adds, 2 multiplies, 99 halts; both
 * arithmetic opcodes read two cells by position and write a third.
 *
 * `Exec` and `Run` are the specification; the class `IntcodeISS` keeps the
 * source's array and `pc`, and its methods are proved against them.
 */
module FixedMachine {

  const MEM_SIZE: nat := 1024

  /** The value the part-two search looks for at address 0. */
  const EXPECTED_RESULT: nat := 19690720

  /** The two ways `compute` panics: an opcode it does not know, an index past the array. */
  datatype Fault = UnknownOpcode(opcode: nat) | OutOfBounds(addr: nat)

  datatype Status = Halted | Failed(fault: Fault) | OutOfFuel

  /** What one pass of `compute`'s loop does. */
  datatype Step = Next(mem: seq<nat>, pc: nat) | Halt | Crash(fault: Fault)

  /** Where a run ended: the status, the memory and `pc` at that point, and the fuel left. */
  datatype Outcome = Outcome(status: Status, mem: seq<nat>, pc: nat, fuel: nat)

  /** The memory of `IntcodeISS::new`: 1024 zero cells. */
  function Fresh(): (m: seq<nat>)
    ensures |m| == MEM_SIZE && forall i :: 0 <= i < MEM_SIZE ==> m[i] == 0
  {
    seq(MEM_SIZE, _ => 0)
  }

  /** The memory after `load_program(prog)` on a fresh machine: the program, then zeros. */
  function Loaded(prog: seq<nat>): (m: seq<nat>)
    requires |prog| <= MEM_SIZE
    ensures |m| == MEM_SIZE && m[..|prog|] == prog
    ensures forall i :: |prog| <= i < MEM_SIZE ==> m[i] == 0
  {
    prog + Fresh()[|prog|..]
  }

  /** `peek(a)`: the cell, or the panic of an index past the array. */
  function Peek(mem: seq<nat>, a: nat): (r: Result<nat>)
    ensures r.Ok? <==> a < |mem|
    ensures r.Ok? ==> r.value == mem[a]
  {
    if a < |mem| then Ok(mem[a]) else Err(OutOfBounds(a))
  }

  datatype Result<T> = Ok(value: T) | Err(fault: Fault)

  /**
   * One pass of `compute`'s loop. The three parameter cells are read first,
   * then the opcode; an arithmetic opcode reads `mem[r1]`, then `mem[r2]`,
   * then writes `mem[rd]`, each of which panics past the array.
   */
  function Exec(mem: seq<nat>, pc: nat): Step
    requires |mem| == MEM_SIZE
  {
    match Peek(mem, pc + 1)
    case Err(f) => Crash(f)
    case Ok(r1) =>
      match Peek(mem, pc + 2)
      case Err(f) => Crash(f)
      case Ok(r2) =>
        match Peek(mem, pc + 3)
        case Err(f) => Crash(f)
        case Ok(rd) =>
          var op := mem[pc];
          if op == 1 || op == 2 then
            match Peek(mem, r1)
            case Err(f) => Crash(f)
            case Ok(a) =>
              match Peek(mem, r2)
              case Err(f) => Crash(f)
              case Ok(b) =>
                if rd < MEM_SIZE then Next(mem[rd := if op == 1 then a + b else a * b], pc + 4)
                else Crash(OutOfBounds(rd))
          else if op == 99 then Halt
          else Crash(UnknownOpcode(op))
  }

  /** `compute`: steps until the program halts or faults, running at most `fuel` instructions. */
  function Run(mem: seq<nat>, pc: nat, fuel: nat): (o: Outcome)
    requires |mem| == MEM_SIZE
    ensures |o.mem| == MEM_SIZE && o.fuel <= fuel
    decreases fuel, 1
  {
    if fuel == 0 then Outcome(OutOfFuel, mem, pc, 0) else Continue(mem, pc, fuel)
  }

  /** One turn of `Run` with fuel left: execute an instruction and go on, or end the run there. */
  function Continue(mem: seq<nat>, pc: nat, fuel: nat): (o: Outcome)
    requires |mem| == MEM_SIZE && fuel > 0
    ensures |o.mem| == MEM_SIZE && o.fuel <= fuel
    decreases fuel, 0
  {
    match Exec(mem, pc)
    case Next(mem', pc') => Run(mem', pc', fuel - 1)
    case Halt => Outcome(Halted, mem, pc, fuel)
    case Crash(f) => Outcome(Failed(f), mem, pc, fuel)
  }

  /**
   * An instruction that executes writes the sum or product of the cells its
   * first two parameters name into the cell its third names, changes no
   * other cell, and moves `pc` on by 4; 99 halts and every other opcode is fatal.
   */
  lemma {:induction false} ExecEffect(mem: seq<nat>, pc: nat)
    requires |mem| == MEM_SIZE
    ensures pc + 3 < MEM_SIZE ==>
      var op, r1, r2, rd := mem[pc], mem[pc + 1], mem[pc + 2], mem[pc + 3];
      && (op == 99 <==> Exec(mem, pc).Halt?)
      && (op != 1 && op != 2 && op != 99 <==> Exec(mem, pc) == Crash(UnknownOpcode(op)))
      && ((op == 1 || op == 2) && r1 < MEM_SIZE && r2 < MEM_SIZE && rd < MEM_SIZE ==>
            && Exec(mem, pc).Next?
            && Exec(mem, pc).pc == pc + 4
            && Exec(mem, pc).mem[rd] == (if op == 1 then mem[r1] + mem[r2] else mem[r1] * mem[r2])
            && forall i :: 0 <= i < MEM_SIZE && i != rd ==> Exec(mem, pc).mem[i] == mem[i])
    ensures pc + 3 >= MEM_SIZE ==> Exec(mem, pc) == Crash(OutOfBounds(if pc + 1 >= MEM_SIZE then pc + 1 else if pc + 2 >= MEM_SIZE then pc + 2 else pc + 3))
  {
  }

  /** A halted run stops on the 99, with `pc` left on it. */
  lemma {:induction false} HaltedOnNinetyNine(mem: seq<nat>, pc: nat, fuel: nat)
    requires |mem| == MEM_SIZE
    requires Run(mem, pc, fuel).status == Halted
    ensures var o := Run(mem, pc, fuel); o.pc + 3 < MEM_SIZE && o.mem[o.pc] == 99
    decreases fuel
  {
    match Exec(mem, pc)
    case Next(mem', pc') =>
      HaltedOnNinetyNine(mem', pc', fuel - 1);
    case Halt =>
      ExecEffect(mem, pc);
    case Crash(_) =>
  }

  /** More fuel never changes a run that did not run out of it. */
  lemma {:induction false} RunMoreFuel(mem: seq<nat>, pc: nat, fuel: nat, extra: nat)
    requires |mem| == MEM_SIZE
    requires Run(mem, pc, fuel).status != OutOfFuel
    ensures var o := Run(mem, pc, fuel); Run(mem, pc, fuel + extra) == o.(fuel := o.fuel + extra)
    decreases fuel
  {
    match Exec(mem, pc)
    case Next(mem', pc') =>
      RunMoreFuel(mem', pc', fuel - 1, extra);
    case Halt =>
    case Crash(_) =>
  }

  /**
   * `eval(noun, verb)`: a freshly loaded machine with `noun` at address 1
   * and `verb` at address 2, run to its end; the result is cell 0.
   */
  function Eval(prog: seq<nat>, noun: nat, verb: nat, fuel: nat): (r: (Status, nat))
    requires |prog| <= MEM_SIZE
  {
    var o := Run(Loaded(prog)[1 := noun][2 := verb], 0, fuel);
    (o.status, o.mem[0])
  }

  /**
   * The trials `100 * noun + verb` from `k` up to 9999 in the order of the
   * nested loops over noun and verb: the hits in order, and how the search
   * ended (a trial that does not halt ends it there).
   */
  function SearchFrom(prog: seq<nat>, fuel: nat, k: nat): (r: (Status, seq<nat>))
    requires |prog| <= MEM_SIZE
    requires k <= 10000
    ensures forall i :: 0 <= i < |r.1| ==> k <= r.1[i] < 10000
    ensures forall i, j :: 0 <= i < j < |r.1| ==> r.1[i] < r.1[j]
    decreases 10000 - k
  {
    if k == 10000 then (Halted, [])
    else
      var e := Eval(prog, k / 100, k % 100, fuel);
      if e.0 != Halted then (e.0, [])
      else
        var rest := SearchFrom(prog, fuel, k + 1);
        (rest.0, (if e.1 == EXPECTED_RESULT then [k] else []) + rest.1)
  }

  /**
   * When every trial halts, the search reports `100 * noun + verb` exactly
   * for the pairs in `0..=99` whose run leaves the expected result in cell 0.
   */
  lemma {:induction false} SearchFinds(prog: seq<nat>, fuel: nat, k: nat)
    requires |prog| <= MEM_SIZE && k <= 10000
    requires SearchFrom(prog, fuel, k).0 == Halted
    ensures forall noun, verb :: 0 <= noun < 100 && 0 <= verb < 100 && k <= 100 * noun + verb ==>
      (100 * noun + verb in SearchFrom(prog, fuel, k).1 <==> Eval(prog, noun, verb, fuel) == (Halted, EXPECTED_RESULT))
    decreases 10000 - k
  {
    if k < 10000 {
      SearchFinds(prog, fuel, k + 1);
      forall noun, verb | 0 <= noun < 100 && 0 <= verb < 100 && k <= 100 * noun + verb
        ensures 100 * noun + verb in SearchFrom(prog, fuel, k).1 <==> Eval(prog, noun, verb, fuel) == (Halted, EXPECTED_RESULT)
      {
        var n := 100 * noun + verb;
        if n == k {
          assert k / 100 == noun && k % 100 == verb;
        }
      }
    }
  }

  /**
   * The worked example of the puzzle text: `1,9,10,3,2,3,11,0,99,30,40,50`
   * first stores 30 + 40 = 70 at address 3, then 70 * 50 = 3500 at address
   * 0, then halts on the 99 at address 8.
   */
  lemma DocumentedExample(fuel: nat)
    requires fuel >= 3
    ensures var m0 := Loaded([1, 9, 10, 3, 2, 3, 11, 0, 99, 30, 40, 50]);
      var m1 := m0[3 := 70];
      var m2 := m1[0 := 3500];
      && Exec(m0, 0) == Next(m1, 4)
      && Exec(m1, 4) == Next(m2, 8)
      && Exec(m2, 8) == Halt
      && Run(m0, 0, fuel) == Outcome(Halted, m2, 8, fuel - 2)
  {
    var m0 := Loaded([1, 9, 10, 3, 2, 3, 11, 0, 99, 30, 40, 50]);
    var m1 := m0[3 := 70];
    var m2 := m1[0 := 3500];
    assert Exec(m0, 0) == Next(m1, 4);
    assert Exec(m1, 4) == Next(m2, 8);
    assert Exec(m2, 8) == Halt;
    assert Run(m0, 0, fuel) == Run(m1, 4, fuel - 1);
    assert Run(m1, 4, fuel - 1) == Run(m2, 8, fuel - 2);
    assert Run(m2, 8, fuel - 2) == Outcome(Halted, m2, 8, fuel - 2);
  }

  /** The cell at `pos` after running a freshly loaded program: the tests' `eval`. */
  function CellAfter(prog: seq<nat>, pos: nat, fuel: nat): (Status, nat)
    requires |prog| <= MEM_SIZE && pos < MEM_SIZE
  {
    var o := Run(Loaded(prog), 0, fuel);
    (o.status, o.mem[pos])
  }

  /** `1,0,0,0,99` becomes `2,0,0,0,99`. */
  lemma ExampleOne(fuel: nat)
    requires fuel >= 2
    ensures CellAfter([1, 0, 0, 0, 99], 0, fuel) == (Halted, 2)
  {
    var m0 := Loaded([1, 0, 0, 0, 99]);
    assert Exec(m0, 0) == Next(m0[0 := 2], 4);
    assert Exec(m0[0 := 2], 4) == Halt;
    assert Run(m0, 0, fuel) == Run(m0[0 := 2], 4, fuel - 1);
    assert Run(m0[0 := 2], 4, fuel - 1) == Outcome(Halted, m0[0 := 2], 4, fuel - 1);
  }

  /** `2,3,0,3,99` becomes `2,3,0,6,99`. */
  lemma ExampleTwo(fuel: nat)
    requires fuel >= 2
    ensures CellAfter([2, 3, 0, 3, 99], 3, fuel) == (Halted, 6)
  {
    var m0 := Loaded([2, 3, 0, 3, 99]);
    assert Exec(m0, 0) == Next(m0[3 := 6], 4);
    assert Exec(m0[3 := 6], 4) == Halt;
    assert Run(m0, 0, fuel) == Run(m0[3 := 6], 4, fuel - 1);
    assert Run(m0[3 := 6], 4, fuel - 1) == Outcome(Halted, m0[3 := 6], 4, fuel - 1);
  }

  /** `2,4,4,5,99,0` becomes `2,4,4,5,99,9801`. */
  lemma ExampleThree(fuel: nat)
    requires fuel >= 2
    ensures CellAfter([2, 4, 4, 5, 99, 0], 5, fuel) == (Halted, 9801)
  {
    var m0 := Loaded([2, 4, 4, 5, 99, 0]);
    assert Exec(m0, 0) == Next(m0[5 := 9801], 4);
    assert Exec(m0[5 := 9801], 4) == Halt;
    assert Run(m0, 0, fuel) == Run(m0[5 := 9801], 4, fuel - 1);
    assert Run(m0[5 := 9801], 4, fuel - 1) == Outcome(Halted, m0[5 := 9801], 4, fuel - 1);
  }

  /** `1,1,1,4,99,5,6,0,99` becomes `30,1,1,4,2,5,6,0,99`: the first instruction turns the 99 into a 2. */
  lemma ExampleFour(fuel: nat)
    requires fuel >= 3
    ensures CellAfter([1, 1, 1, 4, 99, 5, 6, 0, 99], 0, fuel) == (Halted, 30)
  {
    var m0 := Loaded([1, 1, 1, 4, 99, 5, 6, 0, 99]);
    var m1 := m0[4 := 2];
    var m2 := m1[0 := 30];
    assert Exec(m0, 0) == Next(m1, 4);
    assert Exec(m1, 4) == Next(m2, 8);
    assert Exec(m2, 8) == Halt;
    assert Run(m0, 0, fuel) == Run(m1, 4, fuel - 1);
    assert Run(m1, 4, fuel - 1) == Run(m2, 8, fuel - 2);
    assert Run(m2, 8, fuel - 2) == Outcome(Halted, m2, 8, fuel - 2);
  }

  /**
   * `IntcodeISS`: the fixed array of cells and the program counter. `peek`
   * and `poke` index the array; an index past it panics, which `Compute`
   * reports as a fault.
   */
  class IntcodeISS {
    var mem: array<nat>
    var pc: nat

    ghost predicate Valid()
      reads this
    {
      mem.Length == MEM_SIZE
    }

    /** `IntcodeISS::new`: 1024 zero cells and `pc` 0. */
    constructor()
      ensures Valid() && fresh(mem)
      ensures mem[..] == Fresh() && pc == 0
    {
      mem := new nat[MEM_SIZE](_ => 0);
      pc := 0;
    }

    /** `load_program`: copies the program into the first cells; the others keep their values. */
    method LoadProgram(prog: seq<nat>)
      requires Valid() && |prog| <= MEM_SIZE
      modifies mem
      ensures mem[..] == prog + old(mem[..])[|prog|..]
    {
      var i := 0;
      while i < |prog|
        invariant 0 <= i <= |prog|
        invariant mem[..] == prog[..i] + old(mem[..])[i..]
      {
        Poke(i, prog[i]);
        assert prog[..i + 1] == prog[..i] + [prog[i]];
        i := i + 1;
      }
      assert prog[..i] == prog;
    }

    /** `poke(i, val)`: cell `i` becomes `val`. */
    method Poke(i: nat, val: nat)
      requires i < mem.Length
      modifies mem
      ensures mem[..] == old(mem[..])[i := val]
    {
      mem[i] := val;
    }

    /** `compute`, for at most `fuel` instructions: the run `Run` describes, performed on the array. */
    method Compute(fuel: nat) returns (status: Status)
      requires Valid()
      modifies this, mem
      ensures Valid() && mem == old(mem)
      ensures var o := Run(old(mem[..]), old(pc), fuel);
        status == o.status && mem[..] == o.mem && pc == o.pc
    {
      var left := fuel;
      while left > 0
        invariant Valid() && mem == old(mem)
        invariant Run(old(mem[..]), old(pc), fuel) == Run(mem[..], pc, left)
        decreases left
      {
        var st := Cycle();
        match st {
          case Next(_, _) =>
          case Halt =>
            return Halted;
          case Crash(f) =>
            return Failed(f);
        }
        left := left - 1;
      }
      status := OutOfFuel;
    }

    /** One pass of `compute`'s loop on the array: the step `Exec` describes. */
    method Cycle() returns (st: Step)
      requires Valid()
      modifies this, mem
      ensures Valid() && mem == old(mem)
      ensures st == Exec(old(mem[..]), old(pc))
      ensures st.Next? ==> mem[..] == st.mem && pc == st.pc
      ensures !st.Next? ==> mem[..] == old(mem[..]) && pc == old(pc)
    {
      if pc + 3 >= MEM_SIZE {
        var a := if pc + 1 >= MEM_SIZE then pc + 1 else if pc + 2 >= MEM_SIZE then pc + 2 else pc + 3;
        return Crash(OutOfBounds(a));
      }
      var r1, r2, rd := mem[pc + 1], mem[pc + 2], mem[pc + 3];
      var op := mem[pc];
      if op == 1 || op == 2 {
        if r1 >= MEM_SIZE {
          return Crash(OutOfBounds(r1));
        }
        if r2 >= MEM_SIZE {
          return Crash(OutOfBounds(r2));
        }
        var val := if op == 1 then mem[r1] + mem[r2] else mem[r1] * mem[r2];
        if rd >= MEM_SIZE {
          return Crash(OutOfBounds(rd));
        }
        Poke(rd, val);
        pc := pc + 4;
        st := Next(mem[..], pc);
      } else if op == 99 {
        st := Halt;
      } else {
        st := Crash(UnknownOpcode(op));
      }
    }
  }

  /**
   * The `eval` closure of `main`: a new machine, the program loaded, noun
   * and verb poked into addresses 1 and 2, `compute`, then `peek(0)`.
   */
  method EvalFresh(prog: seq<nat>, noun: nat, verb: nat, fuel: nat) returns (status: Status, result: nat)
    requires |prog| <= MEM_SIZE
    ensures (status, result) == Eval(prog, noun, verb, fuel)
  {
    var iss := new IntcodeISS();
    iss.LoadProgram(prog);
    assert iss.mem[..] == Loaded(prog);
    iss.Poke(1, noun);
    iss.Poke(2, verb);
    status := iss.Compute(fuel);
    result := iss.mem[0];
  }

  /**
   * Part two's brute force: every noun and verb in `0..=99`, each on a fresh
   * machine, reporting `100 * noun + verb` for every pair that leaves
   * `EXPECTED_RESULT` in cell 0. A trial that does not halt ends the search.
   */
  method Search(prog: seq<nat>, fuel: nat) returns (status: Status, found: seq<nat>)
    requires |prog| <= MEM_SIZE
    ensures (status, found) == SearchFrom(prog, fuel, 0)
  {
    found := [];
    assert found + SearchFrom(prog, fuel, 0).1 == SearchFrom(prog, fuel, 0).1;
    var noun := 0;
    while noun <= 99
      invariant 0 <= noun <= 100
      invariant var r := SearchFrom(prog, fuel, 100 * noun); SearchFrom(prog, fuel, 0) == (r.0, found + r.1)
    {
      var verb := 0;
      while verb <= 99
        invariant 0 <= verb <= 100
        invariant var r := SearchFrom(prog, fuel, 100 * noun + verb); SearchFrom(prog, fuel, 0) == (r.0, found + r.1)
      {
        var stop;
        stop, status, found := Trial(prog, fuel, noun, verb, found);
        if stop {
          return;
        }
        verb := verb + 1;
      }
      noun := noun + 1;
    }
    assert found + [] == found;
    status := Halted;
  }

  /**
   * One pass of the inner loop of `Search`: evaluates the pair on a fresh
   * machine and appends `100 * noun + verb` to `found` on a hit; `stop`
   * when the trial did not halt.
   */
  method Trial(prog: seq<nat>, fuel: nat, noun: nat, verb: nat, found: seq<nat>) returns (stop: bool, status: Status, found': seq<nat>)
    requires |prog| <= MEM_SIZE && noun < 100 && verb < 100
    ensures var k := 100 * noun + verb;
      var r := SearchFrom(prog, fuel, k);
      if stop then (status, found') == (r.0, found + r.1)
      else var r' := SearchFrom(prog, fuel, k + 1); (r.0, found + r.1) == (r'.0, found' + r'.1)
  {
    var k := 100 * noun + verb;
    assert k / 100 == noun && k % 100 == verb;
    var st, result := EvalFresh(prog, noun, verb, fuel);
    if st != Halted {
      assert found + [] == found;
      return true, st, found;
    }
    var hit: seq<nat> := if result == EXPECTED_RESULT then [k] else [];
    found' := found + hit;
    var r' := SearchFrom(prog, fuel, k + 1);
    assert found + (hit + r'.1) == found' + r'.1;
    stop, status := false, Halted;
  }
}
