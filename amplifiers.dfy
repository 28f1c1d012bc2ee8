/**
 * The amplifier hosts of `src/bin/day7.rs`. Five copies of one program
 * run in series, each started with its phase setting and the previous
 * amplifier's signal. In the feedback arrangement the machines are kept,
 * and the last one's output goes back to the first until the last one
 * halts. Part one and part two take the largest signal over every
 * arrangement of the phase settings.
 */
module Amplifiers {
  import opened SmallIntcode
  import SuspendMachine
  import opened Combinations

  /**
   * Why no signal came out. A machine fault or indexing an empty output
   * vector is a panic in the source. Running past the fuel bound is
   * this model's own stop.
   */
  datatype Failure = Panicked(fault: Fault) | NoOutput | Exhausted

  datatype Attempt<T> = Got(value: T) | Broken(failure: Failure)

  /** The part of an `IntcodeISS` that survives between `compute` calls. */
  datatype Amp = Amp(mem: seq<int>, pc: nat)

  /** The machines started so far and the signal the last one output. */
  datatype Chain = Chain(amps: seq<Amp>, signal: int)

  /**
   * One amplifier's first run: a fresh machine given `[phase, signal]`
   * produces the next signal as its first output. Whether it halted or
   * paused for input does not matter here.
   */
  function Launch(prog: seq<int>, phase: int, signal: int, fuel: nat): Attempt<(Amp, int)>
  {
    var o := Run(prog, 0, [phase, signal], fuel, []);
    if o.status.Failed? then Broken(Panicked(o.status.fault))
    else if o.status == OutOfFuel then Broken(Exhausted)
    else if |o.output| == 0 then Broken(NoOutput)
    else Got((Amp(o.mem, o.pc), o.output[0]))
  }

  /** The amplifiers for `phases[i..]` launched in order, after `amps` and the signal `signal`. */
  function Setup(prog: seq<int>, phases: seq<int>, i: nat, amps: seq<Amp>, signal: int, fuel: nat): Attempt<Chain>
    requires i <= |phases|
    decreases |phases| - i
  {
    if i == |phases| then Got(Chain(amps, signal))
    else
      match Launch(prog, phases[i], signal, fuel)
      case Broken(f) => Broken(f)
      case Got((amp, next)) => Setup(prog, phases, i + 1, amps + [amp], next, fuel)
  }

  /** One amplifier of `Setup`, for a launch whose result is known. */
  lemma SetupStep(prog: seq<int>, phases: seq<int>, i: nat, amps: seq<Amp>, signal: int, fuel: nat, amp: Amp, next: int)
    requires i < |phases| && Launch(prog, phases[i], signal, fuel) == Got((amp, next))
    ensures Setup(prog, phases, i, amps, signal, fuel) == Setup(prog, phases, i + 1, amps + [amp], next, fuel)
  {
  }

  /** `eval_amp_chain`: the signal out of the last amplifier when the first is given 0. */
  function ChainSignal(prog: seq<int>, phases: seq<int>, fuel: nat): Attempt<int>
  {
    match Setup(prog, phases, 0, [], 0, fuel)
    case Broken(f) => Broken(f)
    case Got(c) => Got(c.signal)
  }

  /** What is left to do once the chain for `phases[..j]` has been set up. */
  function Resumed(prog: seq<int>, phases: seq<int>, j: nat, r: Attempt<Chain>, fuel: nat): Attempt<Chain>
    requires j <= |phases|
  {
    match r
    case Broken(f) => Broken(f)
    case Got(c) => Setup(prog, phases, j, c.amps, c.signal, fuel)
  }

  /**
   * A chain splits at any amplifier: setting up the first `j` and then
   * the rest from the signal they produced is setting up the whole.
   */
  lemma {:induction false} SetupSplit(prog: seq<int>, phases: seq<int>, i: nat, j: nat, amps: seq<Amp>, signal: int, fuel: nat)
    requires i <= j <= |phases|
    ensures Setup(prog, phases, i, amps, signal, fuel)
      == Resumed(prog, phases, j, Setup(prog, phases[..j], i, amps, signal, fuel), fuel)
    decreases j - i
  {
    if i < j {
      assert phases[..j][i] == phases[i];
      match Launch(prog, phases[i], signal, fuel)
      case Broken(f) =>
      case Got((amp, next)) =>
        SetupSplit(prog, phases, i + 1, j, amps + [amp], next, fuel);
    }
  }

  /** A chain that is set up keeps the machines it was given and adds one per phase setting. */
  lemma {:induction false} SetupKeeps(prog: seq<int>, phases: seq<int>, i: nat, amps: seq<Amp>, signal: int, fuel: nat)
    requires i <= |phases|
    ensures var r := Setup(prog, phases, i, amps, signal, fuel);
      r.Got? ==> |r.value.amps| == |amps| + |phases| - i && r.value.amps[..|amps|] == amps
    decreases |phases| - i
  {
    if i < |phases| {
      match Launch(prog, phases[i], signal, fuel)
      case Broken(f) =>
      case Got((amp, next)) =>
        SetupKeeps(prog, phases, i + 1, amps + [amp], next, fuel);
        var r := Setup(prog, phases, i + 1, amps + [amp], next, fuel);
        if r.Got? {
          assert r.value.amps[..|amps|] == r.value.amps[..|amps| + 1][..|amps|];
        }
    }
  }

  /**
   * `eval_amp_chain`: five fresh machines, the phase setting written into
   * the first cell of a two-value input and each machine's first output
   * into the second.
   */
  method EvalAmpChain(prog: seq<int>, phases: seq<int>, fuel: nat) returns (r: Attempt<int>)
    requires |phases| == 5
    ensures r == ChainSignal(prog, phases, fuel)
  {
    var input := [0, 0];
    ghost var amps: seq<Amp> := [];
    for i := 0 to 5
      invariant |input| == 2
      invariant Setup(prog, phases, 0, [], 0, fuel) == Setup(prog, phases, i, amps, input[1], fuel)
    {
      input := input[0 := phases[i]];
      assert input == [phases[i], input[1]];
      var iss := new SuspendMachine.IntcodeISS(prog);
      var reason, output := iss.Compute(input, fuel);
      if reason.Failed? {
        return Broken(Panicked(reason.fault));
      } else if reason == OutOfFuel {
        return Broken(Exhausted);
      } else if |output| == 0 {
        return Broken(NoOutput);
      }
      amps := amps + [Amp(iss.mem, iss.pc)];
      input := input[1 := output[0]];
    }
    r := Got(input[1]);
  }

  /** The machines after a pass round the loop, the values the last one output, and why it stopped. */
  datatype Round = Round(amps: seq<Amp>, signals: seq<int>, reason: Status)

  /**
   * One pass of the feedback loop from amplifier `i` on: each resumed
   * machine gets the previous one's whole output as input, and the reason
   * kept is the last machine's.
   */
  function Pass(amps: seq<Amp>, i: nat, signals: seq<int>, reason: Status, fuel: nat): Attempt<Round>
    requires i <= |amps|
    decreases |amps| - i
  {
    if i == |amps| then Got(Round(amps, signals, reason))
    else
      var o := Run(amps[i].mem, amps[i].pc, signals, fuel, []);
      if o.status.Failed? then Broken(Panicked(o.status.fault))
      else if o.status == OutOfFuel then Broken(Exhausted)
      else Pass(amps[i := Amp(o.mem, o.pc)], i + 1, o.output, o.status, fuel)
  }

  /**
   * Passes round the loop, at most `rounds` of them, until the last
   * machine halts; the answer is the first value it output on that pass.
   */
  function Feedback(amps: seq<Amp>, signals: seq<int>, rounds: nat, fuel: nat): Attempt<int>
    decreases rounds
  {
    if rounds == 0 then Broken(Exhausted)
    else
      match Pass(amps, 0, signals, Halted, fuel)
      case Broken(f) => Broken(f)
      case Got(r) =>
        if r.reason == Halted then (if |r.signals| == 0 then Broken(NoOutput) else Got(r.signals[0]))
        else Feedback(r.amps, r.signals, rounds - 1, fuel)
  }

  /** `eval_amp_chain_loopback`: the chain is set up as in part one, then its signal is fed back. */
  function Loopback(prog: seq<int>, phases: seq<int>, rounds: nat, fuel: nat): Attempt<int>
  {
    match Setup(prog, phases, 0, [], 0, fuel)
    case Broken(f) => Broken(f)
    case Got(c) => Feedback(c.amps, [c.signal], rounds, fuel)
  }

  /** Each machine in `chain` holds the state `amps` records for it, and they are distinct objects. */
  ghost predicate Holds(chain: seq<SuspendMachine.IntcodeISS>, amps: seq<Amp>)
    reads set j | 0 <= j < |chain| :: chain[j]
  {
    && |chain| == |amps|
    && (forall j, k :: 0 <= j < k < |chain| ==> chain[j] != chain[k])
    && (forall j :: 0 <= j < |chain| ==> chain[j].mem == amps[j].mem && chain[j].pc == amps[j].pc)
  }

  /**
   * `eval_amp_chain_loopback`: five machines created and started in turn,
   * kept in a vector, then resumed in order, pass after pass, until the
   * last one halts.
   */
  method EvalAmpChainLoopback(prog: seq<int>, phases: seq<int>, rounds: nat, fuel: nat) returns (r: Attempt<int>)
    requires |phases| == 5
    ensures r == Loopback(prog, phases, rounds, fuel)
  {
    var chain: seq<SuspendMachine.IntcodeISS> := [];
    ghost var amps: seq<Amp> := [];
    var init := [0, 0];
    for i := 0 to 5
      invariant |init| == 2 && |chain| == i
      invariant forall j :: 0 <= j < i ==> fresh(chain[j])
      invariant Holds(chain, amps)
      invariant Setup(prog, phases, 0, [], 0, fuel) == Setup(prog, phases, i, amps, init[1], fuel)
    {
      init := init[0 := phases[i]];
      assert init == [phases[i], init[1]];
      var iss := new SuspendMachine.IntcodeISS(prog);
      var reason, output := iss.Compute(init, fuel);
      if reason.Failed? {
        return Broken(Panicked(reason.fault));
      } else if reason == OutOfFuel {
        return Broken(Exhausted);
      } else if |output| == 0 {
        return Broken(NoOutput);
      }
      init := init[1 := output[0]];
      chain := chain + [iss];
      amps := amps + [Amp(iss.mem, iss.pc)];
    }
    var input := [init[1]];
    var left := rounds;
    while left > 0
      invariant |chain| == 5
      invariant forall j :: 0 <= j < 5 ==> fresh(chain[j])
      invariant Holds(chain, amps)
      invariant Loopback(prog, phases, rounds, fuel) == Feedback(amps, input, left, fuel)
      decreases left
    {
      ghost var start, given := amps, input;
      var stop := Halted;
      for i := 0 to 5
        invariant forall j :: 0 <= j < 5 ==> fresh(chain[j])
        invariant Holds(chain, amps)
        invariant Pass(start, 0, given, Halted, fuel) == Pass(amps, i, input, stop, fuel)
      {
        var reason, output := chain[i].Compute(input, fuel);
        if reason.Failed? {
          return Broken(Panicked(reason.fault));
        } else if reason == OutOfFuel {
          return Broken(Exhausted);
        }
        amps := amps[i := Amp(chain[i].mem, chain[i].pc)];
        input := output;
        stop := reason;
      }
      if stop == Halted {
        if |input| == 0 {
          return Broken(NoOutput);
        }
        return Got(input[0]);
      }
      left := left - 1;
    }
    r := Broken(Exhausted);
  }

  function Max(a: int, b: int): int
  {
    if a < b then b else a
  }

  /** How the amplifiers are wired: in series (part one) or in a feedback loop of at most `rounds` passes (part two). */
  datatype Wiring = Series | Looped(rounds: nat)

  /** The signal one phase setting gives under `wiring`. */
  function Signal(prog: seq<int>, wiring: Wiring, phases: seq<int>, fuel: nat): Attempt<int>
  {
    match wiring
    case Series => ChainSignal(prog, phases, fuel)
    case Looped(rounds) => Loopback(prog, phases, rounds, fuel)
  }

  /**
   * The `fold` of part one and part two: the largest of `acc` and every
   * setting's signal. The first setting whose evaluation panics aborts
   * the whole fold.
   */
  function Best(prog: seq<int>, wiring: Wiring, settings: seq<seq<int>>, fuel: nat, acc: int): Attempt<int>
    decreases |settings|
  {
    if |settings| == 0 then Got(acc)
    else
      match Signal(prog, wiring, settings[0], fuel)
      case Broken(f) => Broken(f)
      case Got(v) => Best(prog, wiring, settings[1..], fuel, Max(acc, v))
  }

  /**
   * The fold finds the maximum: when it succeeds, every setting gave a
   * signal no larger than the result, and the result is the start value
   * or one of those signals. When it fails, some setting failed the same
   * way.
   */
  lemma {:induction false} BestIsMaximum(prog: seq<int>, wiring: Wiring, settings: seq<seq<int>>, fuel: nat, acc: int)
    ensures var r := Best(prog, wiring, settings, fuel, acc);
      && (r.Got? ==> r.value >= acc)
      && (r.Got? ==> forall k :: 0 <= k < |settings| ==>
            Signal(prog, wiring, settings[k], fuel).Got? && Signal(prog, wiring, settings[k], fuel).value <= r.value)
      && (r.Got? ==> r.value == acc || exists k :: 0 <= k < |settings| && Signal(prog, wiring, settings[k], fuel) == r)
      && (r.Broken? ==> exists k :: 0 <= k < |settings| && Signal(prog, wiring, settings[k], fuel) == r)
    decreases |settings|
  {
    if |settings| > 0 {
      match Signal(prog, wiring, settings[0], fuel)
      case Broken(f) =>
      case Got(v) =>
        var rest := settings[1..];
        BestIsMaximum(prog, wiring, rest, fuel, Max(acc, v));
        var r := Best(prog, wiring, settings, fuel, acc);
        forall k | 1 <= k < |settings|
          ensures settings[k] == rest[k - 1]
        {
        }
        if r.Got? && r.value != acc && r.value != v {
          var k :| 0 <= k < |rest| && Signal(prog, wiring, rest[k], fuel) == r;
          assert Signal(prog, wiring, settings[k + 1], fuel) == r;
        }
        if r.Broken? {
          var k :| 0 <= k < |rest| && Signal(prog, wiring, rest[k], fuel) == r;
          assert Signal(prog, wiring, settings[k + 1], fuel) == r;
        }
    }
  }

  /** The phase settings of part one and of part two. */
  const LOW_PHASES: seq<int> := [0, 1, 2, 3, 4]
  const HIGH_PHASES: seq<int> := [5, 6, 7, 8, 9]

  /** `part_one` on a given program: the best chain signal over every arrangement of 0..4. */
  function PartOne(prog: seq<int>, fuel: nat): Attempt<int>
  {
    Best(prog, Series, Arrangements(LOW_PHASES), fuel, 0)
  }

  /** `part_two` on a given program: the best feedback signal over every arrangement of 5..9. */
  function PartTwo(prog: seq<int>, rounds: nat, fuel: nat): Attempt<int>
  {
    Best(prog, Looped(rounds), Arrangements(HIGH_PHASES), fuel, 0)
  }

  /**
   * A fold over all arrangements of `base` considers every rearrangement
   * of it: its answer is at least that rearrangement's signal, and is 0
   * or the signal of some rearrangement.
   */
  lemma BestOfArrangements(prog: seq<int>, wiring: Wiring, base: seq<int>, fuel: nat, phases: seq<int>)
    requires |base| >= 1 && multiset(phases) == multiset(base)
    ensures var r := Best(prog, wiring, Arrangements(base), fuel, 0);
      && (r.Got? ==> Signal(prog, wiring, phases, fuel).Got? && Signal(prog, wiring, phases, fuel).value <= r.value)
      && (r.Got? ==> r.value == 0 || exists s :: multiset(s) == multiset(base) && Signal(prog, wiring, s, fuel) == r)
  {
    var all := Arrangements(base);
    ArrangementsComplete(base, phases);
    ArrangementsArePermutations(base);
    BestIsMaximum(prog, wiring, all, fuel, 0);
    var k :| 0 <= k < |all| && all[k] == phases;
    var r := Best(prog, wiring, all, fuel, 0);
    if r.Got? && r.value != 0 {
      var j :| 0 <= j < |all| && Signal(prog, wiring, all[j], fuel) == r;
      assert multiset(all[j]) == multiset(base);
    }
  }
}
