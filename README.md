# Advent of Code 2019 in Rust, modelled in Dafny

This project models the Rust solutions of the 2019 Advent of Code puzzles in
the `aoc2019` repository. Its main subject is the **Intcode machine**, a small
stored-program computer that the repository implements several times, each
version adding features:

- the two-opcode calculator (`src/bin/day2.rs`, `d02/src/main.rs`). It has a
  fixed memory of 1024 cells and the opcodes add, multiply and halt. Module
  `FixedMachine`.
- the I/O and comparison machine (`src/bin/day5.rs`). It adds input, output,
  jumps, less-than and equals, and position and immediate parameter modes.
  Modules `SmallIntcode` and `IoMachine`.
- the suspendable machine (`src/bin/day7.rs`). It stops with `NeedInput` when
  its input runs out and resumes later. Modules `SmallIntcode` and
  `SuspendMachine`. The day's two hosts are the amplifier chain and the
  feedback loop (`Amplifiers`, with the fixtures in `AmplifierTests`), and the
  phase permutations come from `Combinations`.
- the full machine (`src/bin/day9.rs`, and the identical copy in
  `src/bin/day13.rs`). It adds a relative base, relative addressing and a
  memory that grows in zero-filled pages of 1024 cells. Modules
  `IntcodeDecode`, `FullMachine` and `FullMachineIss`. The day-13 arcade
  cabinet, which drives the machine and draws its output on a screen, is
  `Arcade`.

The other puzzle solutions of the repository are modelled too, one module
each:

| module | source | puzzle |
|---|---|---|
| `Fuel` | `d01/src/main.rs` | fuel for module masses, and fuel for the fuel |
| `Wires` | `src/bin/day3.rs` | wire paths, nearest crossing, fewest combined steps |
| `Passwords` | `d04/src/main.rs` | digit rules for passwords |
| `Orbits` | `src/bin/day6.rs` | the orbit tree, its checksum, orbital transfers |
| `SpaceImage` | `src/bin/day8.rs` | image layers, checksum layer, compositing |
| `Asteroids` | `src/bin/day10.rs` | asteroid map, directions, visibility |
| `Moons` | `src/bin/day12.rs` | moons under integer gravity, energy |
| `Reactions` | `src/bin/day14.rs` | reaction formulas, ORE needed, most FUEL for a budget |
| `Fft` | `src/bin/day16.rs` | the repeating FFT pattern and phases |

The shared modules are these:

- `RustInt` models Rust's integer operators. Rust's `/` and `%` truncate
  toward zero, which differs from Dafny's Euclidean operators.
- `Text` models the parts of Rust's string library that the solutions use:
  `split`, `lines`, `trim_matches`, `split_ascii_whitespace` and `parse`.
- `Divisibility` holds gcd and lcm.

Style of the model:

- State the source updates in place is a class. This covers the machines'
  memory, program counter and relative base; the orbit map; a moon; the
  arcade screen; and the FFT pattern iterator. The loops that update it are
  methods.
- Each method is proved equal to a specification function, or states its
  new state outright.
- A run of an Intcode machine takes a `fuel` bound on the number of
  instructions, because a program need not halt.
- A panic in the source becomes one of two things: an explicit fault
  outcome in the model, or a precondition where the panic (an `assert!`,
  an `expect`, an `unwrap` or an index out of range) is about input the
  caller controls. The "Left out" section names every such precondition,
  one line per member. Preconditions that are not panics are not listed
  there: invariants of the model's own state (`Valid`, `Numbered`,
  `Distinct`), a `fuel` or round count, the five phases of the `[i32; 5]`
  parameter type, and the range of a helper's index.

## Model

| member | source | states |
|---|---|---|
| RustInt.Abs | src/bin/day12.rs:33 | `abs` returns the magnitude: the value itself when it is non-negative, otherwise its negation |
| RustInt.TDiv | d01/src/main.rs:13 | Rust's `/` rounds toward zero: the magnitude of the quotient is the quotient of the magnitudes, and a non-zero quotient is positive exactly when the operands have the same sign |
| RustInt.TRem | src/bin/day10.rs:37 | Rust's `%` is the remainder of the truncating quotient: `a == (a / b) * b + r`, `|r| < |b|`, and a non-zero remainder has the sign of `a` |
| RustInt.NonNegativeAgrees | src/bin/day16.rs:46 | for a non-negative dividend and a positive divisor, Rust's `/` and `%` equal Dafny's |
| RustInt.NegativeAgrees | d01/src/main.rs:13 | for a negative dividend, Rust's quotient and remainder are those of the magnitude, negated |
| RustInt.NegativeRemainder | src/bin/day13.rs:90-98 | the remainder of a negative dividend lies in `(-b, 0]`, unlike Dafny's `%`, which is never negative |
| RustInt.RemMagnitude | src/bin/day16.rs:46 | the magnitude of Rust's remainder is the Euclidean remainder of the magnitudes, so `(x % 10).abs()` is `|x| % 10` |
| RustInt.Digits | d04/src/main.rs:5 | the decimal digits of `n.to_string()`: at least one, each below 10, and exactly one when `n < 10` |
| RustInt.DigitsValue | d04/src/main.rs:5 | the digits read back as a decimal numeral give the number |
| Text.SplitOn | src/bin/day14.rs:17 | `split(pat)` always gives at least one piece |
| Text.JoinSplit | src/bin/day14.rs:17 | joining the pieces of `split(pat)` with `pat` gives back the string |
| Text.SplitPiecesAvoid | src/bin/day14.rs:17 | no piece of `split(pat)` contains an occurrence of `pat` |
| Text.Split | src/bin/day14.rs:42 | `split(c)` always gives at least one piece |
| Text.SplitAvoids | src/bin/day14.rs:42 | no piece of `split(c)` contains `c` |
| Text.Lines | src/bin/day14.rs:38 | `lines()` gives no lines exactly for the empty string |
| Text.LineOf | src/bin/day14.rs:38 | line `k` is the `k`-th piece between newlines, less one carriage return that ended it |
| Text.LinesAvoid | src/bin/day14.rs:38 | no line contains a newline |
| Text.LinesJoin | src/bin/day14.rs:38 | for a string without carriage returns, the lines joined with newlines give the string back, less one trailing newline |
| Text.SplitFound | src/bin/day12.rs:105-107 | `split(c)` gives a second piece exactly when `c` occurs in the string |
| Text.TrimStart | src/bin/day12.rs:96 | stripping the front leaves a suffix of the string: it starts with a kept character, and every removed character is in the strip set |
| Text.TrimEnd | src/bin/day12.rs:96 | stripping the back leaves a prefix of the string: it ends with a kept character, and every removed character is in the strip set |
| Text.TrimMatches | src/bin/day12.rs:96 | `trim_matches` leaves a string that is empty or neither starts nor ends with a stripped character |
| Text.Words | src/bin/day14.rs:25 | `split_ascii_whitespace` gives non-empty words without ASCII whitespace |
| Text.ParseDigits | src/bin/day14.rs:29 | an unsigned numeral parses exactly when it is non-empty and all digits, to a non-negative value |
| Text.ParseInt | src/bin/day12.rs:109 | `parse::<T>` succeeds only with a value in the type's range |
| Text.NumeralDigits | src/bin/day14.rs:29 | the digits of a natural number parse back to that number |
| Text.ParseShow | src/bin/day14.rs:29 | parsing the text of an in-range integer gives the integer back |
| Divisibility.Gcd | src/bin/day12.rs:5-11 | `gcd_euclid` on unsigned integers is zero exactly when both arguments are zero |
| Divisibility.GcdDivides | src/bin/day12.rs:5-11 | the gcd divides both arguments |
| Divisibility.GcdGreatest | src/bin/day12.rs:5-11 | every common divisor of the arguments divides the gcd |
| Divisibility.Bezout | src/bin/day12.rs:5-11 | the gcd is an integer combination of the arguments |
| Divisibility.Lcm | src/bin/day12.rs:13-15 | `lcm(a, b) * gcd(a, b) == a * b`, and the lcm of positive numbers is positive |
| Divisibility.LcmMultiple | src/bin/day12.rs:13-15 | the lcm is a multiple of both arguments |
| Divisibility.LcmLeast | src/bin/day12.rs:13-15 | every common multiple of the arguments is a multiple of the lcm |
| Divisibility.LcmFold | src/bin/day12.rs:190-192 | folding the per-axis periods with `lcm` gives a positive common multiple of all of them |
| Divisibility.LcmFoldLeast | src/bin/day12.rs:190-192 | the fold divides every common multiple of the periods, so it is their least common multiple |
| Divisibility.GcdTMagnitude | src/bin/day10.rs:33-39 | the signed `gcd_euclid` with truncating `%` gives, up to sign, the gcd of the magnitudes |
| Fuel.ModuleFuel | d01/src/main.rs:13 | `mass / 3 - 2` with truncating division: `3(f+2) <= mass < 3(f+2)+3` for non-negative mass, rounding toward zero and `f <= -2` for negative mass, and a non-negative result is below the mass |
| Fuel.Tower | d01/src/main.rs:21-31 | the fuel for a module and its fuel is never negative; it is at least the first amount when that is non-negative, and 0 when it is negative |
| Fuel.TotalFuel | d01/src/main.rs:22-30 | the loop returns the sum of the repeated amounts up to the first negative one; it ends because each amount is smaller than the last |
| Fuel.TowerSumBounds | d01/src/main.rs:10-32 | part two's total is never negative and never below part one's total |
| Passwords.AscendingIsSorted | d04/src/main.rs:7-10 | when no digit exceeds the digit after it, every digit is at most every later digit |
| Passwords.ExactPairIsPair | d04/src/main.rs:1-45 | a run of exactly two equal digits is an adjacent equal pair, so the second rule implies the first |
| Passwords.IsPwValid | d04/src/main.rs:1-19 | the loop returns true iff the digits never decrease and some adjacent pair is equal |
| Passwords.ClosedRun | d04/src/main.rs:32-40 | when a run of equal digits ends, an exact pair exists from it on iff one exists after it or the run is exactly two long |
| Passwords.IsPwValid2 | d04/src/main.rs:21-45 | the loop returns true iff the digits never decrease and some maximal run of equal digits is exactly two long; this includes the last run, which is checked after the loop |
| Passwords.CountValid | d04/src/main.rs:47-52 | the count over `lo..hi` is at most the width of the range |
| Passwords.CountValidIsCardinality | d04/src/main.rs:47-52 | the count is the number of passwords in `lo..hi` that the rule accepts |
| Passwords.FirstValid | d04/src/main.rs:63 | 111111 passes the first rule |
| Passwords.FirstDecreasing | d04/src/main.rs:64 | 223450 fails the first rule |
| Passwords.FirstNoPair | d04/src/main.rs:65 | 123789 fails the first rule |
| Passwords.Second112233 | d04/src/main.rs:72 | 112233 passes the second rule |
| Passwords.Second123444 | d04/src/main.rs:73 | 123444 fails the second rule |
| Passwords.Second111122 | d04/src/main.rs:74 | 111122 passes the second rule |
| Passwords.Second133345 | d04/src/main.rs:75 | 133345 fails the second rule |
| Passwords.Second133445 | d04/src/main.rs:76 | 133445 passes the second rule |
| Passwords.Second112345 | d04/src/main.rs:77 | 112345 passes the second rule |
| Moons.Vec3D.NormL1 | src/bin/day12.rs:32-34 | the L1 norm is non-negative, and zero exactly for the zero vector |
| Moons.Gravity1D | src/bin/day12.rs:68-76 | the pull is -1, 0 or 1; it is positive iff the other moon is ahead and negative iff it is behind |
| Moons.GravityAntisymmetric | src/bin/day12.rs:68-76 | the pull is mutual: `g(a, b) == -g(b, a)` |
| Moons.Accelerate | src/bin/day12.rs:78-84 | gravity leaves a moon's position unchanged |
| Moons.Step | src/bin/day12.rs:137-146 | a time step keeps the number of moons |
| Moons.StepVelocities | src/bin/day12.rs:137-146 | in a step, each velocity gains the pull of every moon, measured at the positions from before the step |
| Moons.MomentumConserved | src/bin/day12.rs:137-146 | a time step leaves the sum of the velocities unchanged |
| Moons.Energy | src/bin/day12.rs:90-92 | a moon's energy is non-negative, and zero exactly when its position or its velocity is zero |
| Moons.TotalEnergy | src/bin/day12.rs:148 | the total energy is non-negative |
| Moons.Moon.constructor | src/bin/day12.rs:54-65 | `Moon::from` gives a moon at the position with zero velocity |
| Moons.Moon.ApplyGravity | src/bin/day12.rs:78-84 | the position stays; the velocity gains the pull of each other moon, measured at the positions before the call |
| Moons.Moon.ApplyVelocity | src/bin/day12.rs:86-88 | the position moves by the velocity, and the velocity stays |
| Moons.Moon.GetEnergy | src/bin/day12.rs:90-92 | the method gives the moon's energy, which is non-negative |
| Moons.Extract | src/bin/day12.rs:103-112 | `InvalidInputLine` exactly when the field has no second `=`-separated piece; `InvalidNumber` exactly when that piece does not parse as an `i32`; otherwise the value it parses to |
| Moons.ExtractNoEquals | src/bin/day12.rs:103-107 | a field fails as `InvalidInputLine` exactly when it holds no `=` |
| Moons.TrimEach | src/bin/day12.rs:97 | one field per comma-separated piece, each piece trimmed of white space |
| Moons.Collect | src/bin/day12.rs:114-118 | `?` applied in order: all the values exactly when every result is `Ok`, otherwise the error of the first result that is not |
| Moons.LineToVec | src/bin/day12.rs:95-101 | a line that does not have exactly three comma-separated fields inside its angle brackets is `InvalidInputLine` |
| Moons.LineToVecOk | src/bin/day12.rs:95-119 | a line is read exactly when it has three fields and each field extracts |
| Moons.LineToVecValue | src/bin/day12.rs:114-118 | the position read holds the three extracted values as x, y and z |
| Moons.LineToVecError | src/bin/day12.rs:114-118 | a line of three fields that is not read has the error of its first field that does not extract |
| Moons.LineToVecShow | src/bin/day12.rs:95-119 | every position with `i32` coordinates, written as `<x=.., y=.., z=..>`, reads back as itself |
| Moons.ParseMoons | src/bin/day12.rs:121-129 | the lines are read exactly when each line is read; then there is one position per line, in order; otherwise the error is that of the first line that is not read |
| Moons.ReadMoons | src/bin/day12.rs:121-129 | the first bad line's error, or a fresh, distinct moon at rest for each parsed position |
| Moons.Spawn | src/bin/day12.rs:124-127 | one fresh, distinct moon at rest for each position, in order |
| Moons.PartOne | src/bin/day12.rs:131-150 | `part_one` gives the parse error, `WrongNumOfMoons`, or the total energy after 1000 steps |
| Moons.FourMoons | src/bin/day12.rs:133-149 | a moon count other than 4 is `WrongNumOfMoons`; with four moons the result is the total energy after 1000 steps |
| Moons.Simulate | src/bin/day12.rs:137-146 | after the loop, the moons are in the state that many steps give |
| Moons.TimeStep | src/bin/day12.rs:138-145 | one iteration of the loop performs exactly one time step |
| Moons.GravityPhase | src/bin/day12.rs:138-142 | rotating the queue once through `apply_gravity` keeps every position and applies gravity from the positions before the step |
| Moons.GravityTurn | src/bin/day12.rs:139-141 | popping moon `t`, pulling it toward the rest and pushing it back rotates the queue one place and gives that moon the other moons' pull |
| Moons.VelocityPhase | src/bin/day12.rs:143-145 | every moon moves by its velocity, and the velocities stay |
| Moons.TotalEnergyOf | src/bin/day12.rs:148 | the fold gives the total energy of the moons |
| Asteroids.Size | src/bin/day10.rs:42 | the magnitude of the gcd is zero exactly for the zero vector |
| Asteroids.Normalize | src/bin/day10.rs:41-44 | the offset is its normalised direction scaled by the gcd magnitude |
| Asteroids.NormalizePrimitive | src/bin/day10.rs:41-44 | a normalised direction has coprime components |
| Asteroids.SameDirection | src/bin/day10.rs:41-51 | two non-zero offsets normalise to the same vector iff they point along the same ray |
| Asteroids.RowCellsMembers | src/bin/day10.rs:24-28 | a position is in a row's list iff it is in that row and the character at its column is `#` |
| Asteroids.CellsMembers | src/bin/day10.rs:21-31 | a position is in the belt iff the map has `#` at that line and column |
| Asteroids.CellsOrdered | src/bin/day10.rs:21-31 | the belt lists the asteroids in row-major order |
| Asteroids.ScanBelt | src/bin/day10.rs:22-30 | the nested loop succeeds iff every coordinate fits in `i32`, and then it returns the belt |
| Asteroids.CreateAsteroids | src/bin/day10.rs:21-31 | `create_asteroids` succeeds iff every coordinate fits in `i32`, and then it returns the `#` positions of the lines in row-major order |
| Asteroids.Directions | src/bin/day10.rs:47-51 | the set of directions has at most one member per asteroid |
| Asteroids.DirectionsMembers | src/bin/day10.rs:46-53 | a direction is seen iff some asteroid other than the origin has that normalised offset |
| Asteroids.ComputeVisible | src/bin/day10.rs:46-53 | the visible count is at most the number of asteroids |
| Asteroids.MostVisible | src/bin/day10.rs:58-61 | the fold is the largest visible count over the candidates, attained by one of them; it is 0 when there are none |
| Asteroids.PartOne | src/bin/day10.rs:55-64 | `part_one` fails iff a coordinate overflows; otherwise it is the largest visible count over all asteroids |
| Asteroids.Example1Belt | src/bin/day10.rs:83-90 | the 5x5 example map holds exactly the ten asteroids the test names, in row-major order |
| Fft.PatternAt | src/bin/day16.rs:10 | every weight of the pattern is -1, 0 or 1 |
| Fft.PatternPeriodic | src/bin/day16.rs:22-35 | the pattern repeats every `4 * repeat` values |
| Fft.PatternBlock | src/bin/day16.rs:22-35 | the `b`-th block of `repeat` values all carry the weight `[0, 1, 0, -1][b % 4]` |
| Fft.NextId | src/bin/day16.rs:29 | `(id + 1) & 0x03` is `(id + 1) % 4` |
| Fft.FFTPattern.constructor | src/bin/day16.rs:12-19 | `new` demands a non-zero repeat count and starts at position 0 of block 0 |
| Fft.FFTPattern.Next | src/bin/day16.rs:25-34 | `next` yields the pattern's weight at the number of values yielded so far; afterwards `cnt < repeat` and `coefficient_id < 4` |
| Fft.Take | src/bin/day16.rs:143-152 | taking `n` values of a fresh iterator gives the first `n` weights of the pattern |
| Fft.PatternExamples | src/bin/day16.rs:140-154 | repeat counts 1, 2 and 3 give `0,1,0,-1,...`, `0,0,1,1,0,0,-1,-1` and each weight three times |
| Fft.Phase | src/bin/day16.rs:37-50 | a phase has the input's length, and every entry is a digit 0..9 |
| Fft.PhaseElement | src/bin/day16.rs:41-47 | entry `i` is `|sum_j input[j] * w(i+1, j+1)| % 10`, where `w(r, k)` is the pattern with repeat count `r`; this is the pattern with its first value skipped |
| Fft.Phases | src/bin/day16.rs:80-82 | repeated phases keep the length of the signal |
| Fft.ComputeFftPhase | src/bin/day16.rs:37-50 | the loop computes the phase |
| Fft.TotalNonNegative | src/bin/day16.rs:54-65 | a sum of digits is non-negative |
| Fft.UpperRows | src/bin/day16.rs:100-114 | for a row in the second half, the weights are 0 before the row and 1 from it on, so the row's sum is the sum of the input's tail |
| Fft.UpperWeight | src/bin/day16.rs:100-114 | in the second half of the signal, the pattern for row `i` is 0 up to `i` and 1 after it |
| Fft.Triangular | src/bin/day16.rs:54-65 | `compute_fft_phase_triangular` keeps the length and copies the last entry |
| Fft.TriangularIsSuffixSum | src/bin/day16.rs:54-65 | on digits, entry `k` of the triangular phase is the sum of the input from `k` on, modulo 10 |
| Fft.TriangularDigits | src/bin/day16.rs:54-65 | the triangular phase of digits is again digits |
| Fft.PhaseTail | src/bin/day16.rs:100-116 | from an offset past the middle, the full phase equals the triangular phase of the tail, which is why `part_two` may use the shortcut |
| Fft.TriangularPhases | src/bin/day16.rs:117-119 | repeated triangular phases keep the length |
| Fft.PhasesTail | src/bin/day16.rs:100-119 | from an offset past the middle, any number of full phases agrees with the same number of triangular phases on the tail |
| Fft.ComputeFftPhaseTriangular | src/bin/day16.rs:54-65 | the backward loop computes the triangular phase |
| Fft.PartOne | src/bin/day16.rs:77-88 | `part_one` gives the first eight digits after 100 phases |
| Fft.Repeat | src/bin/day16.rs:92 | `repeat(n)` has `n` times the length |
| Fft.RepeatAt | src/bin/day16.rs:92 | entry `k` of the repeated signal is entry `k % len` of the signal |
| Fft.PartTwo | src/bin/day16.rs:90-125 | when the offset is past the middle, as the source asserts, `part_two` gives the eight digits at the offset after 100 full phases of the repeated signal |
| Fft.FourOnes | src/bin/day16.rs:157-160 | `[1,1,1,1]` gives `[0,2,2,1]` |
| Fft.ExampleFirstPhase | src/bin/day16.rs:164-167 | `1..8` gives `48226158` |
| Fft.ExampleSecondPhase | src/bin/day16.rs:169-170 | `48226158` gives `34040438` |
| Fft.ExampleThirdPhase | src/bin/day16.rs:172-173 | `34040438` gives `03415518` |
| Fft.ExampleFourthPhase | src/bin/day16.rs:175-176 | `03415518` gives `01029498` |
| SpaceImage.Layers | src/bin/day8.rs:4-10 | when the length is a multiple of `w*h`, as the source asserts, there are `len/(w*h)` layers of `w*h` pixels each |
| SpaceImage.LayersFlatten | src/bin/day8.rs:4-10 | the layers, concatenated, give back the image |
| SpaceImage.LayerIsSlice | src/bin/day8.rs:6-9 | layer `l` is the slice of the image from `l*w*h` to `(l+1)*w*h` |
| SpaceImage.FewestZerosUnique | src/bin/day8.rs:28-39 | only one layer has the fewest zeros with no earlier layer having as few |
| SpaceImage.EarlierHasMore | src/bin/day8.rs:33 | because the comparison is a strict `<`, every earlier layer has more zeros than the chosen one, so ties go to the earliest |
| SpaceImage.FewestZeros | src/bin/day8.rs:28-39 | the loop picks the first layer with the fewest zeros, or 0 when there are no layers |
| SpaceImage.PartOne | src/bin/day8.rs:22-45 | the answer is the count of 1s times the count of 2s in the first layer with the fewest zeros |
| SpaceImage.Visible | src/bin/day8.rs:57-60 | a pixel is found iff some layer is not transparent there; it is the value in the first such layer |
| SpaceImage.Composite | src/bin/day8.rs:54-62 | compositing fails iff some pixel is transparent in every layer, which is where the source's `unwrap` panics; otherwise each pixel is its visible value |
| SpaceImage.ParseExamples | src/bin/day8.rs:91-121 | `1..8` splits into four layers for 2x1 and one layer for 2x4 and 4x2, and the 12-pixel example gives two layers |
| SpaceImage.CompositeExample | src/bin/day8.rs:123-138 | the 2x2 example composites to `[0,1,1,0]` |
| Wires.Segment | src/bin/day3.rs:37-40 | one action contributes exactly as many positions as its step count |
| Wires.SegmentAt | src/bin/day3.rs:15-42 | position `i` of an action's segment lies `i+1` unit steps from the start, in the action's direction (U +y, D -y, R +x, L -x) |
| Wires.UnrollAction | src/bin/day3.rs:15-42 | for a non-negative step count, `unroll_action` appends the action's segment to the coordinates and returns its last position |
| Wires.FirstNegative | src/bin/day3.rs:36 | the index of the first action whose step count is negative (the one whose `reserve` panics), or the number of actions when there is none |
| Wires.Wire | src/bin/day3.rs:44-52 | the wire has as many positions as the sum of the step counts |
| Wires.ComputeWire | src/bin/day3.rs:36-52 | the loop stops with `NegativeSteps` at the first action with a negative step count; otherwise it builds the wire, starting from the origin, which it does not include |
| Wires.WireEnd | src/bin/day3.rs:41-49 | the position the loop carries between actions is the wire's last position, or the origin while the wire is empty |
| Wires.WireWalk | src/bin/day3.rs:15-52 | each position is one unit step from the one before it, and the first is one step from the origin |
| Wires.WireNear | src/bin/day3.rs:15-52 | position `i` is at most `i+1` from the origin in Manhattan distance |
| Wires.Closest | src/bin/day3.rs:54-61 | the result is at most the distance of every common position, equals one of them, or is `i32::MAX` |
| Wires.ClosestSymmetric | src/bin/day3.rs:54-61 | the nearest crossing does not depend on the order of the wires |
| Wires.ComputeManhattanDistance | src/bin/day3.rs:54-61 | the fold computes the nearest crossing |
| Wires.FirstIndex | src/bin/day3.rs:70-71 | `position` finds the first index holding the position |
| Wires.Fewest | src/bin/day3.rs:63-74 | the result is at most `first index in wire 1 + 1 + first index in wire 2 + 1` for every common position, equals one of them, or is `i32::MAX` |
| Wires.FewestOver | src/bin/day3.rs:65-73 | the fold over a list of candidates is the least delay among the candidates that lie on both wires |
| Wires.ComputeFewestSteps | src/bin/day3.rs:63-74 | the fold computes the fewest combined steps |
| Wires.StepsDominateDistance | src/bin/day3.rs:54-74 | for real wires, the nearest crossing is never farther than the fewest combined steps |
| Wires.Actionize | src/bin/day3.rs:83-95 | an action parses iff its first letter is U, D, R or L and the rest parses as an `i32`, which is then its step count |
| Wires.ActionizeShow | src/bin/day3.rs:83-95 | writing an action as its letter followed by its count parses back to the same action |
| Wires.ParseActions | src/bin/day3.rs:100-103 | a wire description parses iff every action parses; then the actions are in order, otherwise the error is that of the first action that fails |
| Wires.ParseActionsShow | src/bin/day3.rs:100-103 | a written list of actions parses back to itself |
| Wires.ParseWires | src/bin/day3.rs:97-105 | one wire per line, each the parse of that line's actions, or the error of the first line that fails |
| Wires.Solve | src/bin/day3.rs:76-129 | a parse error, a wire count other than two, the `NegativeSteps` panic of the first wire and then of the second, or the nearest crossing and the fewest steps of the two wires |
| Orbits.InsertName | src/bin/day6.rs:50-63 | a known name keeps its id and changes nothing; a new name gets id = the old node count, exactly one fresh node is appended, the other ids stay, and only a new `COM` sets `com_id` |
| Orbits.Link | src/bin/day6.rs:46-47 | the orbiting node's parent becomes the center, the orbiting id is appended to the center's children, and nothing else about names changes |
| Orbits.AddOrbitTo | src/bin/day6.rs:44-48 | adding an orbit keeps the map well formed: distinct names have distinct ids, every name, child and parent id names a node, and `com_id` is set exactly when `COM` is known, to its id |
| Orbits.AddOrbitNames | src/bin/day6.rs:44-48 | after `add_orbit` the names are the old ones plus the center and the orbiting object, with the old ids unchanged |
| Orbits.AddOrbitNameMap | src/bin/day6.rs:45 | the name table is that of inserting the center, then the orbiting object |
| Orbits.AddOrbitLinks | src/bin/day6.rs:44-48 | after `add_orbit(c, o)`, o's parent is c and c's children are the old ones followed by o |
| Orbits.AddOrbitParents | src/bin/day6.rs:44-48 | every other node keeps its parent, and a new center has none |
| Orbits.AddOrbitTree | src/bin/day6.rs:44-48 | adding an orbit to an object that orbits nothing yet keeps the tree shape: every listed child has that node as its parent, and no list names a child twice |
| Orbits.Kids | src/bin/day6.rs:77 | there is one child list per node |
| Orbits.Overwrite | src/bin/day6.rs:74-75 | writing depths changes only the depths, and only of the given nodes |
| Orbits.WrittenStart | src/bin/day6.rs:74-75 | writing the root's depth is the first write of the subtree's depths |
| Orbits.WrittenStep | src/bin/day6.rs:78-80 | recursing into the next child writes that child's subtree, continuing the subtree's depths |
| Orbits.Chain | src/bin/day6.rs:100-109 | the parent chain starts at the node's parent, follows parent links, ends at a node without a parent, and is empty exactly for a parentless node |
| Orbits.ChainDistinct | src/bin/day6.rs:104-107 | the chain never visits a node twice |
| Orbits.ChainSuffix | src/bin/day6.rs:104-107 | the chain after its `k`-th entry is that entry's own chain |
| Orbits.Position | src/bin/day6.rs:144 | `position` finds the first index holding the id, or none when it is absent |
| Orbits.TransfersFrom | src/bin/day6.rs:142-148 | the loop result is 0 when no ancestor of YOU is an ancestor of SAN; otherwise it is `k + j` for the first such YOU-ancestor at `k` and its first index `j` in SAN's chain |
| Orbits.TransfersMeet | src/bin/day6.rs:142-148 | when the chains meet, the count is the index sum at their first meeting point |
| Orbits.TransfersShortest | src/bin/day6.rs:142-148 | on real parent chains, no common ancestor gives a smaller index sum than the one found, so the count is the minimum number of transfers |
| Orbits.DepthsTree | src/bin/day6.rs:68-81 | on a tree, the annotation gives the root the start depth and each child its parent's depth + 1 |
| Orbits.DepthCountsOrbits | src/bin/day6.rs:83-89 | the depth written for a node below `COM` is the length of its parent chain, which is its number of direct and indirect orbits |
| Orbits.ChecksumCountsOrbits | src/bin/day6.rs:87-89 | when each depth is the node's chain length, the sum of depths is the number of orbits |
| Orbits.ChecksumAll | src/bin/day6.rs:83-89 | after annotation from `COM`, the checksum is the total number of direct and indirect orbits |
| Orbits.AnnotatedDepth | src/bin/day6.rs:68-81 | after annotation from `COM`, each node's depth is its number of orbits |
| Orbits.ParseOrbit | src/bin/day6.rs:116-118 | a line with exactly one `)` splits into the center and the orbiting object around it |
| Orbits.ParseOrbits | src/bin/day6.rs:113-120 | there is one orbit per line, and each line is its center, `)` and the orbiting object |
| Orbits.BuildMap | src/bin/day6.rs:122-125 | building the map from the orbits keeps it well formed |
| Orbits.BuildMapSnoc | src/bin/day6.rs:123-125 | each loop iteration adds one orbit, in input order |
| Orbits.BuildMapNames | src/bin/day6.rs:122-125 | the map knows exactly the names in the orbits |
| Orbits.BuildMapParent | src/bin/day6.rs:122-125 | each node's parent is the center of the last orbit naming it as the orbiting object, or none |
| Orbits.BuildMapTree | src/bin/day6.rs:122-125 | when each object orbits at most one other, and never itself, the map is a tree |
| Orbits.NeverOrbiting | src/bin/day6.rs:122-125 | an object that never orbits anything has no parent |
| Orbits.ComParentless | src/bin/day6.rs:1-7 | `COM` has no parent when no line puts it in orbit |
| Orbits.TotalOrbits | src/bin/day6.rs:129-133 | for a tree below `COM`, part one's checksum is the number of direct and indirect orbits |
| Orbits.UniversalOrbitMap.constructor | src/bin/day6.rs:35-41 | `new` has no names, no nodes and no `COM` |
| Orbits.UniversalOrbitMap.InsertOrGetId | src/bin/day6.rs:50-63 | the method updates the fields and returns the id exactly as `InsertName` says |
| Orbits.UniversalOrbitMap.AddOrbit | src/bin/day6.rs:44-48 | the method updates the fields exactly as `AddOrbitTo` says |
| Orbits.UniversalOrbitMap.AnnotateDepthSubgraph | src/bin/day6.rs:73-81 | the recursion writes exactly the depths of the subtree, starting from `parent_depth + 1`, and changes nothing else |
| Orbits.UniversalOrbitMap.AnnotateDepth | src/bin/day6.rs:68-71 | the depths of the tree below `COM` are written, starting from 0 |
| Orbits.UniversalOrbitMap.GetChecksum | src/bin/day6.rs:87-89 | the checksum is the sum of the node depths |
| Orbits.UniversalOrbitMap.GetParentChain | src/bin/day6.rs:100-109 | an unknown name gives none; otherwise the loop returns the node's parent chain, nearest first |
| Orbits.MinOrbitTransfers | src/bin/day6.rs:142-148 | the loop computes the transfer count |
| Orbits.CreateMap | src/bin/day6.rs:112-127 | a fresh map holding every orbit of the input, in order |
| Orbits.PartOne | src/bin/day6.rs:129-133 | `part_one` gives the checksum of the depths annotated from `COM` |
| Orbits.PartTwo | src/bin/day6.rs:135-150 | `part_two` gives the transfer count between the parent chains of YOU and SAN |
| Reactions.SplitFormula | src/bin/day14.rs:16-22 | a formula splits iff `split("=>")` gives exactly two parts, else `InvalidInput`; the parts, joined by `=>`, give back the formula, and neither contains `=>` |
| Reactions.SplitReactant | src/bin/day14.rs:24-30 | a reactant splits iff it has exactly two words and the first parses as an `i64`; the result is `(name, quantity)`, taken from the second word and the first; a word count other than two is `InvalidInput` |
| Reactions.SplitReactantShow | src/bin/day14.rs:24-30 | writing a quantity and a name separated by a space and splitting again gives back the name and the quantity |
| Reactions.Intern | src/bin/day14.rs:45-48 | `entry(..).or_insert_with` keeps a known name's id and gives a new name the next id, `count + 1`, without changing any other id |
| Reactions.InternAll | src/bin/day14.rs:45-56 | interning a run of names keeps the ids numbered `1..n` without repeats |
| Reactions.InternAllAppend | src/bin/day14.rs:38-58 | interning two runs of names in turn is interning their concatenation |
| Reactions.Distinct | src/bin/day14.rs:45-56 | the names in order of first appearance hold exactly the names of the run |
| Reactions.InternMembers | src/bin/day14.rs:32-61 | from an empty table, the names that get an id are exactly the names met |
| Reactions.InternCount | src/bin/day14.rs:32-61 | the table has as many ids as there are distinct names |
| Reactions.InternOrder | src/bin/day14.rs:32-61 | the `i`-th distinct name in order of first appearance has id `i + 1` |
| Reactions.Reactants | src/bin/day14.rs:42-50 | the reactant loop gives one element per part, keeps the ids numbered and only adds ids |
| Reactions.AddFormula | src/bin/day14.rs:39-57 | one formula interns its names, reactants first and product last, keeping the ids numbered |
| Reactions.GenFrom | src/bin/day14.rs:38-58 | the line loop keeps the ids numbered and only adds ids |
| Reactions.Gen | src/bin/day14.rs:32-61 | the ids of `gen_reactions` are numbered `1..n` without repeats |
| Reactions.ReactantsIntern | src/bin/day14.rs:42-50 | the reactant loop interns the reactant names in order |
| Reactions.GenIntern | src/bin/day14.rs:38-58 | the line loop interns every name in the order it is met |
| Reactions.GenNumbering | src/bin/day14.rs:32-61 | each distinct name gets one id, numbered from 1 in order of first appearance; a repeated name keeps its id |
| Reactions.GenReactions | src/bin/day14.rs:32-61 | the nested loops with their counter and early returns compute the same table and ids as the specification |
| Reactions.ReactionsCover | src/bin/day14.rs:63-65 | for `n >= 0` and `q > 0`, `requiere_n_reactions(n, q)` is the least `k >= 0` with `k*q >= n`, and the surplus `k*q - n` lies in `[0, q)` |
| Reactions.Find | src/bin/day14.rs:74-77 | `find` gives the first entry with the product id, or none iff no entry has it |
| Reactions.FindProduct | src/bin/day14.rs:74-77 | with the keys enumerated, an id is found iff some reaction makes it, and the entry found is a reaction |
| Reactions.ProduceShort | src/bin/day14.rs:84-91 | when the stock falls short, `react` runs `ceil(short/q)` reactions, puts their surplus in the stock and then makes the reactants |
| Reactions.ProduceAllOre | src/bin/day14.rs:93-96 | an ORE reactant adds `k*qty` to the count |
| Reactions.ProduceAllRank | src/bin/day14.rs:97-103 | a non-ORE reactant ranks below its product, so the recursion ends |
| Reactions.ProduceAllReactant | src/bin/day14.rs:97-103 | a non-ORE reactant adds the ORE of making `k*qty` of it, and its stock carries over |
| Reactions.ProduceAllFails | src/bin/day14.rs:97-103 | the first error of a recursive call is the result (`?`) |
| Reactions.React | src/bin/day14.rs:67-107 | `react` returns the ORE count, or the error, and the stock afterwards that the specification gives: `UnknownElement` for an id with no reaction, 0 ORE when the stock covers the need, otherwise the reactions run and the reactants are made in turn |
| Reactions.ProduceFrame | src/bin/day14.rs:67-107 | `react` changes the stock of no element other than the product that ranks at least as high as it |
| Reactions.ProduceAllFrame | src/bin/day14.rs:91-104 | making the reactants leaves the stock of elements ranked at least as high as the product unchanged |
| Reactions.ProduceLeftover | src/bin/day14.rs:79-89 | if the stock covers the need, the product's stock drops by the need; otherwise its new stock lies in `[0, q)` |
| Reactions.ProduceNonNegative | src/bin/day14.rs:67-107 | with positive quantities and a non-negative stock, the ORE count and every stock stay non-negative |
| Reactions.ProduceAllNonNegative | src/bin/day14.rs:91-106 | the same for the reactant loop |
| Reactions.Lookup | src/bin/day14.rs:112-117 | a missing FUEL is `FuelTokenNotFound` and is checked first, then a missing ORE is `OreTokenNotFound`; otherwise the two ids |
| Reactions.OreReacts | src/bin/day14.rs:109-120 | once the formulas are read and FUEL and ORE found, the ORE for some FUEL is what `react` counts from an empty stock |
| Reactions.PartOne | src/bin/day14.rs:109-120 | `part_one` gives the ORE for one FUEL from an empty stock, or the first error |
| Reactions.Bisect | src/bin/day14.rs:132-150 | the search returns an amount below the budget that is affordable while one more is not (it costs more than `10^12` ORE or is the bound); an error is that of some amount tried |
| Reactions.PartTwo | src/bin/day14.rs:122-151 | `part_two` gives an amount of FUEL whose ORE is within `10^12` while one more exceeds it, or the error of reading or of some amount tried |
| FixedMachine.Fresh | src/bin/day2.rs:9-14 | a new machine's memory is 1024 zero cells |
| FixedMachine.Loaded | src/bin/day2.rs:16-21 | loading a program of at most 1024 cells into a fresh memory puts the program in the prefix and leaves the other cells 0 |
| FixedMachine.Peek | src/bin/day2.rs:23-25 | reading a cell succeeds iff the address is inside the memory, and gives that cell; an address outside it is a fault, where Rust panics |
| FixedMachine.Run | src/bin/day2.rs:31-62 | a run keeps the 1024-cell memory and uses no more than its fuel |
| FixedMachine.Continue | src/bin/day2.rs:57-60 | stepping on after an instruction keeps the memory size and the fuel bound |
| FixedMachine.ExecEffect | src/bin/day2.rs:37-60 | 99 halts; an opcode other than 1, 2 and 99 is a fault; 1 and 2 write `mem[r1]+mem[r2]` or `mem[r1]*mem[r2]` to cell `rd`, change no other cell and advance `pc` by 4; reading the operands past the end of memory is an out-of-bounds fault |
| FixedMachine.HaltedOnNinetyNine | src/bin/day2.rs:51-59 | a run that halts stops with `pc` on a 99 |
| FixedMachine.RunMoreFuel | src/bin/day2.rs:37-61 | more fuel does not change a run that finished, so the fuel bound only cuts off runs that do not halt |
| FixedMachine.SearchFrom | d02/src/main.rs:229-244 | the reported answers are `100*noun+verb` values in `0..10000`, in increasing order |
| FixedMachine.SearchFinds | d02/src/main.rs:227-244 | when every trial halts, `100*noun+verb` is reported iff the trial with that noun and verb leaves 19690720 in cell 0 |
| FixedMachine.DocumentedExample | d02/src/main.rs:37-72 | `1,9,10,3,2,3,11,0,99,30,40,50` first sets `mem[3]=70`, then `mem[0]=3500`, then halts on the 99 at 8 |
| FixedMachine.ExampleOne | src/bin/day2.rs:133-138 | `1,0,0,0,99` halts with `mem[0]=2` |
| FixedMachine.ExampleTwo | src/bin/day2.rs:140-145 | `2,3,0,3,99` halts with `mem[3]=6` |
| FixedMachine.ExampleThree | src/bin/day2.rs:147-152 | `2,4,4,5,99,0` halts with `mem[5]=9801` |
| FixedMachine.ExampleFour | src/bin/day2.rs:154-159 | `1,1,1,4,99,5,6,0,99` halts with `mem[0]=30` |
| FixedMachine.IntcodeISS.constructor | src/bin/day2.rs:9-14 | `new` gives a fresh array of 1024 zero cells and `pc` 0 |
| FixedMachine.IntcodeISS.LoadProgram | src/bin/day2.rs:16-21 | the program is copied into the first cells, and the other cells keep their values |
| FixedMachine.IntcodeISS.Poke | src/bin/day2.rs:27-29 | cell `i` becomes `val`, and no other cell changes |
| FixedMachine.IntcodeISS.Compute | src/bin/day2.rs:31-62 | the loop leaves the array, `pc` and status that `Run` gives |
| FixedMachine.IntcodeISS.Cycle | src/bin/day2.rs:38-60 | one iteration performs the instruction `Exec` describes; on halt or fault nothing changes |
| FixedMachine.EvalFresh | src/bin/day2.rs:86-93 | `eval` runs a fresh machine with the program loaded and the noun and verb at addresses 1 and 2, and returns cell 0 |
| FixedMachine.Search | d02/src/main.rs:227-244 | the nested loops report the answers the specification gives, each trial on a freshly loaded machine |
| FixedMachine.Trial | d02/src/main.rs:231-242 | one trial either ends the search or moves it on to the next noun and verb |
| IntcodeDecode.Split | src/bin/day13.rs:89-98 | the opcode is the word's last two digits and the three modes the next three digits; for a negative word every part is zero or negative, as Rust's truncating `/` and `%` give |
| IntcodeDecode.TruncatingSplit | src/bin/day5.rs:46-54 | the split equals the source's expressions evaluated with truncating division and remainder |
| IntcodeDecode.SplitRecombines | src/bin/day5.rs:46-54 | for a non-negative word the four parts recombine to the word's last five digits |
| IntcodeDecode.NegativeWordIsUnknown | src/bin/day5.rs:67-81 | a negative instruction word never decodes to a known opcode (no wrap to 99 as a Euclidean remainder would give) |
| IntcodeDecode.SplitEncode | src/bin/day13.rs:89-98 | encoding an opcode and three modes as a word and splitting it gives them back |
| SmallIntcode.AsAddr | src/bin/day5.rs:58-60 | the `as u32` cast: in range, it keeps non-negative values below 2^32 and adds 2^32 to negative ones down to -2^32 |
| SmallIntcode.Peek | src/bin/day5.rs:37-39 | reading succeeds exactly when the address is inside memory and then yields that cell |
| SmallIntcode.Fetch | src/bin/day5.rs:61-65 | mode 1 yields the parameter itself, mode 0 the cell it addresses, any other mode is an unknown-mode fault |
| SmallIntcode.TargetModeMustBePosition | src/bin/day5.rs:55-56 | decoding fails with a write-mode fault exactly when the instruction's fifth digit is not zero, for every opcode |
| SmallIntcode.UnknownOpcodeIsFatal | src/bin/day5.rs:67-81 | with a zero write mode, decoding fails with an unknown-opcode fault exactly when the opcode is not 1-8 or 99 |
| SmallIntcode.PerformEffect | src/bin/day5.rs:91-143 | the effect of each instruction: add/mul/lt/eq store their value (lt/eq store 0 or 1) and advance 4, get stores the next input and advances 2 or stops for input, put emits its operand and advances 2, jumps go to the target or advance 3, halt stops; writes outside memory are faults; memory length is unchanged |
| SmallIntcode.ExecIo | src/bin/day7.rs:100-107 | one step keeps the memory length, emits at most one value, consumes at most the first input, and starves only on empty input |
| SmallIntcode.RunIo | src/bin/day7.rs:94-145 | a run keeps memory length, consumes a prefix of the input, extends the output it was given, spends at most its fuel, and is out of fuel exactly when no fuel is left |
| SmallIntcode.RunInput | src/bin/day7.rs:94-145 | a run consumes a prefix of its input and starves only once the input is exhausted |
| SmallIntcode.RunMoreFuel | src/bin/day5.rs:91-144 | a run that stopped on its own ends in the same state with more fuel; only the fuel left grows |
| SmallIntcode.ExecExtends | src/bin/day7.rs:100-107 | appending input does not change a step that did not starve, other than the input carried along |
| SmallIntcode.Resume | src/bin/day7.rs:137-141 | a run that starved and is resumed with more input ends where the run on the joined input ends |
| SmallIntcode.OutputShift | src/bin/day7.rs:108-112 | the output of a run is what it was given followed by what the run itself emits |
| SmallIntcode.OutputPrefix | src/bin/day7.rs:108-112 | prefixing the output given to a run prefixes its final output the same way |
| SmallIntcode.StopsAt | src/bin/day7.rs:100-107 | a halted run stops on a halt instruction; a starved run stops on a get instruction with no input left |
| SmallIntcode.RunRunning | src/bin/day5.rs:139-143 | a run whose first step proceeds continues from that step's state with one unit of fuel less |
| SmallIntcode.RunStops | src/bin/day5.rs:136-142 | a run whose first step stops ends right there with that status |
| SmallIntcode.ExecTernary | src/bin/day5.rs:93-100 | an add/mul/lt/eq instruction stores its combined operands at its third parameter and advances by 4 |
| SmallIntcode.ExecGet | src/bin/day5.rs:101-107 | a get instruction stores the first input at its parameter, consumes it and advances by 2 |
| SmallIntcode.ExecPut | src/bin/day5.rs:109-113 | a put instruction emits its operand and advances by 2 |
| SmallIntcode.ExecJump | src/bin/day5.rs:114-127 | a jump instruction moves to its target when its test holds and otherwise advances by 3 |
| SmallIntcode.ExecStarve | src/bin/day7.rs:100-107 | a get instruction with no input stops the machine for input |
| SmallIntcode.ExecHalt | src/bin/day5.rs:136 | opcode 99 halts |
| SmallIntcode.RunTernary | src/bin/day5.rs:93-100 | a run starting on an add/mul/lt/eq continues from the updated memory at pc + 4 |
| SmallIntcode.RunGet | src/bin/day5.rs:101-107 | a run starting on a get continues with the input stored and consumed at pc + 2 |
| SmallIntcode.RunPut | src/bin/day5.rs:109-113 | a run starting on a put continues at pc + 2 with the operand appended to the output |
| SmallIntcode.RunJump | src/bin/day5.rs:114-127 | a run starting on a jump continues at the target or at pc + 3 |
| SmallIntcode.RunHalt | src/bin/day5.rs:136-142 | a run starting on opcode 99 ends halted with nothing changed |
| SmallIntcode.RunStarve | src/bin/day7.rs:100-107 | a run starting on a get with no input ends starved with nothing changed |
| IoMachine.Fatal | src/bin/day5.rs:101-107 | running out of input is a fault in this machine (the source's `expect` panics); every other status is kept |
| IoMachine.IntcodeISS.constructor | src/bin/day5.rs:24-31 | a copy of the program, pc 0, the whole input unread, no output |
| IoMachine.IntcodeISS.Poke | src/bin/day5.rs:41-43 | writes the cell when the address is inside memory (otherwise the indexing panic, reported as `false`); nothing else changes |
| IoMachine.IntcodeISS.Cycle | src/bin/day5.rs:91-143 | one decode-and-execute step leaves exactly the state the step function gives, appending its output |
| IoMachine.IntcodeISS.Execute | src/bin/day5.rs:92-143 | executing one decoded instruction leaves exactly the state the step function gives |
| IoMachine.IntcodeISS.Compute | src/bin/day5.rs:84-145 | the loop ends in the state the fuelled run gives, with running out of input turned into a fault |
| IoMachine.EqualsEightPosition | src/bin/day5.rs:240-251 | the position-mode program outputs 1 when the input equals 8 and 0 otherwise, for every input |
| IoMachine.LessThanEightPosition | src/bin/day5.rs:253-266 | the position-mode program outputs 1 when the input is below 8 and 0 otherwise, for every input |
| IoMachine.EqualsEightImmediate | src/bin/day5.rs:268-279 | the immediate-mode program outputs 1 when the input equals 8 and 0 otherwise, for every input |
| IoMachine.LessThanEightImmediate | src/bin/day5.rs:281-294 | the immediate-mode program outputs 1 when the input is below 8 and 0 otherwise, for every input |
| IoMachine.JumpPosition | src/bin/day5.rs:296-307 | the position-mode jump program outputs 0 for input 0 and 1 for any other input |
| IoMachine.JumpImmediate | src/bin/day5.rs:309-320 | the immediate-mode jump program outputs 0 for input 0 and 1 for any other input |
| IoMachine.CompareEight | src/bin/day5.rs:322-341 | the larger program outputs 999 below 8, 1000 at 8 and 1001 above 8, for every input |
| IoMachine.MultiplyPositionImmediate | src/bin/day5.rs:229-233 | 1002,4,3,4,33 halts with 99 at address 4 |
| IoMachine.AddImmediate | src/bin/day5.rs:235-237 | 1101,100,-1,4,0 halts with 99 at address 4 |
| IoMachine.AddExample | src/bin/day5.rs:201-206 | 1,0,0,0,99 halts with 2 at address 0 |
| IoMachine.MultiplyExample | src/bin/day5.rs:208-213 | 2,3,0,3,99 halts with 6 at address 3 |
| IoMachine.SquareExample | src/bin/day5.rs:215-220 | 2,4,4,5,99,0 halts with 9801 at address 5 |
| IoMachine.SelfModifyingExample | src/bin/day5.rs:222-227 | 1,1,1,4,99,5,6,0,99 halts with 30 at address 0 |
| SuspendMachine.IntcodeISS.constructor | src/bin/day7.rs:28-33 | a copy of the program with pc 0 |
| SuspendMachine.IntcodeISS.Peek | src/bin/day7.rs:35-37 | reading succeeds exactly inside memory and yields that cell |
| SuspendMachine.IntcodeISS.Poke | src/bin/day7.rs:39-41 | writes the cell when the address is inside memory; pc is unchanged |
| SuspendMachine.IntcodeISS.Cycle | src/bin/day7.rs:91-141 | one step leaves exactly the state the step function gives |
| SuspendMachine.IntcodeISS.Execute | src/bin/day7.rs:91-141 | executing one decoded instruction leaves exactly the state the step function gives |
| SuspendMachine.IntcodeISS.Compute | src/bin/day7.rs:82-145 | the stop reason, the output and the new memory and pc are those of the fuelled run on the given input, starting from an empty output |
| SuspendMachine.SuspendResume | src/bin/day7.rs:100-107 | stopping for input and resuming with more input gives the same final state as one run on all of the input, outputs concatenated |
| SuspendMachine.HaltedStaysHalted | src/bin/day7.rs:187-199 | computing again on a halted machine halts at once with no output, whatever the input |
| Combinations.Remove | src/bin/day7.rs:211-213 | removing one element leaves one fewer and exactly the multiset minus that element |
| Combinations.GenCombinations | src/bin/day7.rs:204-223 | the recursive swap-and-pop enumeration yields exactly the arrangement sequence (including the empty result for an empty input) |
| Combinations.SwapStep | src/bin/day7.rs:211-220 | after the swap at step i the vector is the i-th swapped arrangement, and popping leaves the input with element i removed (the swaps are never undone) |
| Combinations.SwappedAt | src/bin/day7.rs:211-220 | the element layout of the vector after step i |
| Combinations.Fact | src/bin/day7.rs:204-223 | factorial is positive |
| Combinations.ArrangementsCount | src/bin/day7.rs:204-223 | a non-empty input of length n yields n! arrangements |
| Combinations.ArrangementsArePermutations | src/bin/day7.rs:204-223 | every arrangement is a permutation of the input |
| Combinations.ArrangementsComplete | src/bin/day7.rs:204-223 | every permutation of a non-empty input is among the arrangements |
| Combinations.ArrangementsDistinct | src/bin/day7.rs:204-223 | distinct elements give pairwise distinct arrangements |
| Combinations.TwoElements | src/bin/day7.rs:278-282 | the arrangements of 0,1 are [0,1] then [1,0] |
| Amplifiers.SetupStep | src/bin/day7.rs:176-182 | launching one amplifier with its phase and the current signal appends it to the chain and passes its first output on |
| Amplifiers.SetupSplit | src/bin/day7.rs:164-168 | setting up a chain over a prefix and then resuming over the rest is setting up over the whole |
| Amplifiers.SetupKeeps | src/bin/day7.rs:176-182 | a successful setup keeps the amplifiers already built and adds one per remaining phase |
| Amplifiers.EvalAmpChain | src/bin/day7.rs:162-170 | the series loop returns the chain signal: each amplifier gets its phase and the previous output, starting from 0 |
| Amplifiers.EvalAmpChainLoopback | src/bin/day7.rs:172-202 | the feedback loop keeps the five machines, passes each output on, and returns the last signal once the last amplifier halts |
| Amplifiers.BestIsMaximum | src/bin/day7.rs:235-237 | the fold returns a value at least its start, no smaller than any setting's signal, and equal to the start or to one setting's signal; a failure comes from one setting |
| Amplifiers.BestOfArrangements | src/bin/day7.rs:225-255 | over all arrangements of the phases, the best signal is at least the signal of every permutation and is attained by one (or is 0) |
| AmplifierTests.SeriesOneLaunch | src/bin/day7.rs:440-447 | the first series program outputs ten times the signal plus the phase |
| AmplifierTests.SeriesOneChain | src/bin/day7.rs:440-447 | the first series program's chain signal is the phases read as decimal digits |
| AmplifierTests.SeriesOneExample | src/bin/day7.rs:440-447 | phases 4,3,2,1,0 give 43210 |
| AmplifierTests.SeriesTwoLaunch | src/bin/day7.rs:449-457 | the second series program outputs ten times the signal plus five minus the phase |
| AmplifierTests.SeriesTwoExample | src/bin/day7.rs:449-457 | phases 0,1,2,3,4 give 54321 |
| AmplifierTests.SeriesThreeLaunch | src/bin/day7.rs:459-467 | the third series program's output for any phase and signal |
| AmplifierTests.SeriesThreeExample | src/bin/day7.rs:459-467 | phases 1,0,4,3,2 give 65210 |
| AmplifierTests.LoopStart | src/bin/day7.rs:469-477 | the feedback program reads phase and signal, emits the amplified signal and pauses for input with its counter at 4 |
| AmplifierTests.LoopPass | src/bin/day7.rs:469-477 | a paused amplifier with more rounds left emits the amplified signal and pauses again with its counter one lower |
| AmplifierTests.LoopLast | src/bin/day7.rs:469-477 | on its last round the amplifier emits the amplified signal and halts |
| AmplifierTests.StartWrites | src/bin/day7.rs:469-477 | overwritten cells keep only their last write (start of the program) |
| AmplifierTests.PassWrites | src/bin/day7.rs:469-477 | overwritten cells keep only their last write (one loop pass) |
| AmplifierTests.LoopSetup | src/bin/day7.rs:174-184 | setting up the feedback program over any phases succeeds, pauses every amplifier and yields the signal threaded through all of them |
| AmplifierTests.LoopRound | src/bin/day7.rs:190-194 | one round through the paused amplifiers threads the signal, keeps the amplifiers already passed and halts exactly when the counter reaches 1 |
| AmplifierTests.LoopFeedback | src/bin/day7.rs:187-199 | the feedback loop ends with the signal after the remaining rounds |
| AmplifierTests.LoopOneAnswer | src/bin/day7.rs:469-477 | for every phase list, the feedback program's result is the signal threaded through four rounds |
| AmplifierTests.LoopOneExample | src/bin/day7.rs:469-477 | phases 9,8,7,6,5 give 139629729 |
| FullMachine.Load | src/bin/day13.rs:40-46 | a fresh machine holds the program with pc 0 and relative base 0 |
| FullMachine.PageEndIsLeastPageAbove | src/bin/day13.rs:48-51 | growth rounds the address up to the least multiple of the 1024-cell page strictly above it |
| FullMachine.Zeros | src/bin/day13.rs:48-51 | the growth fill is zeros of the requested length |
| FullMachine.ResizedKeepsPrefix | src/bin/day13.rs:48-51 | growing memory keeps every existing cell and reaches the page end |
| FullMachine.TouchCovers | src/bin/day13.rs:53-60 | after a read the address is inside memory and no existing cell has changed |
| FullMachine.ExtendsReads | src/bin/day13.rs:53-60 | growing memory changes no value a read can see |
| FullMachine.PeekKeepsContents | src/bin/day13.rs:53-60 | reading beyond memory yields 0, and growth on read changes no cell's value |
| FullMachine.PokeThenPeek | src/bin/day13.rs:62-69 | a write is read back at its address and leaves every other address's value alone |
| FullMachine.AddrOf | src/bin/day13.rs:71-78 | target addresses: modes 0 and 1 take the parameter, mode 2 adds the relative base, other modes fail |
| FullMachine.FetchOperand | src/bin/day13.rs:80-87 | operands: mode 1 is the parameter, mode 0 reads the cell it names, mode 2 reads relative to the base; unknown modes and negative addresses fail |
| FullMachine.OperandValue | src/bin/day13.rs:80-87 | the reference operand value exists exactly for mode 1, mode 0 with a non-negative address and mode 2 with a non-negative relative address |
| FullMachine.RefOperandsReads | src/bin/day13.rs:100-128 | decoding depends only on the values reads see, not on how far memory has grown |
| FullMachine.UnknownOpcodeIsFatal | src/bin/day13.rs:103-134 | an instruction word whose opcode is not 1-9 or 99 is an unknown-opcode fault, and only then |
| FullMachine.ExtendsTransitive | src/bin/day13.rs:48-51 | growing twice is growing |
| FullMachine.ExtendsReflexive | src/bin/day13.rs:48-51 | memory extends itself |
| FullMachine.FetchAgrees | src/bin/day13.rs:80-87 | the growing operand fetch agrees with the reference value and only grows memory |
| FullMachine.FetchAgain | src/bin/day13.rs:80-87 | fetching again from grown memory gives the same operand without further growth |
| FullMachine.OperandsAgree | src/bin/day13.rs:100-134 | the growing decoder yields the reference instruction or the same fault, and only grows memory |
| FullMachine.PairAgrees | src/bin/day13.rs:104-127 | the same agreement for the three-operand and jump instructions |
| FullMachine.DecodeUnfold | src/bin/day13.rs:89-102 | decoding first reads the word and the three parameter cells after pc, growing memory to cover them even when the instruction does not use them |
| FullMachine.DecodeAgrees | src/bin/day13.rs:89-134 | decoding at an address yields the reference instruction or the same fault, and only grows memory |
| FullMachine.DecodeAgain | src/bin/day13.rs:89-134 | decoding again from the grown memory gives the same instruction and memory |
| FullMachine.DecodeGrown | src/bin/day13.rs:89-102 | on memory that already covers the address and the three cells after pc, decoding reads the word and those cells as they were and grows nothing further |
| FullMachine.TouchedInside | src/bin/day13.rs:53-60 | reads inside memory do not grow it |
| FullMachine.OperandsAgain | src/bin/day13.rs:100-134 | decoding operands again from the grown memory changes nothing |
| FullMachine.DecodeInside | src/bin/day13.rs:89-102 | when pc + 3 is inside memory, decoding uses the cells as they are |
| FullMachine.DecodeFaultCrashes | src/bin/day13.rs:130-133 | a decoding fault (unknown opcode or mode, negative address) stops the machine with that fault |
| FullMachine.StoreStep | src/bin/day13.rs:147-154 | add/mul/lt/eq store a+b, a*b, a<b as 1/0, a==b as 1/0 at the target and advance 4; a negative target is a fault |
| FullMachine.StoreKeeps | src/bin/day13.rs:147-154 | a store that proceeds keeps every other cell and never shrinks memory |
| FullMachine.InputStep | src/bin/day13.rs:155-162 | a get with input stores the first value and advances 2; without input the machine stops for input at the same instruction, and retrying it later behaves as from the start |
| FullMachine.OutputStep | src/bin/day13.rs:163-166 | a put emits its operand and advances 2 |
| FullMachine.JumpStep | src/bin/day13.rs:167-180 | a jump goes to its target when its test holds and otherwise advances 3; a negative taken target is a fault |
| FullMachine.RelativeBaseStep | src/bin/day13.rs:189-192 | opcode 9 adds its operand to the relative base and advances 2 |
| FullMachine.HaltStep | src/bin/day13.rs:193-199 | opcode 99 stops with the program-halt reason at the same pc |
| FullMachine.DriveOutputAppends | src/bin/day13.rs:144-203 | the run's output is what it was given followed by what it emits |
| FullMachine.RunOutputAppends | src/bin/day13.rs:144-203 | the same for the machine's own step function |
| FullMachine.DriveMoreFuel | src/bin/day13.rs:145-201 | a run that stopped on its own ends the same way with more fuel |
| FullMachine.ExecMoreInput | src/bin/day13.rs:155-162 | a step that proceeds is unaffected by further input, and the machine stops for input only when none is left |
| FullMachine.PerformMoreInput | src/bin/day13.rs:155-162 | the same for executing a decoded instruction |
| FullMachine.ExecIsResumable | src/bin/day13.rs:155-162 | the step function ignores unused input and retries the get after a stop for input |
| FullMachine.DriveResume | src/bin/day13.rs:137-204 | stopping for input and computing again with more input reaches what one run on all input reaches |
| FullMachine.RunResume | src/bin/day13.rs:137-204 | the same for the machine's own step function |
| FullMachine.ExecResumes | src/bin/day13.rs:155-162 | the state left by a stop for input steps exactly like the state before it |
| FullMachine.PerformSuspends | src/bin/day13.rs:155-162 | executing stops for input exactly on a get with no input, leaving the state as it was |
| FullMachine.ExecPerforms | src/bin/day13.rs:146 | a step executes the decoded instruction on the memory decoding left |
| FullMachine.RunRunning | src/bin/day13.rs:196-198 | a run whose first step proceeds continues from that step's state |
| FullMachine.RunStops | src/bin/day13.rs:199 | a run whose first step stops ends there with that reason |
| FullMachine.RunCrashes | src/bin/day13.rs:76 | a run whose first step faults ends there with that fault |
| FullMachineIss.IntcodeISS.constructor | src/bin/day13.rs:40-46 | `new` copies the program into memory with pc 0 and relative base 0 |
| FullMachineIss.IntcodeISS.ResizeMem | src/bin/day13.rs:48-51 | memory becomes the old memory zero-filled up to the page end above the address; pc and base are untouched |
| FullMachineIss.IntcodeISS.Peek | src/bin/day13.rs:53-60 | the value read is the cell, or 0 beyond memory, and memory grows only when the address is outside it |
| FullMachineIss.IntcodeISS.Poke | src/bin/day13.rs:62-69 | the cell is set, growing memory first when the address is outside it |
| FullMachineIss.IntcodeISS.AddrFetch | src/bin/day13.rs:71-78 | the target address for modes 0, 1 and 2, and an unknown-mode fault otherwise |
| FullMachineIss.IntcodeISS.Fetch | src/bin/day13.rs:80-87 | the operand for modes 0, 1 and 2 with the memory growth its read causes; an unknown mode or a negative address is a fault that changes nothing |
| FullMachineIss.IntcodeISS.Decode | src/bin/day13.rs:89-135 | decoding at an address gives the instruction and grown memory of the reference decoder, or its fault |
| FullMachineIss.IntcodeISS.ResolveOperands | src/bin/day13.rs:103-134 | the opcode dispatch of `decode` agrees with the reference operand decoder |
| FullMachineIss.IntcodeISS.ResolveTernary | src/bin/day13.rs:104-127 | add, mul, lt and eq take a target and two operands, as the reference decoder does |
| FullMachineIss.IntcodeISS.ResolveJump | src/bin/day13.rs:116-117 | the two jumps take a test operand and a target operand, as the reference decoder does |
| FullMachineIss.IntcodeISS.Compute | src/bin/day13.rs:137-204 | `compute` returns the status and output of the reference run, and leaves the machine in the run's final state unless it faulted |
| FullMachineIss.IntcodeISS.Tick | src/bin/day13.rs:145-201 | one pass of the loop either continues exactly as the reference run continues or stops with the run's result |
| FullMachineIss.IntcodeISS.Cycle | src/bin/day13.rs:146-200 | one decode-and-execute step gives the reference step, and the machine holds its next state |
| FullMachineIss.IntcodeISS.Perform | src/bin/day13.rs:147-200 | executing a decoded instruction gives the reference effect on the machine |
| FullMachineTests.CopyLoopHolds | src/bin/day9.rs:406 | every instruction of the self-copying program steps as its loop needs: each pass emits the next cell and moves the base by one |
| FullMachineTests.BoostCopiesItself | src/bin/day9.rs:403-409 | the self-copying program halts with its own text as output |
| FullMachineTests.SquaresHold | src/bin/day9.rs:413 | the product program multiplies, outputs the product and halts |
| FullMachineTests.BoostSixteenDigits | src/bin/day9.rs:411-417 | the product program halts with exactly one output, 34915192 squared, which has sixteen digits |
| FullMachineTests.BoostLargeValue | src/bin/day9.rs:419-423 | the large-value program halts and outputs 1125899906842624 |
| FullMachineTests.StoreRuns | src/bin/day9.rs:261-287 | an add or multiply with a non-negative target hands the run on four cells further, with the sum or product at the target and every other cell unchanged |
| FullMachineTests.HaltRuns | src/bin/day9.rs:261-287 | a 99 ends the run halted, with every cell reading as before |
| FullMachineTests.PositionAddExample | src/bin/day9.rs:261-266 | `1,0,0,0,99` halts with 2 in cell 0 |
| FullMachineTests.PositionMultiplyExample | src/bin/day9.rs:268-273 | `2,3,0,3,99` halts with 6 in cell 3 |
| FullMachineTests.PositionSquareExample | src/bin/day9.rs:275-280 | `2,4,4,5,99,0` halts with 9801 in cell 5 |
| FullMachineTests.PositionSelfModifyingExample | src/bin/day9.rs:282-287 | `1,1,1,4,99,5,6,0,99` overwrites its own 99 and halts with 30 in cell 0 |
| Arcade.TileFrom | src/bin/day13.rs:232-244 | ids 0 to 4 name the five tiles in order; any other id is an invalid-tile error |
| Arcade.TileIdRoundTrip | src/bin/day13.rs:223-244 | each tile reads back from its id |
| Arcade.Insert | src/bin/day13.rs:261-277 | the screen grows to row `y` and column `x` with empty cells, the cell shows the tile, no other cell changes, and drawing the ball or the paddle records its column |
| Arcade.InsertShows | src/bin/day13.rs:261-277 | after drawing, the cell shows the tile and every other cell shows what it showed before |
| Arcade.TallyAfterInsert | src/bin/day13.rs:296-298 | drawing changes the count of a visible tile by what it overwrote and what it drew; padding adds no counted tile |
| Arcade.Screen.constructor | src/bin/day13.rs:253-259 | `Screen::new` has no rows and both columns at 0 |
| Arcade.Screen.InsertTile | src/bin/day13.rs:261-277 | the screen afterwards is `Insert` of the screen before |
| Arcade.Screen.Draw | src/bin/day13.rs:313-316 | part one's loop over triples paints the screen, or returns the first triple's error |
| Arcade.Screen.Show | src/bin/day13.rs:335-342 | part two's loop sets the score on a score triple and draws every other triple, or returns the first error |
| Arcade.Place | src/bin/day13.rs:315 | a triple converts when both coordinates are non-negative and the id names a tile; the error is the first failing conversion, x then y then the id |
| Arcade.PaintSucceedsIff | src/bin/day13.rs:313-316 | painting fails exactly when some triple has a negative coordinate or an unknown tile id |
| Arcade.PaintLastWins | src/bin/day13.rs:313-316 | every cell of the painted screen shows the last tile drawn there, or what it showed before |
| Arcade.Tiles | src/bin/day13.rs:335-342 | the drawing triples are whole triples taken from the output |
| Arcade.UpdateSplits | src/bin/day13.rs:335-342 | a batch ends with the score of its last score triple and draws the screen as painting its other triples would |
| Arcade.Joystick | src/bin/day13.rs:351-355 | the joystick holds its value when ball and paddle are level; otherwise it is -1 or 1 and moves the paddle one column toward the ball |
| Arcade.Coin | src/bin/day13.rs:323-324 | part two's machine holds 2 at address 0, the program elsewhere, with pc and base 0 |
| Arcade.BlockCountSucceedsIff | src/bin/day13.rs:301-318 | part one has an answer exactly when the program halts, outputs whole triples and every triple can be drawn |
| Arcade.PlayMoreRounds | src/bin/day13.rs:329-360 | allowing more rounds does not change a finished game's score |
| Arcade.PlayMoreFuel | src/bin/day13.rs:329-360 | allowing each `compute` more instructions does not change a finished game's score |
| Arcade.PartOne | src/bin/day13.rs:301-318 | the block count computed on the machine and screen objects is the reference block count |
| Arcade.PartTwo | src/bin/day13.rs:320-363 | the score computed on the machine and screen objects is the reference final score |

## Left out

- File, command-line and console I/O: the input is an argument of every entry point. This covers `read_program_from_file`, `read_input`, `std::env::args`, `process::exit`, the `println!` reports and the `dbg!` in `decode`.
- `Screen::render` (`src/bin/day13.rs:279-294`) and the `visualize` branch (`src/bin/day13.rs:344-349`) only draw to the terminal and sleep. Neither feeds anything back into the game.
- `src/lib.rs` only boxes and displays an error type. The model uses its own error datatypes.
- The tests that check puzzle answers against input files are not modelled, because those files are not part of this model. Examples are `src/bin/day13.rs:375-383`, `src/bin/day7.rs:268-276`, `src/bin/day6.rs:166-176` and `src/bin/day12.rs:208-216`.
- Passwords.CountValid: the count over the puzzle range `[236491, 713787)` is stated for any range. Its value is not computed.
- Fixed-width integers: cells and quantities are unbounded `int`s. The model has no `i32`, `i64` or `u32` overflow, so an overflow panic or wrap-around in the source is not reproduced. This includes the `u32` add and multiply of day 2's cells (`src/bin/day2.rs:44`, `:48`), whose cells `FixedMachine` models as naturals.
- The address casts are modelled, each in its own way:
  - `SmallIntcode` models the `as u32` cast of an `i32` cell used as an address with `AsAddr`.
  - `FixedMachine` needs no cast. Its cells are naturals, and the `i as usize` of a `u32` address (`src/bin/day2.rs:24`, `:28`) loses nothing.
  - `FullMachine` turns a negative `as Addr` operand into a `NegativeAddress` fault. In the source the wrapped address would make `resize_mem` fail.
- Termination: every machine run takes a `fuel` bound on the number of instructions, and runs out of fuel as a distinct outcome. The same holds for the `rounds` bound on the day-13 game loop (`Arcade.Play`) and on the day-7 feedback loop (`Amplifiers.Loopback`). A program that never halts is therefore not told apart from one that needs more fuel than given.
- The day-12 `part_two` cycle search (`src/bin/day12.rs:162-188`) loops until a state repeats and has no termination measure. Only the final `lcm` fold of the per-axis periods is modelled (`Divisibility.LcmFold`).
- Reactions: the iteration order of the Rust `HashMap` in `react` is an `order` parameter.
  - `Enumerates` says that `order` lists every element once.
  - The recursion is modelled only for acyclic formulas. A `rank` map witnesses the acyclicity (`Ranked`).
  - A product quantity of zero would panic on division. It is excluded by `Yielding`.
- Reactions.Bisect: the result is bracketed: the ORE for it is within the budget, and one more FUEL either exceeds the budget or is the bound of the search. The ORE count is not proved monotone in the amount of FUEL, so the model does not claim that the bracketed amount is the largest affordable one.
- Reactions: the 31 and 165 ORE examples and the larger examples are not modelled, because evaluating `react` on them is too costly for the verifier.
- Orbits: the checksum of 42 and the parent chain `[2,1,0]` of the example map are not modelled, because evaluating the whole example is too costly for the verifier.
- Orbits.TotalOrbits: requires the map to be a tree below `COM`. This is the shape the source assumes, and its depth recursion would not terminate on a cycle.
- Orbits: the `min_orbit_transfers as i32` cast of part two's `usize` result (`src/bin/day6.rs:149`) is not modelled; the count is unbounded.
- Asteroids: of the visibility examples, only the belt of the 5×5 map is modelled (`Asteroids.Example1Belt`). The counts 7, 6, 5 and 8 of that map (`src/bin/day10.rs:91-100`) and 33, 35, 41 and 210 of the larger maps (`src/bin/day10.rs:118`, `:136`, `:154`, `:182`) need whole direction sets over concrete maps and are too costly for the verifier.
- Wires: the example distances 6, 159 and 135 and the fewest-step values 30, 610 and 410 are not modelled, for the same reason. `actionize`'s panic on an unknown letter is the error `UnknownDirection`.
- Amplifiers: the second feedback-loop example (18216) is not modelled. The first example (139629729) is.
- SpaceImage: the `unwrap` of a pixel with no visible layer (`src/bin/day8.rs:56-62`) becomes `None` from `Visible` instead of a panic.
- Fft.PartTwo: requires three things of the ten-thousand-fold signal, each a panic in `part_two`:
  - at least 7 digits, for the slice `input[0..7]` that reads the offset (`src/bin/day16.rs:94`);
  - an offset past the middle, the `assert!` at `src/bin/day16.rs:100`;
  - an offset at least 8 before the end. Otherwise the final `input[0..8]` (`src/bin/day16.rs:121`) panics after `input = input[offset..]` (`src/bin/day16.rs:116`). When the offset equals the length, `len - 1` (`src/bin/day16.rs:59`) underflows first.
- Text.Trim: whitespace is the fixed set of Unicode white-space characters. Trim has no contract of its own.
- Wires.UnrollAction: requires a non-negative step count. The panic of `reserve` on a negative count (`src/bin/day3.rs:36`) is reported by `Wires.ComputeWire` as `NegativeSteps` before the call.
- FixedMachine.Loaded: requires `|prog| <= MEM_SIZE`, the `assert!` of `load_program` (`src/bin/day2.rs:17`, `d02/src/main.rs:143`).
- FixedMachine.IntcodeISS.LoadProgram: requires `|prog| <= MEM_SIZE`, the same `assert!`.
- SpaceImage.Layers: requires a non-zero layer size and an image that is a whole number of layers, the `assert_eq!` at `src/bin/day8.rs:5` (and the division by a zero layer size).
- SpaceImage.FewestZeros: requires every layer to hold fewer than `usize::MAX` pixels, so that the first layer always replaces the initial minimum `std::usize::MAX` (`src/bin/day8.rs:29-36`). A Rust `Vec` never holds that many elements, so no caller violates it.
- Divisibility.Lcm: requires one argument to be non-zero, because `lcm` divides by their gcd (`src/bin/day12.rs:14`). The day-12 fold only passes positive periods. The `u64` overflow of `a * b` is not modelled; numbers are unbounded.
- SpaceImage.PartOne: requires at least one layer, because indexing the layer with the fewest zeros (`src/bin/day8.rs:41`) panics on an empty image.
- Fft.FFTPattern.constructor: requires `repeat != 0`, the `assert!` at `src/bin/day16.rs:13`.
- Fft.Triangular: requires a non-empty input, because `len - 1` (`src/bin/day16.rs:59`) underflows on an empty one.
- Fft.ComputeFftPhaseTriangular: requires a non-empty input, for the same reason.
- Fft.PartOne: requires at least 8 digits, because the slice `input[0..8]` (`src/bin/day16.rs:84`) panics on a shorter signal.
- Orbits.ParseOrbit: requires exactly two pieces around `)`, the `assert_eq!` at `src/bin/day6.rs:117`.
- Orbits.ParseOrbits: requires every line to satisfy that `assert_eq!` (`WellFormed`).
- Orbits.PartOne: requires `WellFormed` input and a `COM` node, the `expect` at `src/bin/day6.rs:69`. It also requires `ChildRanked`, a ranking that rules out cycles: on a cycle the recursion of `annotate_depth_subgraph` (`src/bin/day6.rs:73-81`) never ends.
- Orbits.PartTwo: requires `WellFormed` input and `YOU` and `SAN` nodes, the `unwrap`s at `src/bin/day6.rs:138-139`. It also requires `ParentRanked`, which rules out cycles: on a cycle the `while let` loop of `get_parent_chain` (`src/bin/day6.rs:104`) never ends.
- Orbits.UniversalOrbitMap.GetParentChain: requires `ParentRanked`, for the same reason.
- Orbits.UniversalOrbitMap.AnnotateDepthSubgraph: requires `ChildRanked`, a ranking of the child lists that rules out cycles: on a cycle its recursion (`src/bin/day6.rs:73-81`) never ends.
- Orbits.UniversalOrbitMap.AnnotateDepth: requires a `COM` node, the `expect` at `src/bin/day6.rs:69`, and `ChildRanked`, for the same reason.
- Orbits.CreateMap: requires `WellFormed` input, the `assert_eq!` at `src/bin/day6.rs:117`.
- FixedMachine.IntcodeISS.Poke: requires `i < mem.Length`, because `self.mem[i as usize]` (`src/bin/day2.rs:28`) panics outside the 1024 cells.
- FixedMachine.EvalFresh: requires `|prog| <= MEM_SIZE`, the `assert!` of `load_program` (`src/bin/day2.rs:17`). `FixedMachine.Search`, `FixedMachine.Trial` and `FixedMachine.SearchFrom` require the same.
- Fft.Take: requires `repeat != 0`, the `assert!` of `FFTPattern::new` (`src/bin/day16.rs:13`). `Fft.PatternAt` requires the same.
- Fft.TriangularPhases: requires a non-empty input, like `Fft.Triangular`.
- Asteroids.Normalize: requires a non-zero offset, because `normalize` (`src/bin/day10.rs:41-44`) divides by a gcd of zero for the zero offset. `compute_visible` filters out the station itself before it normalises (`src/bin/day10.rs:49`), so no caller passes one.
- SpaceImage.Visible: requires pixel `p` to exist in every layer, because `layer[p]` (`src/bin/day8.rs:59`) panics otherwise. `parse_space_image_format` makes every layer `w * h` pixels long.
- SpaceImage.Composite: requires every layer to hold the `size` pixels it composites, for the same `layer[p]`.
- RustInt.TDiv: requires a non-zero divisor, because Rust's `/` panics on zero. `RustInt.TRem` requires the same for `%`.
- Text.SplitOn: requires a non-empty pattern. Rust's `split("")` splits between every character, which this function does not model; the only pattern used is `=>` (`src/bin/day14.rs:17`).
- Wires.FirstIndex: requires the position to be on the wire, the `unwrap` of `position` at `src/bin/day3.rs:70-71`. The positions it is asked about are crossings, which lie on both wires.
- Reactions.React: requires `Setting`: `order` lists every element once, the formulas are acyclic (`Ranked`) and no product quantity is zero (`Yielding`). See the Reactions line above. `Reactions.PartOne` and `Reactions.PartTwo` require the same through `Runs`.
- Reactions.PartTwo: like `Reactions.Bisect`, its result is bracketed but not claimed to be the largest amount of FUEL a trillion ORE makes. The ORE for it is within `10^12`, and one more FUEL exceeds that or is the bound of the search. `part_two` (`src/bin/day14.rs:122-151`) returns the largest affordable amount only because the ORE count grows with the FUEL asked for, which the model does not prove.
- `HashSet`/`HashMap` become Dafny `set`/`map`. Their iteration order matters only in `react`, where it is the `order` parameter.
