/**
 * The fuel counter of day 1 (`d01/src/main.rs`): each module needs
 * `mass / 3 - 2` fuel, with Rust's division truncating toward zero; the
 * second part also fuels the fuel, repeating the formula on each added
 * amount until it turns negative.
 */
module Fuel {
  import opened RustInt

  /** The fuel for one mass: a third of it, rounded toward zero, less 2. */
  function ModuleFuel(mass: int): (f: int)
    ensures mass >= 0 ==> 3 * (f + 2) <= mass < 3 * (f + 2) + 3
    ensures mass < 0 ==> 3 * (f + 2) - 3 < mass <= 3 * (f + 2) && f <= -2
    ensures f >= 0 ==> f < mass
  {
    TDiv(mass, 3) - 2
  }

  /** Part one: the sum of the modules' fuel. */
  function FuelSum(masses: seq<int>): int
  {
    if |masses| == 0 then 0 else ModuleFuel(masses[0]) + FuelSum(masses[1..])
  }

  /**
   * The fuel for a module and for its fuel, in turn: the amounts the loop
   * adds, up to but not including the first negative one.
   */
  function Tower(mass: int): (t: int)
    ensures t >= 0
    ensures ModuleFuel(mass) >= 0 ==> t >= ModuleFuel(mass)
    ensures ModuleFuel(mass) < 0 ==> t == 0
    decreases if mass < 0 then 0 else mass
  {
    var f := ModuleFuel(mass);
    if f < 0 then 0 else f + Tower(f)
  }

  /** The loop in part two's closure: total fuel for one module. */
  method TotalFuel(mass: int) returns (total: int)
    ensures total == Tower(mass)
  {
    var m := mass;
    total := 0;
    while true
      invariant total + Tower(m) == Tower(mass)
      decreases if m < 0 then 0 else m
    {
      var next := ModuleFuel(m);
      if next < 0 {
        return;
      }
      m := next;
      total := total + m;
    }
  }

  /** Part two: the sum of the modules' total fuel. */
  function TowerSum(masses: seq<int>): int
  {
    if |masses| == 0 then 0 else Tower(masses[0]) + TowerSum(masses[1..])
  }

  /** Fuelling the fuel never lowers the requirement, and the total is never negative. */
  lemma {:induction false} TowerSumBounds(masses: seq<int>)
    ensures TowerSum(masses) >= 0
    ensures TowerSum(masses) >= FuelSum(masses)
  {
    if |masses| > 0 {
      TowerSumBounds(masses[1..]);
    }
  }
}
