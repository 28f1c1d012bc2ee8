/**
 * The nanofactory of day 14 (`src/bin/day14.rs`). Each formula such as
 * `7 A, 1 B => 1 C` says how much of one product a single reaction
 * yields and what it consumes. Names get numeric ids; the ORE needed for
 * some FUEL is found by running reactions on demand, keeping what a
 * reaction makes beyond the need as stock for later.
 */
module Reactions {
  import opened RustInt
  import Text

  /** The source's error kinds, and the failure of `parse::<i64>` on a quantity. */
  datatype Error = InvalidInput | FuelTokenNotFound | OreTokenNotFound | UnknownElement | BadQuantity

  datatype Result<T> = Ok(value: T) | Err(error: Error)

  /** An element id with a quantity. */
  datatype Elem = Elem(id: int, qty: int)

  /** The reactions: a product with the quantity one reaction yields, mapped to the reactants it consumes. */
  type Table = map<Elem, seq<Elem>>

  const ARROW := "=>"

  /**
   * `split_formula`: the text before and after the one `=>` of a formula;
   * no `=>` or more than one is `InvalidInput`.
   */
  function SplitFormula(formula: string): (r: Result<(string, string)>)
    ensures r.Ok? <==> |Text.SplitOn(formula, ARROW)| == 2
    ensures r.Err? ==> r.error == InvalidInput
    ensures r.Ok? ==> r.value.0 + ARROW + r.value.1 == formula
    ensures r.Ok? ==> forall i :: !Text.MatchAt(r.value.0, ARROW, i) && !Text.MatchAt(r.value.1, ARROW, i)
  {
    var p := Text.SplitOn(formula, ARROW);
    if |p| != 2 then Err(InvalidInput)
    else
      Text.JoinSplit(formula, ARROW);
      assert Text.Join(p[1..], ARROW) == p[1];
      assert forall i :: !Text.MatchAt(p[0], ARROW, i) && !Text.MatchAt(p[1], ARROW, i) by {
        forall i
          ensures !Text.MatchAt(p[0], ARROW, i) && !Text.MatchAt(p[1], ARROW, i)
        {
          Text.SplitPiecesAvoid(formula, ARROW, 0, i);
          Text.SplitPiecesAvoid(formula, ARROW, 1, i);
        }
      }
      Ok((p[0], p[1]))
  }

  /**
   * `split_reactant`: exactly two words, a quantity that parses as an
   * `i64` and then a name, giving `(name, quantity)`.
   */
  function SplitReactant(reactant: string): (r: Result<(string, int)>)
    ensures r.Ok? <==> |Text.Words(reactant)| == 2 && Text.ParseInt(Text.Words(reactant)[0], Text.I64_MIN, Text.I64_MAX).Some?
    ensures |Text.Words(reactant)| != 2 ==> r == Err(InvalidInput)
    ensures r.Ok? ==> r.value.0 == Text.Words(reactant)[1] && Text.I64_MIN <= r.value.1 <= Text.I64_MAX
  {
    var p := Text.Words(reactant);
    if |p| != 2 then Err(InvalidInput)
    else match Text.ParseInt(p[0], Text.I64_MIN, Text.I64_MAX)
      case None => Err(BadQuantity)
      case Some(q) => Ok((p[1], q))
  }

  /** A quantity and a name, as a formula writes them. */
  function ShowReactant(name: string, qty: int): string
  {
    Text.Show(qty) + " " + name
  }

  /** Reading back a written reactant gives its name and quantity. */
  lemma SplitReactantShow(name: string, qty: int)
    requires name != [] && forall i :: 0 <= i < |name| ==> name[i] !in Text.ASCII_WHITESPACE
    requires Text.I64_MIN <= qty <= Text.I64_MAX
    ensures SplitReactant(ShowReactant(name, qty)) == Ok((name, qty))
  {
    var n := Text.Show(qty);
    assert forall i :: 0 <= i < |n| ==> n[i] !in Text.ASCII_WHITESPACE by {
      ShowDigits(qty);
    }
    WordsPair(n, name);
    Text.ParseShow(qty, Text.I64_MIN, Text.I64_MAX);
  }

  /** A written number is a sign and digits. */
  lemma ShowDigits(n: int)
    ensures forall i :: 0 <= i < |Text.Show(n)| ==> Text.Show(n)[i] == '-' || Text.IsDigit(Text.Show(n)[i])
  {
  }

  /** Two words with one space between them split back into the two words. */
  lemma WordsPair(a: string, b: string)
    requires a != [] && forall i :: 0 <= i < |a| ==> a[i] !in Text.ASCII_WHITESPACE
    requires b != [] && forall i :: 0 <= i < |b| ==> b[i] !in Text.ASCII_WHITESPACE
    ensures Text.Words(a + " " + b) == [a, b]
  {
    SplitWhereWord(b);
    assert (" " + b)[0] == ' ' && (" " + b)[1..] == b;
    assert Text.SplitWhere(" " + b, Text.ASCII_WHITESPACE) == [[], b];
    SplitWherePrefix(a, " " + b);
    assert a + " " + b == a + (" " + b);
    assert a + [] == a && [[], b][0] == [] && [[], b][1..] == [b];
    assert Text.SplitWhere(a + " " + b, Text.ASCII_WHITESPACE) == [a, b];
    assert [a, b][1..] == [b] && [b][1..] == [];
    assert Text.NonEmpty([b]) == [b];
  }

  /** A string without separators is one piece. */
  lemma {:induction false} SplitWhereWord(w: string)
    requires forall i :: 0 <= i < |w| ==> w[i] !in Text.ASCII_WHITESPACE
    ensures Text.SplitWhere(w, Text.ASCII_WHITESPACE) == [w]
  {
    if |w| > 0 {
      SplitWhereWord(w[1..]);
      assert [w[0]] + w[1..] == w;
    }
  }

  /** A separator-free prefix joins the first piece of what follows it. */
  lemma {:induction false} SplitWherePrefix(w: string, s: string)
    requires forall i :: 0 <= i < |w| ==> w[i] !in Text.ASCII_WHITESPACE
    ensures var rest := Text.SplitWhere(s, Text.ASCII_WHITESPACE);
      Text.SplitWhere(w + s, Text.ASCII_WHITESPACE) == [w + rest[0]] + rest[1..]
  {
    if |w| > 0 {
      SplitWherePrefix(w[1..], s);
      assert (w + s)[1..] == w[1..] + s;
      assert [w[0]] + (w[1..] + Text.SplitWhere(s, Text.ASCII_WHITESPACE)[0]) == w + Text.SplitWhere(s, Text.ASCII_WHITESPACE)[0];
    } else {
      var rest := Text.SplitWhere(s, Text.ASCII_WHITESPACE);
      assert w + s == s && w + rest[0] == rest[0];
      assert [rest[0]] + rest[1..] == rest;
    }
  }

  /**
   * Ids as `gen_reactions` hands them out: the names known so far carry
   * the numbers 1 to their count, each its own.
   */
  predicate Numbered(ids: map<string, int>)
  {
    && (forall n :: n in ids ==> 1 <= ids[n] <= |ids|)
    && (forall a, b :: a in ids && b in ids && a != b ==> ids[a] != ids[b])
  }

  /** Every name of `a` is in `b` with the same id. */
  predicate Grows(a: map<string, int>, b: map<string, int>)
  {
    forall n :: n in a ==> n in b && b[n] == a[n]
  }

  /**
   * `ids.entry(name).or_insert_with(..)` with the counter: a known name
   * keeps its id, a new name gets the number after the last one.
   */
  function Intern(ids: map<string, int>, name: string): (r: (map<string, int>, int))
    requires Numbered(ids)
    ensures Numbered(r.0) && Grows(ids, r.0)
    ensures name in r.0 && r.0[name] == r.1 && r.0.Keys == ids.Keys + {name}
    ensures name !in ids ==> r.1 == |ids| + 1
  {
    if name in ids then (ids, ids[name])
    else
      var id := |ids| + 1;
      assert |ids[name := id]| == |ids| + 1;
      (ids[name := id], id)
  }

  /** The ids after interning `names` in turn, starting from `ids`. */
  function InternAll(ids: map<string, int>, names: seq<string>): (r: map<string, int>)
    requires Numbered(ids)
    ensures Numbered(r)
  {
    if |names| == 0 then ids
    else
      var n := |names| - 1;
      Intern(InternAll(ids, names[..n]), names[n]).0
  }

  /** A non-empty sequence is its front and its last element; so is its concatenation after another. */
  lemma AppendLast<T>(a: seq<T>, b: seq<T>)
    requires |b| > 0
    ensures b == b[..|b| - 1] + [b[|b| - 1]]
    ensures a + b == (a + b[..|b| - 1]) + [b[|b| - 1]]
  {
  }

  /** Interning a run of names with one more at its end. */
  lemma InternAllLast(ids: map<string, int>, names: seq<string>, front: seq<string>, last: string)
    requires Numbered(ids) && names == front + [last]
    ensures InternAll(ids, names) == Intern(InternAll(ids, front), last).0
  {
    assert names[..|names| - 1] == front;
  }

  /** Interning two runs of names is interning them one after the other. */
  lemma {:induction false} InternAllAppend(ids: map<string, int>, a: seq<string>, b: seq<string>)
    requires Numbered(ids)
    ensures InternAll(ids, a + b) == InternAll(InternAll(ids, a), b)
    decreases |b|
  {
    if |b| == 0 {
      assert a + b == a;
    } else {
      var n := |b| - 1;
      AppendLast(a, b);
      InternAllLast(ids, a + b, a + b[..n], b[n]);
      InternAllLast(InternAll(ids, a), b, b[..n], b[n]);
      InternAllAppend(ids, a, b[..n]);
    }
  }

  /** The names in order of first appearance, each once. */
  function Distinct(names: seq<string>): (d: seq<string>)
    ensures forall x :: x in d <==> x in names
  {
    if |names| == 0 then []
    else
      var n := |names| - 1;
      var before := Distinct(names[..n]);
      assert forall x :: x in names <==> x in names[..n] || x == names[n] by {
        assert names == names[..n] + [names[n]];
      }
      if names[n] in before then before else before + [names[n]]
  }

  /** Interning gives ids to exactly the names seen. */
  lemma {:induction false} InternMembers(names: seq<string>)
    ensures forall x :: x in InternAll(map[], names) <==> x in names
  {
    if |names| > 0 {
      var n := |names| - 1;
      InternMembers(names[..n]);
      assert names == names[..n] + [names[n]];
    }
  }

  /** There are as many ids as distinct names. */
  lemma {:induction false} InternCount(names: seq<string>)
    ensures |InternAll(map[], names)| == |Distinct(names)|
  {
    if |names| > 0 {
      var n := |names| - 1;
      InternCount(names[..n]);
      InternMembers(names[..n]);
    }
  }

  /**
   * Interning numbers the names 1, 2, 3, ... in order of first
   * appearance, and a repeated name keeps its number.
   */
  lemma {:induction false} InternOrder(names: seq<string>)
    ensures forall i :: 0 <= i < |Distinct(names)| ==>
      Distinct(names)[i] in InternAll(map[], names) && InternAll(map[], names)[Distinct(names)[i]] == i + 1
  {
    InternMembers(names);
    if |names| > 0 {
      var n := |names| - 1;
      var before := InternAll(map[], names[..n]);
      var d := Distinct(names[..n]);
      InternOrder(names[..n]);
      InternMembers(names[..n]);
      InternCount(names[..n]);
      forall i | 0 <= i < |Distinct(names)|
        ensures Distinct(names)[i] in InternAll(map[], names) && InternAll(map[], names)[Distinct(names)[i]] == i + 1
      {
        if i < |d| {
          assert Distinct(names)[i] == d[i];
        }
      }
    }
  }

  /** The reaction table and the ids, as `gen_reactions` fills them. */
  datatype Built = Built(reactions: Table, ids: map<string, int>)

  /**
   * The comma-separated reactants of a formula from `parts[i]` on, each
   * trimmed, parsed and given its id in turn, after the reactants `elems`
   * read so far; the first error ends it.
   */
  function Reactants(parts: seq<string>, i: nat, elems: seq<Elem>, ids: map<string, int>): (r: Result<(seq<Elem>, map<string, int>)>)
    requires Numbered(ids) && i <= |parts|
    ensures r.Ok? ==> Numbered(r.value.1) && Grows(ids, r.value.1) && |r.value.0| == |elems| + |parts| - i
    decreases |parts| - i
  {
    if i == |parts| then Ok((elems, ids))
    else
      var reactant := SplitReactant(Text.Trim(parts[i]));
      if reactant.Err? then Err(reactant.error)
      else
        var interned := Intern(ids, reactant.value.0);
        Reactants(parts, i + 1, elems + [Elem(interned.1, reactant.value.1)], interned.0)
  }

  /**
   * One formula of `gen_reactions`: its reactants get their ids, then its
   * product, and the product with its quantity is entered with the
   * reactants (replacing an entry for the same product and quantity).
   */
  function AddFormula(b: Built, formula: string): (r: Result<Built>)
    requires Numbered(b.ids)
    ensures r.Ok? ==> Numbered(r.value.ids) && Grows(b.ids, r.value.ids)
    ensures r.Ok? ==> r.value.ids == InternAll(b.ids, FormulaNames(formula))
  {
    var split := SplitFormula(formula);
    if split.Err? then Err(split.error)
    else
      var reactants := Reactants(Text.Split(split.value.0, ','), 0, [], b.ids);
      if reactants.Err? then Err(reactants.error)
      else
        var result := SplitReactant(split.value.1);
        if result.Err? then Err(result.error)
        else
          var product := Intern(reactants.value.1, result.value.0);
          ReactantsIntern(Text.Split(split.value.0, ','), 0, [], b.ids);
          InternAllLast(b.ids, FormulaNames(formula), ReactantNames(Text.Split(split.value.0, ','), 0), result.value.0);
          Ok(Built(b.reactions[Elem(product.1, result.value.1) := reactants.value.0], product.0))
  }

  /** `gen_reactions` from line `i` on, after the formulas before it built `b`: the first error ends it. */
  function GenFrom(lines: seq<string>, i: nat, b: Built): (r: Result<Built>)
    requires Numbered(b.ids) && i <= |lines|
    ensures r.Ok? ==> Numbered(r.value.ids) && Grows(b.ids, r.value.ids)
    decreases |lines| - i
  {
    if i == |lines| then Ok(b)
    else
      var next := AddFormula(b, lines[i]);
      if next.Err? then next else GenFrom(lines, i + 1, next.value)
  }

  /** `gen_reactions` over all lines, from an empty table. */
  function Gen(lines: seq<string>): (r: Result<Built>)
    ensures r.Ok? ==> Numbered(r.value.ids)
  {
    GenFrom(lines, 0, Built(map[], map[]))
  }

  /** The names of the reactants from `parts[i]` on, in order. */
  ghost function ReactantNames(parts: seq<string>, i: nat): seq<string>
    requires i <= |parts|
    decreases |parts| - i
  {
    if i == |parts| then []
    else
      var reactant := SplitReactant(Text.Trim(parts[i]));
      (if reactant.Ok? then [reactant.value.0] else []) + ReactantNames(parts, i + 1)
  }

  /** The names of a formula in the order they are met: its reactants, then its product. */
  ghost function FormulaNames(formula: string): seq<string>
  {
    var split := SplitFormula(formula);
    if split.Err? then []
    else
      var result := SplitReactant(split.value.1);
      ReactantNames(Text.Split(split.value.0, ','), 0) + (if result.Ok? then [result.value.0] else [])
  }

  /** The names of the formulas from line `i` on, in order. */
  ghost function AllNames(lines: seq<string>, i: nat): seq<string>
    requires i <= |lines|
    decreases |lines| - i
  {
    if i == |lines| then [] else FormulaNames(lines[i]) + AllNames(lines, i + 1)
  }

  /** Interning one name and then a run is interning the run with the name in front. */
  lemma InternAllCons(ids: map<string, int>, name: string, rest: seq<string>)
    requires Numbered(ids)
    ensures InternAll(Intern(ids, name).0, rest) == InternAll(ids, [name] + rest)
  {
    InternAllAppend(ids, [name], rest);
    InternAllLast(ids, [name], [], name);
  }

  /** The ids after the reactants are those of interning their names in turn. */
  lemma {:induction false} ReactantsIntern(parts: seq<string>, i: nat, elems: seq<Elem>, ids: map<string, int>)
    requires Numbered(ids) && i <= |parts| && Reactants(parts, i, elems, ids).Ok?
    ensures Reactants(parts, i, elems, ids).value.1 == InternAll(ids, ReactantNames(parts, i))
    decreases |parts| - i
  {
    if i < |parts| {
      var reactant := SplitReactant(Text.Trim(parts[i]));
      var interned := Intern(ids, reactant.value.0);
      ReactantsIntern(parts, i + 1, elems + [Elem(interned.1, reactant.value.1)], interned.0);
      InternAllCons(ids, reactant.value.0, ReactantNames(parts, i + 1));
    }
  }

  /** The ids after the formulas from line `i` on are those of interning their names in turn. */
  lemma {:induction false} GenIntern(lines: seq<string>, i: nat, b: Built)
    requires Numbered(b.ids) && i <= |lines| && GenFrom(lines, i, b).Ok?
    ensures GenFrom(lines, i, b).value.ids == InternAll(b.ids, AllNames(lines, i))
    decreases |lines| - i
  {
    if i < |lines| {
      var next := AddFormula(b, lines[i]).value;
      GenIntern(lines, i + 1, next);
      InternAllAppend(b.ids, FormulaNames(lines[i]), AllNames(lines, i + 1));
    }
  }

  /**
   * `gen_reactions` numbers the names of the formulas 1, 2, 3, ... in
   * the order they first appear: the ids are those `InternOrder`
   * describes for the names of all formulas.
   */
  lemma GenNumbering(lines: seq<string>)
    requires Gen(lines).Ok?
    ensures Gen(lines).value.ids == InternAll(map[], AllNames(lines, 0))
  {
    GenIntern(lines, 0, Built(map[], map[]));
  }

  /** `gen_reactions`, over the lines of the formulas. */
  method GenReactions(formulas: string) returns (r: Result<Built>)
    ensures r == Gen(Text.Lines(formulas))
  {
    var reactions: Table := map[];
    var idcnt := 0;
    var ids: map<string, int> := map[];
    var lines := Text.Lines(formulas);
    for i := 0 to |lines|
      invariant Numbered(ids) && idcnt == |ids|
      invariant GenFrom(lines, i, Built(reactions, ids)) == Gen(lines)
    {
      var split := SplitFormula(lines[i]);
      if split.Err? {
        return Err(split.error);
      }
      var inFormula, result := split.value.0, split.value.1;
      var parts := Text.Split(inFormula, ',');
      var reactants: seq<Elem> := [];
      ghost var start := ids;
      for j := 0 to |parts|
        invariant Numbered(ids) && idcnt == |ids|
        invariant Reactants(parts, j, reactants, ids) == Reactants(parts, 0, [], start)
      {
        var reactant := SplitReactant(Text.Trim(parts[j]));
        if reactant.Err? {
          return Err(reactant.error);
        }
        var name, q := reactant.value.0, reactant.value.1;
        var id;
        if name in ids {
          id := ids[name];
        } else {
          idcnt := idcnt + 1;
          id := idcnt;
          ids := ids[name := id];
        }
        reactants := reactants + [Elem(id, q)];
      }
      var product := SplitReactant(result);
      if product.Err? {
        return Err(product.error);
      }
      var name, q := product.value.0, product.value.1;
      var id;
      if name in ids {
        id := ids[name];
      } else {
        idcnt := idcnt + 1;
        id := idcnt;
        ids := ids[name := id];
      }
      reactions := reactions[Elem(id, q) := reactants];
    }
    return Ok(Built(reactions, ids));
  }

  /** `requiere_n_reactions`: how many reactions yield `need` when each yields `batch` (Rust's truncating division). */
  function RequiredReactions(need: int, batch: int): int
    requires batch != 0
  {
    TDiv(need + batch - 1, batch)
  }

  /**
   * For a positive batch, the count is the least number of reactions whose
   * yield covers the need: one fewer falls short, and what is left over is
   * less than one batch.
   */
  lemma ReactionsCover(need: int, batch: int)
    requires need >= 0 && batch > 0
    ensures var k := RequiredReactions(need, batch);
      k >= 0 && k * batch >= need && (k - 1) * batch < need && 0 <= k * batch - need < batch
  {
    NonNegativeAgrees(need + batch - 1, batch);
    var k := (need + batch - 1) / batch;
    var rest := (need + batch - 1) % batch;
    assert need + batch - 1 == k * batch + rest;
    assert k * batch - need == batch - 1 - rest;
    assert (k - 1) * batch == k * batch - batch;
  }

  /** `order` lists the keys of `reactions` once each: the order the hash map iterates in. */
  ghost predicate Enumerates(order: seq<Elem>, reactions: Table)
  {
    (forall e :: e in order <==> e in reactions) &&
    forall i, j :: 0 <= i < j < |order| ==> order[i] != order[j]
  }

  /** `find` over the entries: the first one whose product has id `id`, if any. */
  function Find(order: seq<Elem>, id: int): (r: Option<Elem>)
    ensures r.None? <==> forall e :: e in order ==> e.id != id
    ensures r.Some? ==> r.value.id == id
    ensures r.Some? ==> exists i :: 0 <= i < |order| && order[i] == r.value && (forall j :: 0 <= j < i ==> order[j].id != id)
  {
    if |order| == 0 then None
    else if order[0].id == id then Some(order[0])
    else
      var r := Find(order[1..], id);
      assert forall e :: e in order[1..] ==> e in order;
      assert forall i :: 0 <= i < |order[1..]| ==> order[1..][i] == order[i + 1];
      r
  }

  /** With the keys enumerated, an id is found exactly when some product has it, and what is found is a product. */
  lemma FindProduct(order: seq<Elem>, reactions: Table, id: int)
    requires Enumerates(order, reactions)
    ensures Find(order, id).Some? <==> exists e :: e in reactions && e.id == id
    ensures Find(order, id).Some? ==> Find(order, id).value in reactions
  {
    if Find(order, id).Some? {
      var i :| 0 <= i < |order| && order[i] == Find(order, id).value;
      assert order[i] in order;
    }
  }

  /**
   * The reactions cannot go round in a circle: each product has a rank,
   * and every reactant other than ORE has a lower one.
   */
  ghost predicate Ranked(reactions: Table, ore: int, rank: map<int, nat>)
  {
    forall e :: e in reactions ==>
      e.id in rank &&
      forall i :: 0 <= i < |reactions[e]| && reactions[e][i].id != ore ==>
        reactions[e][i].id in rank && rank[reactions[e][i].id] < rank[e.id]
  }

  /** Every reaction yields some of its product, so `requiere_n_reactions` never divides by zero. */
  ghost predicate Yielding(reactions: Table)
  {
    forall e :: e in reactions ==> e.qty != 0
  }

  /** The conditions `react` runs under. */
  ghost predicate Setting(reactions: Table, order: seq<Elem>, ore: int, rank: map<int, nat>)
  {
    Enumerates(order, reactions) && Ranked(reactions, ore, rank) && Yielding(reactions)
  }

  function RankOf(rank: map<int, nat>, id: int): nat
  {
    if id in rank then rank[id] else 0
  }

  /** The stock of an element: the `or_insert(0)` of the source. */
  function Held(stock: map<int, int>, id: int): int
  {
    if id in stock then stock[id] else 0
  }

  /** What `react` gives back: the ORE count or an error, and the stock it leaves. */
  datatype Run = Run(ore: Result<int>, stock: map<int, int>)

  /**
   * `react`: the ORE needed for `need` of element `id` with `stock` left
   * over from earlier reactions, and the stock afterwards. An id with no
   * reaction is `UnknownElement`; a need the stock covers is taken from
   * it; otherwise the shortfall is made by enough reactions, whose surplus
   * goes to the stock, and their reactants are made in turn.
   */
  ghost function Produce(reactions: Table, order: seq<Elem>, ore: int, rank: map<int, nat>, id: int, need: int, stock: map<int, int>): (r: Run)
    requires Setting(reactions, order, ore, rank)
    decreases RankOf(rank, id), 1
  {
    var found := Find(order, id);
    if found.None? then Run(Err(UnknownElement), stock)
    else
      FindProduct(order, reactions, id);
      var have := Held(stock, id);
      if have >= need then Run(Ok(0), stock[id := have - need])
      else
        var short := need - have;
        var k := RequiredReactions(short, found.value.qty);
        ProduceAll(reactions, order, ore, rank, found.value, 0, k, stock[id := k * found.value.qty - short], 0)
  }

  /**
   * The loop over the reactants of `product` from the `i`-th on, for `k`
   * reactions, with `ore` counted so far: ORE is counted, any other
   * reactant produced; the first error ends it.
   */
  ghost function ProduceAll(reactions: Table, order: seq<Elem>, ore: int, rank: map<int, nat>, product: Elem, i: nat, k: int, stock: map<int, int>, count: int): (r: Run)
    requires Setting(reactions, order, ore, rank) && product in reactions && i <= |reactions[product]|
    decreases rank[product.id], 0, |reactions[product]| - i
  {
    var reactants := reactions[product];
    if i == |reactants| then Run(Ok(count), stock)
    else if reactants[i].id == ore then
      ProduceAll(reactions, order, ore, rank, product, i + 1, k, stock, count + k * reactants[i].qty)
    else
      var sub := Produce(reactions, order, ore, rank, reactants[i].id, k * reactants[i].qty, stock);
      if sub.ore.Err? then sub
      else ProduceAll(reactions, order, ore, rank, product, i + 1, k, sub.stock, count + sub.ore.value)
  }

  /** The first step of `react` when the stock falls short: the reactions run and their reactants are made. */
  lemma ProduceShort(reactions: Table, order: seq<Elem>, ore: int, rank: map<int, nat>, id: int, need: int, stock: map<int, int>,
                     product: Elem, short: int, k: int, left: map<int, int>)
    requires Setting(reactions, order, ore, rank) && Find(order, id) == Some(product)
    requires short == need - Held(stock, id) > 0 && product.qty != 0 && k == RequiredReactions(short, product.qty)
    requires left == stock[id := k * product.qty - short]
    ensures product in reactions
    ensures Produce(reactions, order, ore, rank, id, need, stock) == ProduceAll(reactions, order, ore, rank, product, 0, k, left, 0)
  {
    FindProduct(order, reactions, id);
  }

  /** An ORE reactant of the loop in `react` is counted, and the loop goes on to the same outcome. */
  lemma ProduceAllOre(reactions: Table, order: seq<Elem>, ore: int, rank: map<int, nat>, product: Elem, i: nat, k: int, stock: map<int, int>,
                      count: int, counted: int, goal: Run)
    requires Setting(reactions, order, ore, rank) && product in reactions && i < |reactions[product]|
    requires reactions[product][i].id == ore && counted == count + k * reactions[product][i].qty
    requires ProduceAll(reactions, order, ore, rank, product, i, k, stock, count) == goal
    ensures ProduceAll(reactions, order, ore, rank, product, i + 1, k, stock, counted) == goal
  {
  }

  /** Any other reactant of the loop in `react` has a lower rank than the product. */
  lemma ProduceAllRank(reactions: Table, order: seq<Elem>, ore: int, rank: map<int, nat>, product: Elem, i: nat)
    requires Setting(reactions, order, ore, rank) && product in reactions && i < |reactions[product]|
    requires reactions[product][i].id != ore
    ensures RankOf(rank, reactions[product][i].id) < rank[product.id]
  {
  }

  /** A reactant that is produced lets the loop in `react` go on to the same outcome. */
  lemma ProduceAllReactant(reactions: Table, order: seq<Elem>, ore: int, rank: map<int, nat>, product: Elem, i: nat, k: int, stock: map<int, int>,
                           count: int, sub: int, left: map<int, int>, counted: int, goal: Run)
    requires Setting(reactions, order, ore, rank) && product in reactions && i < |reactions[product]|
    requires reactions[product][i].id != ore && counted == count + sub
    requires ProduceAll(reactions, order, ore, rank, product, i, k, stock, count) == goal
    requires Run(Ok(sub), left) == Produce(reactions, order, ore, rank, reactions[product][i].id, k * reactions[product][i].qty, stock)
    ensures ProduceAll(reactions, order, ore, rank, product, i + 1, k, left, counted) == goal
  {
  }

  /** A reactant that fails ends the loop in `react` with its failure. */
  lemma ProduceAllFails(reactions: Table, order: seq<Elem>, ore: int, rank: map<int, nat>, product: Elem, i: nat, k: int, stock: map<int, int>,
                        count: int, sub: Run, goal: Run)
    requires Setting(reactions, order, ore, rank) && product in reactions && i < |reactions[product]|
    requires reactions[product][i].id != ore
    requires ProduceAll(reactions, order, ore, rank, product, i, k, stock, count) == goal
    requires sub == Produce(reactions, order, ore, rank, reactions[product][i].id, k * reactions[product][i].qty, stock) && sub.ore.Err?
    ensures sub == goal
  {
  }

  /** `react`, with the stock passed in and handed back. */
  method React(reactions: Table, order: seq<Elem>, ore: int, ghost rank: map<int, nat>, id: int, need: int, stock: map<int, int>)
    returns (r: Result<int>, remaining: map<int, int>)
    requires Setting(reactions, order, ore, rank)
    ensures Run(r, remaining) == Produce(reactions, order, ore, rank, id, need, stock)
    decreases RankOf(rank, id)
  {
    var found := Find(order, id);
    if found.None? {
      return Err(UnknownElement), stock;
    }
    FindProduct(order, reactions, id);
    var product := found.value;
    var neededQuantity := need;
    remaining := stock;
    var have := Held(remaining, id);
    if have >= neededQuantity {
      remaining := remaining[id := have - neededQuantity];
      return Ok(0), remaining;
    }
    neededQuantity := neededQuantity - have;
    var reactionCnt := RequiredReactions(neededQuantity, product.qty);
    remaining := remaining[id := reactionCnt * product.qty - neededQuantity];
    ProduceShort(reactions, order, ore, rank, id, need, stock, product, neededQuantity, reactionCnt, remaining);
    ghost var goal := Produce(reactions, order, ore, rank, id, need, stock);
    var oreCnt := 0;
    var reactants := reactions[product];
    for i := 0 to |reactants|
      invariant ProduceAll(reactions, order, ore, rank, product, i, reactionCnt, remaining, oreCnt) == goal
    {
      if reactants[i].id == ore {
        var counted := oreCnt + reactionCnt * reactants[i].qty;
        ProduceAllOre(reactions, order, ore, rank, product, i, reactionCnt, remaining, oreCnt, counted, goal);
        oreCnt := counted;
        continue;
      }
      ProduceAllRank(reactions, order, ore, rank, product, i);
      var sub, left := React(reactions, order, ore, rank, reactants[i].id, reactionCnt * reactants[i].qty, remaining);
      if sub.Err? {
        ProduceAllFails(reactions, order, ore, rank, product, i, reactionCnt, remaining, oreCnt, Run(sub, left), goal);
        return sub, left;
      }
      var counted := oreCnt + sub.value;
      ProduceAllReactant(reactions, order, ore, rank, product, i, reactionCnt, remaining, oreCnt, sub.value, left, counted, goal);
      remaining, oreCnt := left, counted;
    }
    return Ok(oreCnt), remaining;
  }

  /**
   * Producing an element leaves alone the stock of every other element
   * whose rank is not below its own: reactions only ever consume what
   * lies below them.
   */
  lemma {:induction false} ProduceFrame(reactions: Table, order: seq<Elem>, ore: int, rank: map<int, nat>, id: int, need: int, stock: map<int, int>, x: int)
    requires Setting(reactions, order, ore, rank)
    requires x != id && (x in rank ==> rank[x] >= RankOf(rank, id))
    ensures Held(Produce(reactions, order, ore, rank, id, need, stock).stock, x) == Held(stock, x)
    decreases RankOf(rank, id), 1
  {
    var found := Find(order, id);
    if found.Some? && Held(stock, id) < need {
      FindProduct(order, reactions, id);
      var short := need - Held(stock, id);
      var k := RequiredReactions(short, found.value.qty);
      ProduceAllFrame(reactions, order, ore, rank, found.value, 0, k, stock[id := k * found.value.qty - short], 0, x);
    }
  }

  /** The loop of `react` leaves alone the stock of every element whose rank is not below the product's. */
  lemma {:induction false} ProduceAllFrame(reactions: Table, order: seq<Elem>, ore: int, rank: map<int, nat>, product: Elem, i: nat, k: int,
                                           stock: map<int, int>, count: int, x: int)
    requires Setting(reactions, order, ore, rank) && product in reactions && i <= |reactions[product]|
    requires x in rank ==> rank[x] >= rank[product.id]
    ensures Held(ProduceAll(reactions, order, ore, rank, product, i, k, stock, count).stock, x) == Held(stock, x)
    decreases rank[product.id], 0, |reactions[product]| - i
  {
    var reactants := reactions[product];
    if i < |reactants| {
      if reactants[i].id == ore {
        ProduceAllFrame(reactions, order, ore, rank, product, i + 1, k, stock, count + k * reactants[i].qty, x);
      } else {
        var sub := Produce(reactions, order, ore, rank, reactants[i].id, k * reactants[i].qty, stock);
        ProduceFrame(reactions, order, ore, rank, reactants[i].id, k * reactants[i].qty, stock, x);
        if sub.ore.Ok? {
          ProduceAllFrame(reactions, order, ore, rank, product, i + 1, k, sub.stock, count + sub.ore.value, x);
        }
      }
    }
  }

  /**
   * What `react` leaves of the element it was asked for: the stock less
   * the need when the stock covered it, and otherwise less than what one
   * reaction yields: it never runs a reaction more than needed.
   */
  lemma ProduceLeftover(reactions: Table, order: seq<Elem>, ore: int, rank: map<int, nat>, id: int, need: int, stock: map<int, int>)
    requires Setting(reactions, order, ore, rank) && Find(order, id).Some? && Find(order, id).value.qty > 0
    ensures var after := Held(Produce(reactions, order, ore, rank, id, need, stock).stock, id);
      if Held(stock, id) >= need then after == Held(stock, id) - need
      else 0 <= after < Find(order, id).value.qty
  {
    var e := Find(order, id).value;
    FindProduct(order, reactions, id);
    if Held(stock, id) < need {
      var short := need - Held(stock, id);
      var k := RequiredReactions(short, e.qty);
      ReactionsCover(short, e.qty);
      ProduceAllFrame(reactions, order, ore, rank, e, 0, k, stock[id := k * e.qty - short], 0, id);
    }
  }

  /** Every reaction yields and consumes positive quantities. */
  ghost predicate Positive(reactions: Table)
  {
    forall e :: e in reactions ==> e.qty > 0 && forall i :: 0 <= i < |reactions[e]| ==> reactions[e][i].qty > 0
  }

  /** No stock is negative. */
  ghost predicate Stocked(stock: map<int, int>)
  {
    forall x :: x in stock ==> stock[x] >= 0
  }

  /**
   * With positive quantities, `react` never drives a stock negative and
   * never counts negative ORE.
   */
  lemma {:induction false} ProduceNonNegative(reactions: Table, order: seq<Elem>, ore: int, rank: map<int, nat>, id: int, need: int, stock: map<int, int>)
    requires Setting(reactions, order, ore, rank) && Positive(reactions) && Stocked(stock)
    ensures var r := Produce(reactions, order, ore, rank, id, need, stock);
      Stocked(r.stock) && (r.ore.Ok? ==> r.ore.value >= 0)
    decreases RankOf(rank, id), 1
  {
    var found := Find(order, id);
    if found.Some? {
      FindProduct(order, reactions, id);
      if Held(stock, id) < need {
        var short := need - Held(stock, id);
        var k := RequiredReactions(short, found.value.qty);
        ReactionsCover(short, found.value.qty);
        ProduceAllNonNegative(reactions, order, ore, rank, found.value, 0, k, stock[id := k * found.value.qty - short], 0);
      }
    }
  }

  /** The loop of `react` keeps the stocks and the ORE count non-negative. */
  lemma {:induction false} ProduceAllNonNegative(reactions: Table, order: seq<Elem>, ore: int, rank: map<int, nat>, product: Elem, i: nat, k: int,
                                                 stock: map<int, int>, count: int)
    requires Setting(reactions, order, ore, rank) && Positive(reactions) && product in reactions && i <= |reactions[product]|
    requires Stocked(stock) && k >= 0 && count >= 0
    ensures var r := ProduceAll(reactions, order, ore, rank, product, i, k, stock, count);
      Stocked(r.stock) && (r.ore.Ok? ==> r.ore.value >= 0)
    decreases rank[product.id], 0, |reactions[product]| - i
  {
    var reactants := reactions[product];
    if i < |reactants| {
      assert reactants[i].qty > 0;
      if reactants[i].id == ore {
        ProduceAllNonNegative(reactions, order, ore, rank, product, i + 1, k, stock, count + k * reactants[i].qty);
      } else {
        var sub := Produce(reactions, order, ore, rank, reactants[i].id, k * reactants[i].qty, stock);
        ProduceNonNegative(reactions, order, ore, rank, reactants[i].id, k * reactants[i].qty, stock);
        if sub.ore.Ok? {
          ProduceAllNonNegative(reactions, order, ore, rank, product, i + 1, k, sub.stock, count + sub.ore.value);
        }
      }
    }
  }

  /** The ids of `FUEL` and of `ORE`, looked up in that order. */
  function Lookup(ids: map<string, int>): (r: Result<(int, int)>)
    ensures r.Ok? <==> "FUEL" in ids && "ORE" in ids
    ensures "FUEL" !in ids ==> r == Err(FuelTokenNotFound)
    ensures "FUEL" in ids && "ORE" !in ids ==> r == Err(OreTokenNotFound)
    ensures r.Ok? ==> r.value == (ids["FUEL"], ids["ORE"])
  {
    if "FUEL" !in ids then Err(FuelTokenNotFound)
    else if "ORE" !in ids then Err(OreTokenNotFound)
    else Ok((ids["FUEL"], ids["ORE"]))
  }

  /**
   * The conditions the parts run under: when the formulas parse and name
   * both FUEL and ORE, `order` enumerates the reactions and `rank` ranks
   * them.
   */
  ghost predicate Runs(formulas: string, order: seq<Elem>, rank: map<int, nat>)
  {
    var g := Gen(Text.Lines(formulas));
    g.Ok? && Lookup(g.value.ids).Ok? ==> Setting(g.value.reactions, order, Lookup(g.value.ids).value.1, rank)
  }

  /** The ORE `react` counts for `fuel` FUEL from an empty stock, or the first error on the way. */
  ghost function Ore(formulas: string, order: seq<Elem>, rank: map<int, nat>, fuel: int): Result<int>
    requires Runs(formulas, order, rank)
  {
    var g := Gen(Text.Lines(formulas));
    if g.Err? then Err(g.error)
    else
      var ids := Lookup(g.value.ids);
      if ids.Err? then Err(ids.error)
      else Produce(g.value.reactions, order, ids.value.1, rank, ids.value.0, fuel, map[]).ore
  }

  /** Once the formulas are read and FUEL and ORE found, the ORE for some FUEL is what `react` counts. */
  lemma OreReacts(formulas: string, order: seq<Elem>, rank: map<int, nat>, built: Built, fuelId: int, oreId: int, fuel: int)
    requires Runs(formulas, order, rank) && Gen(Text.Lines(formulas)) == Ok(built) && Lookup(built.ids) == Ok((fuelId, oreId))
    ensures Setting(built.reactions, order, oreId, rank)
    ensures Ore(formulas, order, rank, fuel) == Produce(built.reactions, order, oreId, rank, fuelId, fuel, map[]).ore
  {
  }

  /** `part_one`: the ORE for one FUEL. */
  method PartOne(formulas: string, order: seq<Elem>, ghost rank: map<int, nat>) returns (r: Result<int>)
    requires Runs(formulas, order, rank)
    ensures r == Ore(formulas, order, rank, 1)
  {
    var built := GenReactions(formulas);
    if built.Err? {
      return Err(built.error);
    }
    var ids := Lookup(built.value.ids);
    if ids.Err? {
      return Err(ids.error);
    }
    OreReacts(formulas, order, rank, built.value, ids.value.0, ids.value.1, 1);
    var remaining;
    r, remaining := React(built.value.reactions, order, ids.value.1, rank, ids.value.0, 1, map[]);
  }

  /** The ORE there is to spend in `part_two`. */
  const MAX_ORE := 1_000_000_000_000

  /** `fuel` FUEL, for which `react` gave `ore`, can be made within the budget (nothing is needed for none). */
  predicate Affordable(fuel: int, ore: Result<int>)
  {
    fuel == 0 || (ore.Ok? && ore.value <= MAX_ORE)
  }

  /** `fuel` FUEL, for which `react` gave `ore`, is the bound of the search or needs more ORE than the budget. */
  predicate TooMuch(fuel: int, ore: Result<int>)
  {
    fuel == MAX_ORE || (ore.Ok? && ore.value > MAX_ORE)
  }

  /** `fuel` FUEL is affordable and one more is not, by what `react` counts from an empty stock. */
  ghost predicate Brackets(reactions: Table, order: seq<Elem>, ore: int, rank: map<int, nat>, fuelId: int, fuel: int)
    requires Setting(reactions, order, ore, rank)
  {
    Affordable(fuel, Produce(reactions, order, ore, rank, fuelId, fuel, map[]).ore) &&
    TooMuch(fuel + 1, Produce(reactions, order, ore, rank, fuelId, fuel + 1, map[]).ore)
  }

  /** The same for the formulas as read. */
  ghost predicate Bracketed(formulas: string, order: seq<Elem>, rank: map<int, nat>, fuel: int)
    requires Runs(formulas, order, rank)
  {
    Affordable(fuel, Ore(formulas, order, rank, fuel)) && TooMuch(fuel + 1, Ore(formulas, order, rank, fuel + 1))
  }

  /**
   * The loop of `part_two`: a bisection between no FUEL and the budget for
   * the most FUEL the ORE suffices for. The answer is 0 or an amount whose
   * ORE is within the budget, and one more is the bound or an amount whose
   * ORE exceeds it; an error is that of some amount tried.
   */
  method Bisect(reactions: Table, order: seq<Elem>, ore: int, ghost rank: map<int, nat>, fuelId: int) returns (r: Result<int>)
    requires Setting(reactions, order, ore, rank)
    ensures r.Ok? ==> 0 <= r.value < MAX_ORE && Brackets(reactions, order, ore, rank, fuelId, r.value)
    ensures r.Err? ==> exists fuel :: 0 < fuel < MAX_ORE && Produce(reactions, order, ore, rank, fuelId, fuel, map[]).ore == r
  {
    var upper := MAX_ORE;
    var lower := 0;
    var fuel;
    while true
      invariant 0 <= lower && lower + 2 <= upper <= MAX_ORE
      invariant Affordable(lower, Produce(reactions, order, ore, rank, fuelId, lower, map[]).ore)
      invariant TooMuch(upper, Produce(reactions, order, ore, rank, fuelId, upper, map[]).ore)
      decreases upper - lower
    {
      var cand := (upper + lower) / 2;
      var oreCnt, remaining := React(reactions, order, ore, rank, fuelId, cand, map[]);
      if oreCnt.Err? {
        return Err(oreCnt.error);
      }
      if oreCnt.value > MAX_ORE {
        upper := cand;
      } else {
        lower := cand;
      }
      if upper - lower == 1 {
        fuel := lower;
        assert Brackets(reactions, order, ore, rank, fuelId, fuel);
        break;
      }
    }
    return Ok(fuel);
  }

  /** `part_two`: the most FUEL a trillion ORE makes, as the bisection finds it. */
  method PartTwo(formulas: string, order: seq<Elem>, ghost rank: map<int, nat>) returns (r: Result<int>)
    requires Runs(formulas, order, rank)
    ensures r.Ok? ==> 0 <= r.value < MAX_ORE && Bracketed(formulas, order, rank, r.value)
    ensures r.Err? ==> exists fuel :: 0 < fuel < MAX_ORE && Ore(formulas, order, rank, fuel) == r
  {
    var built := GenReactions(formulas);
    if built.Err? {
      assert Ore(formulas, order, rank, 1) == Err(built.error);
      return Err(built.error);
    }
    var ids := Lookup(built.value.ids);
    if ids.Err? {
      assert Ore(formulas, order, rank, 1) == Err(ids.error);
      return Err(ids.error);
    }
    OreReacts(formulas, order, rank, built.value, ids.value.0, ids.value.1, 1);
    r := Bisect(built.value.reactions, order, ids.value.1, rank, ids.value.0);
    if r.Ok? {
      OreReacts(formulas, order, rank, built.value, ids.value.0, ids.value.1, r.value);
      OreReacts(formulas, order, rank, built.value, ids.value.0, ids.value.1, r.value + 1);
    } else {
      ghost var fuel :| 0 < fuel < MAX_ORE && Produce(built.value.reactions, order, ids.value.1, rank, ids.value.0, fuel, map[]).ore == r;
      OreReacts(formulas, order, rank, built.value, ids.value.0, ids.value.1, fuel);
    }
  }
}
