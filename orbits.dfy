/**
 * The universal orbit map of day 6 (`src/bin/day6.rs`). Every object but
 * the centre of mass `COM` orbits exactly one other object; the map gives
 * each object name an id, in order of first appearance, and keeps per id
 * a node with its depth, the ids orbiting it and the id it orbits.
 *
 * The state of a map is also given as a value, `MapState`, so that each
 * method's effect is a function of the old state; the properties of the
 * map are proved about those functions.
 */
module Orbits {
  import opened RustInt
  import Text

  /** `Node`: the depth below `COM`, the children, and the parent if any. */
  datatype Node = Node(depth: int, childIds: seq<nat>, parentId: Option<nat>)

  /** A fresh node: depth 0, no children, no parent. */
  const NEW_NODE := Node(0, [], None)

  /** The fields of a `UniversalOrbitMap`, as a value. */
  datatype MapState = MapState(comId: Option<nat>, nameToId: map<string, nat>, nodes: seq<Node>)

  /** The map built by `UniversalOrbitMap::new`. */
  const EMPTY := MapState(None, map[], [])

  /**
   * The ids are well formed: every name has its own node, and every
   * child and parent id names a node; `com_id` is the id of "COM" once
   * that name has been seen.
   */
  predicate Valid(s: MapState)
  {
    && (forall n :: n in s.nameToId ==> s.nameToId[n] < |s.nodes|)
    && (forall a, b :: a in s.nameToId && b in s.nameToId && a != b ==> s.nameToId[a] != s.nameToId[b])
    && (forall i, j :: 0 <= i < |s.nodes| && 0 <= j < |s.nodes[i].childIds| ==> s.nodes[i].childIds[j] < |s.nodes|)
    && (forall i :: 0 <= i < |s.nodes| && s.nodes[i].parentId.Some? ==> s.nodes[i].parentId.value < |s.nodes|)
    && (s.comId.Some? <==> "COM" in s.nameToId)
    && (s.comId.Some? ==> s.nameToId["COM"] == s.comId.value)
  }

  /**
   * `insert_or_get_id` on values: a known name keeps its id and changes
   * nothing; a new name gets the next id and one fresh node.
   */
  function InsertName(s: MapState, name: string): (r: (MapState, nat))
    requires Valid(s)
    ensures Valid(r.0)
    ensures name in r.0.nameToId && r.0.nameToId[name] == r.1 && r.1 < |r.0.nodes|
    ensures name in s.nameToId ==> r.0 == s
    ensures name !in s.nameToId ==>
      && r.1 == |s.nodes|
      && r.0.nodes == s.nodes + [NEW_NODE]
      && r.0.nameToId.Keys == s.nameToId.Keys + {name}
      && (forall n :: n in s.nameToId ==> r.0.nameToId[n] == s.nameToId[n])
      && r.0.comId == (if name == "COM" then Some(r.1) else s.comId)
  {
    if name in s.nameToId then (s, s.nameToId[name])
    else
      var id := |s.nodes|;
      var com := if name == "COM" then Some(id) else s.comId;
      (MapState(com, s.nameToId[name := id], s.nodes + [NEW_NODE]), id)
  }

  /** The two node updates of `add_orbit`: `o` joins `c`'s children and gets `c` as its parent. */
  function Link(s: MapState, c: nat, o: nat): (r: MapState)
    requires Valid(s) && c < |s.nodes| && o < |s.nodes|
    ensures Valid(r)
    ensures r.comId == s.comId && r.nameToId == s.nameToId && |r.nodes| == |s.nodes|
    ensures r.nodes[o].parentId == Some(c)
    ensures c != o ==> r.nodes[c].childIds == s.nodes[c].childIds + [o]
  {
    var ns := s.nodes[c := s.nodes[c].(childIds := s.nodes[c].childIds + [o])];
    var r := s.(nodes := ns[o := ns[o].(parentId := Some(c))]);
    assert forall i :: 0 <= i < |r.nodes| ==> r.nodes[i].childIds == s.nodes[i].childIds || (i == c && r.nodes[i].childIds == s.nodes[c].childIds + [o]);
    r
  }

  /**
   * `add_orbit` on values: both names get their ids (centre first), the
   * orbiting id is appended to the centre's children and the centre
   * becomes the orbiting node's parent.
   */
  function AddOrbitTo(s: MapState, center: string, orbit: string): (r: MapState)
    requires Valid(s)
    ensures Valid(r)
  {
    var first := InsertName(s, center);
    var s1, c := first.0, first.1;
    var second := InsertName(s1, orbit);
    var s2, o := second.0, second.1;
    Link(s2, c, o)
  }

  /** After `add_orbit` both names are known, and every name known before keeps its id. */
  lemma AddOrbitNames(s: MapState, center: string, orbit: string)
    requires Valid(s)
    ensures var m := AddOrbitTo(s, center, orbit).nameToId;
      && m.Keys == s.nameToId.Keys + {center, orbit}
      && forall n :: n in s.nameToId ==> m[n] == s.nameToId[n]
  {
    var s1 := InsertName(s, center).0;
    var s2 := InsertName(s1, orbit).0;
    InsertKeys(s, center);
    InsertKeys(s1, orbit);
    KeepsIds(s.nameToId, s1.nameToId, s2.nameToId, center, orbit);
    AddOrbitNameMap(s, center, orbit);
  }

  /** Two insertions that each keep the known ids keep them together. */
  lemma KeepsIds(m0: map<string, nat>, m1: map<string, nat>, m2: map<string, nat>, a: string, b: string)
    requires m1.Keys == m0.Keys + {a} && forall n :: n in m0 ==> m1[n] == m0[n]
    requires m2.Keys == m1.Keys + {b} && forall n :: n in m1 ==> m2[n] == m1[n]
    ensures m2.Keys == m0.Keys + {a, b} && forall n :: n in m0 ==> m2[n] == m0[n]
  {
  }

  lemma AddOrbitNameMap(s: MapState, center: string, orbit: string)
    requires Valid(s)
    ensures AddOrbitTo(s, center, orbit).nameToId == InsertName(InsertName(s, center).0, orbit).0.nameToId
  {
  }

  /** Inserting a name adds it to the keys and keeps every known id. */
  lemma InsertKeys(s: MapState, name: string)
    requires Valid(s)
    ensures InsertName(s, name).0.nameToId.Keys == s.nameToId.Keys + {name}
    ensures forall n :: n in s.nameToId ==> InsertName(s, name).0.nameToId[n] == s.nameToId[n]
  {
  }

  /** After `add_orbit` the orbiting object's parent is the centre, and it is the centre's last child. */
  lemma AddOrbitLinks(s: MapState, center: string, orbit: string)
    requires Valid(s)
    ensures var r := AddOrbitTo(s, center, orbit);
      && center in r.nameToId && orbit in r.nameToId
      && r.nodes[r.nameToId[orbit]].parentId == Some(r.nameToId[center])
      && (center != orbit ==> r.nodes[r.nameToId[center]].childIds == Children(s, center) + [r.nameToId[orbit]])
  {
    var first := InsertName(s, center);
    var s1, c := first.0, first.1;
    var second := InsertName(s1, orbit);
    var s2, o := second.0, second.1;
    assert s2.nodes[c].childIds == Children(s, center);
    assert center != orbit ==> c != o;
  }

  /** A name other than the orbiting one keeps its parent through `add_orbit`; a name new to the map has none. */
  lemma AddOrbitParents(s: MapState, center: string, orbit: string, n: string)
    requires Valid(s) && n != orbit && n in AddOrbitTo(s, center, orbit).nameToId
    ensures var r := AddOrbitTo(s, center, orbit);
      r.nodes[r.nameToId[n]].parentId == if n in s.nameToId then s.nodes[s.nameToId[n]].parentId else None
  {
    var first := InsertName(s, center);
    var second := InsertName(first.0, orbit);
    AddOrbitNameMap(s, center, orbit);
    InsertNode(first.0, orbit, n);
    if n in first.0.nameToId {
      InsertNode(s, center, n);
    }
    LinkParent(second.0, first.1, second.1, second.0.nameToId[n]);
  }

  /** After inserting a name, a known name's node is its old node, and a new name's node is fresh. */
  lemma InsertNode(s: MapState, name: string, n: string)
    requires Valid(s) && n in InsertName(s, name).0.nameToId
    ensures var r := InsertName(s, name).0;
      r.nodes[r.nameToId[n]] == if n in s.nameToId then s.nodes[s.nameToId[n]] else NEW_NODE
  {
  }

  /** `Link` changes no parent but that of the orbiting node. */
  lemma LinkParent(s: MapState, c: nat, o: nat, i: nat)
    requires Valid(s) && c < |s.nodes| && o < |s.nodes| && i < |s.nodes| && i != o
    ensures Link(s, c, o).nodes[i].parentId == s.nodes[i].parentId
  {
  }

  /** The children recorded so far for a name; none for a name not yet seen. */
  function Children(s: MapState, name: string): seq<nat>
    requires Valid(s)
  {
    if name in s.nameToId then s.nodes[s.nameToId[name]].childIds else []
  }

  /** Adding a name keeps the tree shape: the new node has no children and no parent. */
  lemma InsertTree(s: MapState, name: string)
    requires Valid(s) && TreeShaped(s.nodes)
    ensures TreeShaped(InsertName(s, name).0.nodes)
  {
  }

  /** Linking a parentless `o` under another node `c` keeps the tree shape. */
  lemma LinkTree(s: MapState, c: nat, o: nat)
    requires Valid(s) && TreeShaped(s.nodes) && c < |s.nodes| && o < |s.nodes| && c != o
    requires s.nodes[o].parentId.None?
    ensures TreeShaped(Link(s, c, o).nodes)
  {
    var r := Link(s, c, o);
    forall p, i | 0 <= p < |r.nodes| && 0 <= i < |r.nodes[p].childIds|
      ensures r.nodes[p].childIds[i] < |r.nodes| && r.nodes[r.nodes[p].childIds[i]].parentId == Some(p)
    {
      if p != c || i < |s.nodes[c].childIds| {
        assert r.nodes[p].childIds[i] == s.nodes[p].childIds[i];
      }
    }
    forall p, i, j | 0 <= p < |r.nodes| && 0 <= i < j < |r.nodes[p].childIds|
      ensures r.nodes[p].childIds[i] != r.nodes[p].childIds[j]
    {
      assert r.nodes[p].childIds[i] == s.nodes[p].childIds[i];
      if p != c || j < |s.nodes[c].childIds| {
        assert r.nodes[p].childIds[j] == s.nodes[p].childIds[j];
      }
    }
  }

  /**
   * `add_orbit` keeps the tree shape when `orbit` differs from `center`
   * and does not orbit anything yet.
   */
  lemma AddOrbitTree(s: MapState, center: string, orbit: string)
    requires Valid(s) && TreeShaped(s.nodes) && center != orbit
    requires orbit in s.nameToId ==> s.nodes[s.nameToId[orbit]].parentId.None?
    ensures TreeShaped(AddOrbitTo(s, center, orbit).nodes)
  {
    var first := InsertName(s, center);
    var s1, c := first.0, first.1;
    InsertTree(s, center);
    var second := InsertName(s1, orbit);
    var s2, o := second.0, second.1;
    InsertTree(s1, orbit);
    assert s2.nodes[o].parentId.None?;
    LinkTree(s2, c, o);
  }

  /** The children lists of all nodes. */
  function Kids(nodes: seq<Node>): (kids: seq<seq<nat>>)
    ensures |kids| == |nodes|
  {
    seq(|nodes|, i requires 0 <= i < |nodes| => nodes[i].childIds)
  }

  /** A witness that the children never lead back: each child ranks below its parent. */
  predicate ChildRanked(kids: seq<seq<nat>>, height: seq<nat>)
  {
    && |height| == |kids|
    && forall p, i :: 0 <= p < |kids| && 0 <= i < |kids[p]| ==> kids[p][i] < |kids| && height[kids[p][i]] < height[p]
  }

  /**
   * The depths `annotate_depth_subgraph(root, d - 1)` writes, as a map
   * from id to depth: `root` gets `d`, then each child's subtree in turn,
   * a later write replacing an earlier one.
   */
  ghost function Depths(kids: seq<seq<nat>>, height: seq<nat>, root: nat, d: int): map<nat, int>
    requires ChildRanked(kids, height) && root < |kids|
    decreases height[root], 1, 0
  {
    map[root := d] + DepthsAll(kids, height, root, |kids[root]|, d + 1)
  }

  /** The writes of the first `n` children's subtrees of `root`, each started at depth `d`. */
  ghost function DepthsAll(kids: seq<seq<nat>>, height: seq<nat>, root: nat, n: nat, d: int): map<nat, int>
    requires ChildRanked(kids, height) && root < |kids| && n <= |kids[root]|
    decreases height[root], 0, n
  {
    if n == 0 then map[]
    else DepthsAll(kids, height, root, n - 1, d) + Depths(kids, height, kids[root][n - 1], d)
  }

  /** The nodes with the depths of `m` written over theirs. */
  function Overwrite(nodes: seq<Node>, m: map<nat, int>): (r: seq<Node>)
    ensures |r| == |nodes|
    ensures forall i :: 0 <= i < |r| ==> r[i].childIds == nodes[i].childIds && r[i].parentId == nodes[i].parentId
    ensures forall i :: 0 <= i < |r| ==> r[i].depth == if i in m then m[i] else nodes[i].depth
  {
    seq(|nodes|, i requires 0 <= i < |nodes| => if i in m then nodes[i].(depth := m[i]) else nodes[i])
  }

  /** Overwriting depths keeps the ids well formed and the children as they were. */
  lemma OverwriteKeeps(s: MapState, m: map<nat, int>)
    requires Valid(s)
    ensures Valid(s.(nodes := Overwrite(s.nodes, m)))
    ensures Kids(Overwrite(s.nodes, m)) == Kids(s.nodes)
  {
  }

  lemma MapJoin<K, V>(a: map<K, V>, b: map<K, V>, c: map<K, V>)
    ensures a + (b + c) == (a + b) + c
  {
  }

  /** Overwriting twice is overwriting once with the later writes winning. */
  lemma OverwriteTwice(nodes: seq<Node>, a: map<nat, int>, b: map<nat, int>)
    ensures Overwrite(Overwrite(nodes, a), b) == Overwrite(nodes, a + b)
  {
  }

  /** What `annotate_depth_subgraph(root, d - 1)` has written after its first `i` children. */
  ghost function Written(kids: seq<seq<nat>>, height: seq<nat>, root: nat, d: int, i: nat): map<nat, int>
    requires ChildRanked(kids, height) && root < |kids| && i <= |kids[root]|
  {
    map[root := d] + DepthsAll(kids, height, root, i, d + 1)
  }

  /** Before any child, only the root's depth is written. */
  lemma WrittenStart(nodes: seq<Node>, kids: seq<seq<nat>>, height: seq<nat>, root: nat, d: int)
    requires ChildRanked(kids, height) && root < |kids| && root < |nodes|
    ensures nodes[root := nodes[root].(depth := d)] == Overwrite(nodes, Written(kids, height, root, d, 0))
  {
  }

  /** Visiting child `i` extends the writes by that child's subtree. */
  lemma WrittenStep(nodes: seq<Node>, kids: seq<seq<nat>>, height: seq<nat>, root: nat, d: int, i: nat)
    requires ChildRanked(kids, height) && root < |kids| && i < |kids[root]|
    ensures Overwrite(Overwrite(nodes, Written(kids, height, root, d, i)), Depths(kids, height, kids[root][i], d + 1))
         == Overwrite(nodes, Written(kids, height, root, d, i + 1))
  {
    var sub := Depths(kids, height, kids[root][i], d + 1);
    OverwriteTwice(nodes, Written(kids, height, root, d, i), sub);
    MapJoin(map[root := d], DepthsAll(kids, height, root, i, d + 1), sub);
  }

  /** The sum of all depths. */
  function Checksum(nodes: seq<Node>): int
  {
    if |nodes| == 0 then 0
    else
      var n := |nodes| - 1;
      Checksum(nodes[..n]) + nodes[n].depth
  }

  /** A witness that parent links never lead back: each parent ranks below its child. */
  predicate ParentRanked(nodes: seq<Node>, rank: seq<nat>)
  {
    && |rank| == |nodes|
    && forall v :: 0 <= v < |nodes| && nodes[v].parentId.Some? ==>
         nodes[v].parentId.value < |nodes| && rank[nodes[v].parentId.value] < rank[v]
  }

  /**
   * The ids of `v`'s parent, its parent's parent, and so on up to a node
   * without a parent: the path from `v` towards `COM`, `v` itself not
   * included.
   */
  ghost function Chain(nodes: seq<Node>, rank: seq<nat>, v: nat): (c: seq<nat>)
    requires ParentRanked(nodes, rank) && v < |nodes|
    ensures |c| == 0 <==> nodes[v].parentId.None?
    ensures |c| > 0 ==> Some(c[0]) == nodes[v].parentId
    ensures forall i :: 0 <= i < |c| ==> c[i] < |nodes| && rank[c[i]] < rank[v]
    ensures forall i :: 0 <= i < |c| - 1 ==> nodes[c[i]].parentId == Some(c[i + 1])
    ensures |c| > 0 ==> nodes[c[|c| - 1]].parentId.None?
    decreases rank[v]
  {
    match nodes[v].parentId
    case None => []
    case Some(p) => [p] + Chain(nodes, rank, p)
  }

  /** A parent chain never visits a node twice. */
  lemma {:induction false} ChainDistinct(nodes: seq<Node>, rank: seq<nat>, v: nat, i: nat, j: nat)
    requires ParentRanked(nodes, rank) && v < |nodes|
    requires i < j < |Chain(nodes, rank, v)|
    ensures rank[Chain(nodes, rank, v)[j]] < rank[Chain(nodes, rank, v)[i]]
    decreases rank[v]
  {
    var p := nodes[v].parentId.value;
    if i > 0 {
      ChainDistinct(nodes, rank, p, i - 1, j - 1);
    }
  }

  /** The chain of a node on a chain is the rest of that chain. */
  lemma {:induction false} ChainSuffix(nodes: seq<Node>, rank: seq<nat>, v: nat, k: nat)
    requires ParentRanked(nodes, rank) && v < |nodes|
    requires k < |Chain(nodes, rank, v)|
    ensures Chain(nodes, rank, v)[k + 1..] == Chain(nodes, rank, Chain(nodes, rank, v)[k])
    decreases rank[v]
  {
    var p := nodes[v].parentId.value;
    if k > 0 {
      ChainSuffix(nodes, rank, p, k - 1);
    }
  }

  /** The first position of `id` in `chain`, if any (`iter().position`). */
  function Position(chain: seq<nat>, id: nat): (r: Option<nat>)
    ensures r.None? <==> id !in chain
    ensures r.Some? ==> r.value < |chain| && chain[r.value] == id && id !in chain[..r.value]
  {
    if |chain| == 0 then None
    else if chain[0] == id then Some(0)
    else match Position(chain[1..], id)
      case None => None
      case Some(k) =>
        assert chain[..k + 1] == [chain[0]] + chain[1..][..k];
        Some(k + 1)
  }

  /**
   * The transfer count of part two, from entry `i` of `you` on: the first
   * entry that also lies on `san` counts its index plus its first index
   * on `san`; 0 when no later entry lies on `san`.
   */
  function TransfersFrom(you: seq<nat>, san: seq<nat>, i: nat): (n: nat)
    requires i <= |you|
    ensures (forall k :: i <= k < |you| ==> you[k] !in san) ==> n == 0
    ensures (exists k :: i <= k < |you| && you[k] in san) ==>
      exists k, j :: i <= k < |you| && 0 <= j < |san| && you[k] == san[j] && n == k + j
        && (forall l :: i <= l < k ==> you[l] !in san) && you[k] !in san[..j]
    decreases |you| - i
  {
    if i == |you| then 0
    else match Position(san, you[i])
      case Some(j) => i + j
      case None => TransfersFrom(you, san, i + 1)
  }

  /** Part two's count for the chains `you` and `san`. */
  function Transfers(you: seq<nat>, san: seq<nat>): nat
  {
    TransfersFrom(you, san, 0)
  }

  /** When the chains meet, the count is the first meeting point's index on each. */
  lemma TransfersMeet(you: seq<nat>, san: seq<nat>, i: nat) returns (k: nat, j: nat)
    requires i < |you| && you[i] in san
    ensures k <= i && j < |san| && you[k] == san[j] && Transfers(you, san) == k + j
    ensures you[k] !in san[..j]
  {
    var k', j' :| 0 <= k' < |you| && 0 <= j' < |san| && you[k'] == san[j'] && TransfersFrom(you, san, 0) == k' + j'
      && (forall l :: 0 <= l < k' ==> you[l] !in san) && you[k'] !in san[..j'];
    k, j := k', j';
  }

  /** A chain names each node once: equal entries sit at equal positions. */
  lemma ChainInjective(nodes: seq<Node>, rank: seq<nat>, v: nat, i: nat, j: nat)
    requires ParentRanked(nodes, rank) && v < |nodes|
    requires i < |Chain(nodes, rank, v)| && j < |Chain(nodes, rank, v)|
    requires Chain(nodes, rank, v)[i] == Chain(nodes, rank, v)[j]
    ensures i == j
  {
    if i < j {
      ChainDistinct(nodes, rank, v, i, j);
    } else if j < i {
      ChainDistinct(nodes, rank, v, j, i);
    }
  }

  /** Two parent chains that meet share everything after the meeting point. */
  lemma SharedTail(nodes: seq<Node>, rank: seq<nat>, y: nat, s: nat, k: nat, j: nat)
    requires ParentRanked(nodes, rank) && y < |nodes| && s < |nodes|
    requires k < |Chain(nodes, rank, y)| && j < |Chain(nodes, rank, s)|
    requires Chain(nodes, rank, y)[k] == Chain(nodes, rank, s)[j]
    ensures Chain(nodes, rank, y)[k + 1..] == Chain(nodes, rank, s)[j + 1..]
  {
    ChainSuffix(nodes, rank, y, k);
    ChainSuffix(nodes, rank, s, j);
  }

  /**
   * On two parent chains, part two's count is the fewest transfers: no
   * node common to both chains is reached with fewer steps in total.
   */
  lemma TransfersShortest(nodes: seq<Node>, rank: seq<nat>, y: nat, s: nat, i: nat, j: nat)
    requires ParentRanked(nodes, rank) && y < |nodes| && s < |nodes|
    requires i < |Chain(nodes, rank, y)| && j < |Chain(nodes, rank, s)|
    requires Chain(nodes, rank, y)[i] == Chain(nodes, rank, s)[j]
    ensures Transfers(Chain(nodes, rank, y), Chain(nodes, rank, s)) <= i + j
  {
    var you, san := Chain(nodes, rank, y), Chain(nodes, rank, s);
    var k, j0 := TransfersMeet(you, san, i);
    if i != k {
      Later(nodes, rank, y, s, k, j0, i, j);
    }
  }

  /** The meeting step of `TransfersShortest`: a later common node is further along both chains. */
  lemma Later(nodes: seq<Node>, rank: seq<nat>, y: nat, s: nat, k: nat, j0: nat, i: nat, j: nat)
    requires ParentRanked(nodes, rank) && y < |nodes| && s < |nodes|
    requires k < i < |Chain(nodes, rank, y)| && j0 < |Chain(nodes, rank, s)| && j < |Chain(nodes, rank, s)|
    requires Chain(nodes, rank, y)[k] == Chain(nodes, rank, s)[j0]
    requires Chain(nodes, rank, y)[i] == Chain(nodes, rank, s)[j]
    ensures k + j0 <= i + j
  {
    var you, san := Chain(nodes, rank, y), Chain(nodes, rank, s);
    SharedTail(nodes, rank, y, s, k, j0);
    var t := i - k - 1;
    assert you[i] == you[k + 1..][t];
    assert san[j0 + 1..][t] == san[j0 + 1 + t];
    ChainInjective(nodes, rank, s, j, j0 + 1 + t);
  }

  /** Every child listed under a node has that node as its parent, and no list names a child twice. */
  predicate TreeShaped(nodes: seq<Node>)
  {
    && (forall p, i :: 0 <= p < |nodes| && 0 <= i < |nodes[p].childIds| ==>
          nodes[p].childIds[i] < |nodes| && nodes[nodes[p].childIds[i]].parentId == Some(p))
    && (forall p, i, j :: 0 <= p < |nodes| && 0 <= i < j < |nodes[p].childIds| ==>
          nodes[p].childIds[i] != nodes[p].childIds[j])
  }

  /** The ids `annotate_depth_subgraph(root, _)` visits: `root` and the subtrees of its children. */
  ghost function Below(kids: seq<seq<nat>>, height: seq<nat>, root: nat): (b: set<nat>)
    requires ChildRanked(kids, height) && root < |kids|
    decreases height[root], 1, 0
  {
    {root} + BelowAll(kids, height, root, |kids[root]|)
  }

  /** The subtrees of the first `n` children of `root`. */
  ghost function BelowAll(kids: seq<seq<nat>>, height: seq<nat>, root: nat, n: nat): (b: set<nat>)
    requires ChildRanked(kids, height) && root < |kids| && n <= |kids[root]|
    decreases height[root], 0, n
  {
    if n == 0 then {} else BelowAll(kids, height, root, n - 1) + Below(kids, height, kids[root][n - 1])
  }

  /** The ids written are exactly the ids visited, whatever the starting depth. */
  lemma {:induction false} DepthsKeys(kids: seq<seq<nat>>, height: seq<nat>, root: nat, d: int)
    requires ChildRanked(kids, height) && root < |kids|
    ensures Depths(kids, height, root, d).Keys == Below(kids, height, root)
    decreases height[root], 1, 0
  {
    DepthsAllKeys(kids, height, root, |kids[root]|, d + 1);
  }

  lemma {:induction false} DepthsAllKeys(kids: seq<seq<nat>>, height: seq<nat>, root: nat, n: nat, d: int)
    requires ChildRanked(kids, height) && root < |kids| && n <= |kids[root]|
    ensures DepthsAll(kids, height, root, n, d).Keys == BelowAll(kids, height, root, n)
    decreases height[root], 0, n
  {
    if n > 0 {
      DepthsAllKeys(kids, height, root, n - 1, d);
      DepthsKeys(kids, height, kids[root][n - 1], d);
    }
  }

  /** An id in the first `n` subtrees lies in one of them. */
  lemma {:induction false} BelowAllMember(kids: seq<seq<nat>>, height: seq<nat>, root: nat, n: nat, v: nat)
    requires ChildRanked(kids, height) && root < |kids| && n <= |kids[root]|
    requires v in BelowAll(kids, height, root, n)
    ensures exists j :: 0 <= j < n && v in Below(kids, height, kids[root][j])
  {
    if v !in Below(kids, height, kids[root][n - 1]) {
      BelowAllMember(kids, height, root, n - 1, v);
    }
  }

  /** Each child's subtree is among the first `n` subtrees when the child is. */
  lemma {:induction false} BelowAllHas(kids: seq<seq<nat>>, height: seq<nat>, root: nat, n: nat, j: nat)
    requires ChildRanked(kids, height) && root < |kids| && j < n <= |kids[root]|
    ensures Below(kids, height, kids[root][j]) <= BelowAll(kids, height, root, n)
  {
    if j < n - 1 {
      BelowAllHas(kids, height, root, n - 1, j);
    }
  }

  /** Every visited id ranks no higher than the root. */
  lemma {:induction false} BelowHeight(kids: seq<seq<nat>>, height: seq<nat>, root: nat, v: nat)
    requires ChildRanked(kids, height) && root < |kids| && v in Below(kids, height, root)
    ensures v < |kids| && height[v] <= height[root]
    decreases height[root]
  {
    if v != root {
      BelowAllMember(kids, height, root, |kids[root]|, v);
      var j :| 0 <= j < |kids[root]| && v in Below(kids, height, kids[root][j]);
      BelowHeight(kids, height, kids[root][j], v);
    }
  }

  /** Every id in the children's subtrees ranks below the root. */
  lemma BelowAllHeight(kids: seq<seq<nat>>, height: seq<nat>, root: nat, n: nat, v: nat)
    requires ChildRanked(kids, height) && root < |kids| && n <= |kids[root]|
    ensures v in BelowAll(kids, height, root, n) ==> v < |kids| && height[v] < height[root]
  {
    if v in BelowAll(kids, height, root, n) {
      BelowAllMember(kids, height, root, n, v);
      var j :| 0 <= j < n && v in Below(kids, height, kids[root][j]);
      BelowHeight(kids, height, kids[root][j], v);
    }
  }

  /** The children of a visited id are visited too. */
  lemma {:induction false} BelowClosed(kids: seq<seq<nat>>, height: seq<nat>, root: nat, p: nat, i: nat)
    requires ChildRanked(kids, height) && root < |kids| && p in Below(kids, height, root)
    requires p < |kids| && i < |kids[p]|
    ensures kids[p][i] in Below(kids, height, root)
    decreases height[root]
  {
    if p == root {
      BelowAllHas(kids, height, root, |kids[root]|, i);
    } else {
      BelowAllMember(kids, height, root, |kids[root]|, p);
      var j :| 0 <= j < |kids[root]| && p in Below(kids, height, kids[root][j]);
      BelowClosed(kids, height, kids[root][j], p, i);
      BelowAllHas(kids, height, root, |kids[root]|, j);
    }
  }

  /** In a tree, a visited id other than the root has its parent visited too. */
  lemma {:induction false} BelowParent(nodes: seq<Node>, height: seq<nat>, root: nat, v: nat)
    requires TreeShaped(nodes) && ChildRanked(Kids(nodes), height) && root < |nodes|
    requires v in Below(Kids(nodes), height, root) && v != root
    ensures v < |nodes| && nodes[v].parentId.Some? && nodes[v].parentId.value < |nodes|
    ensures nodes[v].parentId.value in Below(Kids(nodes), height, root)
    ensures v in nodes[nodes[v].parentId.value].childIds
    ensures height[v] < height[nodes[v].parentId.value]
    decreases height[root]
  {
    var kids := Kids(nodes);
    BelowAllMember(kids, height, root, |kids[root]|, v);
    var j :| 0 <= j < |kids[root]| && v in Below(kids, height, kids[root][j]);
    var c := kids[root][j];
    if v != c {
      BelowParent(nodes, height, c, v);
      BelowAllHas(kids, height, root, |kids[root]|, j);
    }
  }

  /** In a tree, the subtrees of two different children share no id. */
  lemma {:induction false} SubtreesDisjoint(nodes: seq<Node>, height: seq<nat>, root: nat, i: nat, j: nat, v: nat)
    requires TreeShaped(nodes) && ChildRanked(Kids(nodes), height) && root < |nodes|
    requires i < |nodes[root].childIds| && j < |nodes[root].childIds| && i != j
    ensures v !in Below(Kids(nodes), height, nodes[root].childIds[i]) || v !in Below(Kids(nodes), height, nodes[root].childIds[j])
    decreases if v < |height| && height[v] <= height[root] then height[root] - height[v] else 0
  {
    var kids := Kids(nodes);
    var a, b := kids[root][i], kids[root][j];
    if v in Below(kids, height, a) && v in Below(kids, height, b) {
      BelowHeight(kids, height, a, v);
      if v == a || v == b {
        var other := if v == a then b else a;
        assert v != other;
        BelowParent(nodes, height, other, v);
        BelowHeight(kids, height, other, root);
      } else {
        BelowParent(nodes, height, a, v);
        BelowParent(nodes, height, b, v);
        SubtreesDisjoint(nodes, height, root, i, j, nodes[v].parentId.value);
      }
    }
  }

  /** The subtrees of `root`'s first `n` children share no id. */
  ghost predicate Separate(kids: seq<seq<nat>>, height: seq<nat>, root: nat, n: nat)
    requires ChildRanked(kids, height) && root < |kids| && n <= |kids[root]|
  {
    forall i, j, v :: 0 <= i < j < n && v in Below(kids, height, kids[root][i]) ==> v !in Below(kids, height, kids[root][j])
  }

  /** With separate subtrees, each id of a child's subtree keeps the depth written by that child's visit. */
  lemma {:induction false} DepthsAllPick(kids: seq<seq<nat>>, height: seq<nat>, root: nat, n: nat, d: int, j: nat, v: nat)
    requires ChildRanked(kids, height) && root < |kids| && j < n <= |kids[root]|
    requires Separate(kids, height, root, n)
    requires v in Below(kids, height, kids[root][j])
    ensures v in DepthsAll(kids, height, root, n, d) && v in Depths(kids, height, kids[root][j], d)
    ensures DepthsAll(kids, height, root, n, d)[v] == Depths(kids, height, kids[root][j], d)[v]
  {
    var last := Depths(kids, height, kids[root][n - 1], d);
    assert DepthsAll(kids, height, root, n, d) == DepthsAll(kids, height, root, n - 1, d) + last;
    if j == n - 1 {
      DepthsKeys(kids, height, kids[root][j], d);
    } else {
      assert v !in last by {
        DepthsKeys(kids, height, kids[root][n - 1], d);
      }
      DepthsAllPick(kids, height, root, n - 1, d, j, v);
    }
  }

  /** In a tree, the subtrees of a node's children are separate. */
  lemma TreeSeparate(nodes: seq<Node>, height: seq<nat>, root: nat)
    requires TreeShaped(nodes) && ChildRanked(Kids(nodes), height) && root < |nodes|
    ensures Separate(Kids(nodes), height, root, |nodes[root].childIds|)
  {
    var kids := Kids(nodes);
    forall i, j, v | 0 <= i < j < |kids[root]| && v in Below(kids, height, kids[root][i])
      ensures v !in Below(kids, height, kids[root][j])
    {
      SubtreesDisjoint(nodes, height, root, i, j, v);
    }
  }

  /**
   * In a tree, `annotate_depth_subgraph(root, d - 1)` gives `root` the
   * depth `d` and every visited child its parent's depth plus one.
   */
  lemma {:induction false} DepthsTree(nodes: seq<Node>, height: seq<nat>, root: nat, d: int)
    requires TreeShaped(nodes) && ChildRanked(Kids(nodes), height) && root < |nodes|
    ensures Depths(Kids(nodes), height, root, d)[root] == d
    ensures forall p, i :: 0 <= p < |nodes| && p in Depths(Kids(nodes), height, root, d) && 0 <= i < |nodes[p].childIds| ==>
      && nodes[p].childIds[i] in Depths(Kids(nodes), height, root, d)
      && Depths(Kids(nodes), height, root, d)[nodes[p].childIds[i]] == Depths(Kids(nodes), height, root, d)[p] + 1
    decreases height[root]
  {
    var kids := Kids(nodes);
    var m := Depths(kids, height, root, d);
    var n := |kids[root]|;
    DepthsKeys(kids, height, root, d);
    DepthsAllKeys(kids, height, root, n, d + 1);
    TreeSeparate(nodes, height, root);
    assert root !in BelowAll(kids, height, root, n) by {
      BelowAllHeight(kids, height, root, n, root);
    }
    forall p, i | 0 <= p < |nodes| && p in m && 0 <= i < |nodes[p].childIds|
      ensures nodes[p].childIds[i] in m && m[nodes[p].childIds[i]] == m[p] + 1
    {
      var c := nodes[p].childIds[i];
      BelowClosed(kids, height, root, p, i);
      if p == root {
        DepthsAllPick(kids, height, root, n, d + 1, i, c);
        DepthsTree(nodes, height, c, d + 1);
      } else {
        BelowAllMember(kids, height, root, n, p);
        var j :| 0 <= j < n && p in Below(kids, height, kids[root][j]);
        BelowClosed(kids, height, kids[root][j], p, i);
        DepthsAllPick(kids, height, root, n, d + 1, j, p);
        DepthsAllPick(kids, height, root, n, d + 1, j, c);
        DepthsTree(nodes, height, kids[root][j], d + 1);
      }
    }
  }

  /**
   * In a tree whose `COM` orbits nothing, the depth `annotate_depth`
   * gives a node below `COM` is the number of objects it orbits directly
   * or indirectly: the length of its parent chain.
   */
  lemma {:induction false} DepthCountsOrbits(nodes: seq<Node>, height: seq<nat>, rank: seq<nat>, com: nat, v: nat)
    requires TreeShaped(nodes) && ChildRanked(Kids(nodes), height) && ParentRanked(nodes, rank)
    requires com < |nodes| && nodes[com].parentId.None?
    requires v in Below(Kids(nodes), height, com)
    ensures v < |nodes| && v in Depths(Kids(nodes), height, com, 0)
    ensures Depths(Kids(nodes), height, com, 0)[v] == |Chain(nodes, rank, v)|
    decreases if v < |height| && height[v] <= height[com] then height[com] - height[v] else 0
  {
    var kids := Kids(nodes);
    DepthsKeys(kids, height, com, 0);
    DepthsTree(nodes, height, com, 0);
    BelowHeight(kids, height, com, v);
    if v != com {
      BelowParent(nodes, height, com, v);
      var p := nodes[v].parentId.value;
      BelowHeight(kids, height, com, p);
      DepthCountsOrbits(nodes, height, rank, com, p);
      var i :| 0 <= i < |nodes[p].childIds| && nodes[p].childIds[i] == v;
    }
  }

  /** The number of direct and indirect orbits of the first `n` nodes. */
  ghost function OrbitCount(nodes: seq<Node>, rank: seq<nat>, n: nat): nat
    requires ParentRanked(nodes, rank) && n <= |nodes|
  {
    if n == 0 then 0 else OrbitCount(nodes, rank, n - 1) + |Chain(nodes, rank, n - 1)|
  }

  /** A checksum over nodes whose depths are their chain lengths counts the orbits. */
  lemma {:induction false} ChecksumCountsOrbits(written: seq<Node>, nodes: seq<Node>, rank: seq<nat>, n: nat)
    requires ParentRanked(nodes, rank) && |written| == |nodes| && n <= |nodes|
    requires forall v :: 0 <= v < |nodes| ==> written[v].depth == |Chain(nodes, rank, v)|
    ensures Checksum(written[..n]) == OrbitCount(nodes, rank, n)
  {
    if n > 0 {
      ChecksumLast(written, n);
      ChecksumCountsOrbits(written, nodes, rank, n - 1);
    }
  }

  /**
   * In a tree below a parentless `COM`, the checksum after
   * `annotate_depth` is the total number of direct and indirect orbits.
   */
  lemma ChecksumAll(nodes: seq<Node>, height: seq<nat>, rank: seq<nat>, com: nat)
    requires TreeShaped(nodes) && ChildRanked(Kids(nodes), height) && ParentRanked(nodes, rank)
    requires com < |nodes| && nodes[com].parentId.None?
    requires forall v :: 0 <= v < |nodes| ==> v in Below(Kids(nodes), height, com)
    ensures Checksum(Overwrite(nodes, Depths(Kids(nodes), height, com, 0))) == OrbitCount(nodes, rank, |nodes|)
  {
    var w := Overwrite(nodes, Depths(Kids(nodes), height, com, 0));
    forall v | 0 <= v < |nodes|
      ensures w[v].depth == |Chain(nodes, rank, v)|
    {
      AnnotatedDepth(nodes, height, rank, com, v);
    }
    ChecksumCountsOrbits(w, nodes, rank, |nodes|);
    assert w[..|w|] == w;
  }

  lemma ChecksumLast(nodes: seq<Node>, n: nat)
    requires 0 < n <= |nodes|
    ensures Checksum(nodes[..n]) == Checksum(nodes[..n - 1]) + nodes[n - 1].depth
  {
    assert nodes[..n][..n - 1] == nodes[..n - 1];
  }

  /** The depth `annotate_depth` leaves on a node below `COM` is the length of its parent chain. */
  lemma AnnotatedDepth(nodes: seq<Node>, height: seq<nat>, rank: seq<nat>, com: nat, v: nat)
    requires TreeShaped(nodes) && ChildRanked(Kids(nodes), height) && ParentRanked(nodes, rank)
    requires com < |nodes| && nodes[com].parentId.None? && v < |nodes|
    requires v in Below(Kids(nodes), height, com)
    ensures Overwrite(nodes, Depths(Kids(nodes), height, com, 0))[v].depth == |Chain(nodes, rank, v)|
  {
    DepthCountsOrbits(nodes, height, rank, com, v);
  }

  /** One input line `A)B`: `B` orbits `A`. A line without exactly one `)` makes the source panic. */
  function ParseOrbit(line: string): (r: (string, string))
    requires |Text.Split(line, ')')| == 2
    ensures r.0 + [')'] + r.1 == line
    ensures ')' !in r.0 && ')' !in r.1
  {
    var parts := Text.Split(line, ')');
    Text.JoinSplit(line, [')']);
    assert Text.Join(parts[1..], [')']) == parts[1];
    Text.SplitAvoids(line, ')', 0);
    Text.SplitAvoids(line, ')', 1);
    (parts[0], parts[1])
  }

  /** Every line of the input has the form `A)B`. */
  predicate WellFormed(input: string)
  {
    forall k :: 0 <= k < |Text.Lines(input)| ==> |Text.Split(Text.Lines(input)[k], ')')| == 2
  }

  /** The pairs of the input's lines, in order. */
  function ParseOrbits(input: string): (orbits: seq<(string, string)>)
    requires WellFormed(input)
    ensures |orbits| == |Text.Lines(input)|
    ensures forall k :: 0 <= k < |orbits| ==> orbits[k].0 + [')'] + orbits[k].1 == Text.Lines(input)[k]
  {
    var lines := Text.Lines(input);
    seq(|lines|, k requires 0 <= k < |lines| => ParseOrbit(lines[k]))
  }

  /** The map after `add_orbit` for each pair in turn, starting from the empty map. */
  function BuildMap(orbits: seq<(string, string)>): (s: MapState)
    ensures Valid(s)
  {
    if |orbits| == 0 then EMPTY
    else
      var n := |orbits| - 1;
      AddOrbitTo(BuildMap(orbits[..n]), orbits[n].0, orbits[n].1)
  }

  /** One more pair is one more `add_orbit`. */
  lemma BuildMapSnoc(orbits: seq<(string, string)>, i: nat)
    requires i < |orbits|
    ensures BuildMap(orbits[..i + 1]) == AddOrbitTo(BuildMap(orbits[..i]), orbits[i].0, orbits[i].1)
  {
    assert orbits[..i + 1][..i] == orbits[..i];
  }

  /** All names of the pairs. */
  function Names(orbits: seq<(string, string)>): set<string>
  {
    if |orbits| == 0 then {}
    else
      var n := |orbits| - 1;
      Names(orbits[..n]) + {orbits[n].0, orbits[n].1}
  }

  /** The centre of the last pair whose orbiting object is `name`, if any. */
  function ParentName(orbits: seq<(string, string)>, name: string): (r: Option<string>)
    ensures r.Some? ==> name in Names(orbits) && r.value in Names(orbits)
  {
    if |orbits| == 0 then None
    else
      var n := |orbits| - 1;
      if orbits[n].1 == name then Some(orbits[n].0) else ParentName(orbits[..n], name)
  }

  /** The names on the built map are exactly the names of the pairs. */
  lemma {:induction false} BuildMapNames(orbits: seq<(string, string)>)
    ensures BuildMap(orbits).nameToId.Keys == Names(orbits)
  {
    if |orbits| > 0 {
      var n := |orbits| - 1;
      BuildMapNames(orbits[..n]);
      AddOrbitNames(BuildMap(orbits[..n]), orbits[n].0, orbits[n].1);
    }
  }

  /** On the built map, an object's parent is the centre of the last pair naming it as orbiting, if any. */
  lemma {:induction false} BuildMapParent(orbits: seq<(string, string)>, name: string)
    requires name in Names(orbits)
    ensures var s := BuildMap(orbits);
      && name in s.nameToId
      && (ParentName(orbits, name).Some? ==> ParentName(orbits, name).value in s.nameToId)
      && s.nodes[s.nameToId[name]].parentId ==
           if ParentName(orbits, name).None? then None else Some(s.nameToId[ParentName(orbits, name).value])
  {
    var n := |orbits| - 1;
    var prev := BuildMap(orbits[..n]);
    var s := BuildMap(orbits);
    var center := orbits[n].0;
    var orbit := orbits[n].1;
    assert s == AddOrbitTo(prev, center, orbit);
    BuildMapNames(orbits);
    BuildMapNames(orbits[..n]);
    AddOrbitNames(prev, center, orbit);
    if orbit == name {
      AddOrbitLinks(prev, center, orbit);
      assert ParentName(orbits, name) == Some(center);
    } else {
      assert ParentName(orbits, name) == ParentName(orbits[..n], name);
      AddOrbitParents(prev, center, orbit, name);
      if name in Names(orbits[..n]) {
        BuildMapParent(orbits[..n], name);
      }
    }
  }

  /**
   * When no object orbits itself and none is named as orbiting twice,
   * the built map is a tree.
   */
  lemma {:induction false} BuildMapTree(orbits: seq<(string, string)>)
    requires forall k :: 0 <= k < |orbits| ==> orbits[k].0 != orbits[k].1
    requires forall k, j :: 0 <= k < j < |orbits| ==> orbits[k].1 != orbits[j].1
    ensures TreeShaped(BuildMap(orbits).nodes)
  {
    if |orbits| > 0 {
      var n := |orbits| - 1;
      var prev := BuildMap(orbits[..n]);
      BuildMapTree(orbits[..n]);
      BuildMapNames(orbits[..n]);
      var orbit := orbits[n].1;
      if orbit in prev.nameToId {
        BuildMapParent(orbits[..n], orbit);
        NeverOrbiting(orbits[..n], orbit);
      }
      AddOrbitTree(prev, orbits[n].0, orbit);
    }
  }

  /** A name that no pair names as orbiting has no parent name. */
  lemma {:induction false} NeverOrbiting(orbits: seq<(string, string)>, name: string)
    requires forall k :: 0 <= k < |orbits| ==> orbits[k].1 != name
    ensures ParentName(orbits, name).None?
  {
    if |orbits| > 0 {
      NeverOrbiting(orbits[..|orbits| - 1], name);
    }
  }

  /** The class of the source, holding a `MapState` in its three fields. */
  class UniversalOrbitMap {
    var comId: Option<nat>
    var nameToId: map<string, nat>
    var nodes: seq<Node>

    function State(): MapState
      reads this
    {
      MapState(comId, nameToId, nodes)
    }

    /** `UniversalOrbitMap::new`: no names, no nodes, no `COM`. */
    constructor()
      ensures State() == EMPTY
    {
      comId := None;
      nameToId := map[];
      nodes := [];
    }

    /** `insert_or_get_id`. */
    method InsertOrGetId(name: string) returns (id: nat)
      requires Valid(State())
      modifies this
      ensures (State(), id) == InsertName(old(State()), name)
    {
      if name in nameToId {
        id := nameToId[name];
      } else {
        id := |nodes|;
        if name == "COM" {
          comId := Some(id);
        }
        nameToId := nameToId[name := id];
        nodes := nodes + [NEW_NODE];
      }
    }

    /** `add_orbit`: `orbit` orbits `center`. */
    method AddOrbit(center: string, orbit: string)
      requires Valid(State())
      modifies this
      ensures State() == AddOrbitTo(old(State()), center, orbit)
    {
      var c := InsertOrGetId(center);
      var o := InsertOrGetId(orbit);
      nodes := nodes[c := nodes[c].(childIds := nodes[c].childIds + [o])];
      nodes := nodes[o := nodes[o].(parentId := Some(c))];
    }

    /** `annotate_depth_subgraph`: `root` gets `parentDepth + 1`, then each child's subtree in turn. */
    method AnnotateDepthSubgraph(root: nat, parentDepth: int, ghost height: seq<nat>)
      requires Valid(State()) && root < |nodes| && ChildRanked(Kids(nodes), height)
      modifies this
      ensures comId == old(comId) && nameToId == old(nameToId)
      ensures nodes == Overwrite(old(nodes), Depths(Kids(old(nodes)), height, root, parentDepth + 1))
      decreases height[root]
    {
      ghost var kids := Kids(nodes);
      ghost var start := State();
      var d := parentDepth + 1;
      nodes := nodes[root := nodes[root].(depth := d)];
      WrittenStart(start.nodes, kids, height, root, d);
      var children := nodes[root].childIds;
      for i := 0 to |children|
        invariant comId == start.comId && nameToId == start.nameToId
        invariant nodes == Overwrite(start.nodes, Written(kids, height, root, d, i))
      {
        OverwriteKeeps(start, Written(kids, height, root, d, i));
        AnnotateDepthSubgraph(children[i], d, height);
        WrittenStep(start.nodes, kids, height, root, d, i);
      }
    }

    /** `annotate_depth`: depths below `COM`, which must be on the map (a panic otherwise). */
    method AnnotateDepth(ghost height: seq<nat>)
      requires Valid(State()) && comId.Some? && ChildRanked(Kids(nodes), height)
      modifies this
      ensures comId == old(comId) && nameToId == old(nameToId)
      ensures nodes == Overwrite(old(nodes), Depths(Kids(old(nodes)), height, comId.value, 0))
    {
      AnnotateDepthSubgraph(comId.value, -1, height);
    }

    /** `get_checksum`: the sum of the depths. */
    method GetChecksum() returns (sum: int)
      ensures sum == Checksum(nodes)
    {
      sum := 0;
      for i := 0 to |nodes|
        invariant sum == Checksum(nodes[..i])
      {
        assert nodes[..i + 1][..i] == nodes[..i];
        sum := sum + nodes[i].depth;
      }
      assert nodes[..|nodes|] == nodes;
    }

    /** `get_parent_chain`: `None` for an unknown name, else the ids up the parent links. */
    method GetParentChain(name: string, ghost rank: seq<nat>) returns (chain: Option<seq<nat>>)
      requires Valid(State()) && ParentRanked(nodes, rank)
      ensures name !in nameToId ==> chain == None
      ensures name in nameToId ==> chain == Some(Chain(nodes, rank, nameToId[name]))
    {
      if name !in nameToId {
        return None;
      }
      var node: nat := nameToId[name];
      ghost var whole := Chain(nodes, rank, node);
      var parentChain: seq<nat> := [];
      while nodes[node].parentId.Some?
        invariant node < |nodes|
        invariant parentChain + Chain(nodes, rank, node) == whole
        decreases rank[node]
      {
        var id := nodes[node].parentId.value;
        assert Chain(nodes, rank, node) == [id] + Chain(nodes, rank, id);
        assert (parentChain + [id]) + Chain(nodes, rank, id) == parentChain + ([id] + Chain(nodes, rank, id));
        parentChain := parentChain + [id];
        node := id;
      }
      assert parentChain + [] == parentChain;
      chain := Some(parentChain);
    }
  }

  /** Part two's loop: the first entry of `you` found on `san` decides the count. */
  method MinOrbitTransfers(you: seq<nat>, san: seq<nat>) returns (transfers: nat)
    ensures transfers == Transfers(you, san)
  {
    transfers := 0;
    for i := 0 to |you|
      invariant TransfersFrom(you, san, i) == Transfers(you, san)
    {
      var pos := Position(san, you[i]);
      if pos.Some? {
        transfers := i + pos.value;
        return;
      }
    }
  }

  /** `create_map_from_input`: one `add_orbit` per line, in order. */
  method CreateMap(input: string) returns (uom: UniversalOrbitMap)
    requires WellFormed(input)
    ensures fresh(uom) && uom.State() == BuildMap(ParseOrbits(input))
  {
    var orbits := ParseOrbits(input);
    uom := new UniversalOrbitMap();
    for i := 0 to |orbits|
      invariant uom.State() == BuildMap(orbits[..i])
    {
      BuildMapSnoc(orbits, i);
      uom.AddOrbit(orbits[i].0, orbits[i].1);
    }
    assert orbits[..|orbits|] == orbits;
  }

  /** `part_one`: the checksum after `annotate_depth`; `COM` must be on the map (a panic otherwise). */
  method PartOne(input: string, ghost height: seq<nat>) returns (checksum: int)
    requires WellFormed(input) && "COM" in BuildMap(ParseOrbits(input)).nameToId
    requires ChildRanked(Kids(BuildMap(ParseOrbits(input)).nodes), height)
    ensures var s := BuildMap(ParseOrbits(input));
      checksum == Checksum(Overwrite(s.nodes, Depths(Kids(s.nodes), height, s.nameToId["COM"], 0)))
  {
    var uom := CreateMap(input);
    uom.AnnotateDepth(height);
    checksum := uom.GetChecksum();
  }

  /**
   * `part_two`: the transfers between the objects `YOU` and `SAN` orbit;
   * both must be on the map (a panic otherwise).
   */
  method PartTwo(input: string, ghost rank: seq<nat>) returns (transfers: nat)
    requires WellFormed(input)
    requires "YOU" in BuildMap(ParseOrbits(input)).nameToId && "SAN" in BuildMap(ParseOrbits(input)).nameToId
    requires ParentRanked(BuildMap(ParseOrbits(input)).nodes, rank)
    ensures var s := BuildMap(ParseOrbits(input));
      transfers == Transfers(Chain(s.nodes, rank, s.nameToId["YOU"]), Chain(s.nodes, rank, s.nameToId["SAN"]))
  {
    var uom := CreateMap(input);
    var you := uom.GetParentChain("YOU", rank);
    var san := uom.GetParentChain("SAN", rank);
    transfers := MinOrbitTransfers(you.value, san.value);
  }

  /** When no pair names `COM` as orbiting, `COM` has no parent on the built map. */
  lemma ComParentless(orbits: seq<(string, string)>)
    requires forall k :: 0 <= k < |orbits| ==> orbits[k].1 != "COM"
    requires "COM" in BuildMap(orbits).nameToId
    ensures BuildMap(orbits).nodes[BuildMap(orbits).nameToId["COM"]].parentId.None?
  {
    BuildMapNames(orbits);
    NeverOrbiting(orbits, "COM");
    BuildMapParent(orbits, "COM");
  }

  /**
   * For pairs where no object orbits itself or two others, `COM` orbits
   * nothing and every object lies below `COM`, part one's checksum is the
   * total number of direct and indirect orbits.
   */
  lemma TotalOrbits(orbits: seq<(string, string)>, height: seq<nat>, rank: seq<nat>)
    requires forall k :: 0 <= k < |orbits| ==> orbits[k].0 != orbits[k].1 && orbits[k].1 != "COM"
    requires forall k, j :: 0 <= k < j < |orbits| ==> orbits[k].1 != orbits[j].1
    requires var s := BuildMap(orbits);
      && "COM" in s.nameToId
      && ChildRanked(Kids(s.nodes), height) && ParentRanked(s.nodes, rank)
      && forall v :: 0 <= v < |s.nodes| ==> v in Below(Kids(s.nodes), height, s.nameToId["COM"])
    ensures var s := BuildMap(orbits);
      Checksum(Overwrite(s.nodes, Depths(Kids(s.nodes), height, s.nameToId["COM"], 0)))
        == OrbitCount(s.nodes, rank, |s.nodes|)
  {
    var s := BuildMap(orbits);
    var com := s.nameToId["COM"];
    BuildMapTree(orbits);
    ComParentless(orbits);
    ChecksumAll(s.nodes, height, rank, com);
  }
}
