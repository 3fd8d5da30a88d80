/** The Merkle tree of a list of data (lib/utils/merkle_tree.go). */
module Merkle {
  import opened Structures

  /** A node with two children, or a leaf with none; both hold a hash. */
  datatype MerkleNode = Leaf(data: Bytes) | Node(left: MerkleNode, right: MerkleNode, data: Bytes)

  /** The hash function is a parameter; its results have one length. */
  type HashFun = Bytes -> Bytes

  const HASH_LENGTH := 32

  ghost predicate FixedLength(h: HashFun) {
    forall x :: |h(x)| == HASH_LENGTH
  }

  function NewLeaf(h: HashFun, data: Bytes): MerkleNode {
    Leaf(h(data))
  }

  function NewNode(h: HashFun, left: MerkleNode, right: MerkleNode): MerkleNode
  {
    Node(left, right, h(left.data + right.data))
  }

  // ----- the levels

  predicate IsEven(n: nat) {
    n == 0 || (n >= 2 && IsEven(n - 2))
  }

  function Half(n: nat): nat {
    if n < 2 then 0 else Half(n - 2) + 1
  }

  lemma {:induction false} EvenHalf(n: nat)
    ensures IsEven(n) <==> n % 2 == 0
    ensures Half(n) == n / 2
  {
    if n >= 2 {
      EvenHalf(n - 2);
    }
  }

  /** A list of odd length gets its last element a second time. */
  function Even<T>(s: seq<T>): seq<T> {
    if IsEven(|s|) || s == [] then s else s + [s[|s| - 1]]
  }

  ghost function Paired(h: HashFun, nodes: seq<MerkleNode>): seq<MerkleNode> {
    if |nodes| < 2 then [] else
      Paired(h, nodes[..|nodes| - 2]) + [NewNode(h, nodes[|nodes| - 2], nodes[|nodes| - 1])]
  }

  ghost function NextLevel(h: HashFun, nodes: seq<MerkleNode>): seq<MerkleNode> {
    Even(Paired(h, nodes))
  }

  ghost function Leaves(h: HashFun, data: seq<Bytes>): (r: seq<MerkleNode>)
    ensures |r| == |Even(data)|
  {
    var d := Even(data);
    seq(|d|, i requires 0 <= i < |d| => NewLeaf(h, d[i]))
  }

  ghost function LevelAfter(h: HashFun, nodes: seq<MerkleNode>, k: nat): seq<MerkleNode> {
    if k == 0 then nodes else NextLevel(h, LevelAfter(h, nodes, k - 1))
  }

  /** What a level must be for its nodes to be paired: not empty and of even length. */
  ghost predicate Pairable(n: nat) {
    n > 0 && IsEven(n)
  }

  /** Length of the next level. */
  ghost function Halved(n: nat): nat {
    if IsEven(Half(n)) then Half(n) else Half(n) + 1
  }

  lemma {:induction false} PairedLength(h: HashFun, nodes: seq<MerkleNode>)
    ensures |Paired(h, nodes)| == Half(|nodes|)
  {
    if |nodes| >= 2 {
      PairedLength(h, nodes[..|nodes| - 2]);
    }
  }

  lemma NextLength(h: HashFun, nodes: seq<MerkleNode>)
    ensures |NextLevel(h, nodes)| == Halved(|nodes|)
  {
    PairedLength(h, nodes);
  }

  lemma HalvedShrinks(n: nat)
    requires Pairable(n)
    ensures Pairable(Halved(n)) && Halved(n) <= if n >= 4 then n - 2 else 2
  {
    EvenHalf(n);
    EvenHalf(n / 2);
    EvenHalf(n / 2 + 1);
  }

  /** Every level can be paired, and each round but the last ones takes two nodes away. */
  lemma {:induction false} LevelShrinks(h: HashFun, nodes: seq<MerkleNode>, k: nat)
    requires Pairable(|nodes|)
    ensures Pairable(|LevelAfter(h, nodes, k)|)
    ensures |LevelAfter(h, nodes, k)| <= if 2 <= |nodes| - 2 * k then |nodes| - 2 * k else 2
  {
    if k > 0 {
      var before := LevelAfter(h, nodes, k - 1);
      LevelShrinks(h, nodes, k - 1);
      NextLength(h, before);
      HalvedShrinks(|before|);
    }
  }

  lemma PaddedPairable<T>(data: seq<T>)
    requires data != []
    ensures Pairable(|Even(data)|)
  {
    EvenHalf(|data|);
    EvenHalf(|data| + 1);
  }

  method BuildLevel(h: HashFun, nodes: seq<MerkleNode>) returns (newLevel: seq<MerkleNode>)
    requires Pairable(|nodes|)
    ensures newLevel == NextLevel(h, nodes)
  {
    newLevel := [];
    var j := 0;
    EvenHalf(|nodes|);
    while j < |nodes|
      invariant 0 <= j <= |nodes| && j % 2 == 0
      invariant newLevel == Paired(h, nodes[..j])
    {
      assert nodes[..j + 2][..j] == nodes[..j];
      newLevel := newLevel + [NewNode(h, nodes[j], nodes[j + 1])];
      j := j + 2;
    }
    assert nodes[..|nodes|] == nodes;
    EvenHalf(|newLevel|);
    if |newLevel| % 2 != 0 {
      newLevel := newLevel + [newLevel[|newLevel| - 1]];
    }
  }

  /** Only nodes that exist are paired: the first node after half as many rounds as there
      are data is returned. */
  method NewMerkleTree(h: HashFun, data: seq<Bytes>) returns (root: MerkleNode)
    requires data != []
    ensures LevelAfter(h, Leaves(h, data), Half(|Even(data)|)) != []
    ensures root == LevelAfter(h, Leaves(h, data), Half(|Even(data)|))[0]
  {
    var padded := data;
    EvenHalf(|data|);
    EvenHalf(|Even(data)|);
    if |data| % 2 != 0 {
      padded := data + [data[|data| - 1]];
    }
    var nodes: seq<MerkleNode> := [];
    for i := 0 to |padded|
      invariant nodes == Leaves(h, data)[..i]
    {
      nodes := nodes + [NewLeaf(h, padded[i])];
    }
    assert nodes == Leaves(h, data);
    PaddedPairable(data);
    for i := 0 to |padded| / 2
      invariant nodes == LevelAfter(h, Leaves(h, data), i) && Pairable(|nodes|)
    {
      NextLength(h, nodes);
      HalvedShrinks(|nodes|);
      nodes := BuildLevel(h, nodes);
    }
    root := nodes[0];
  }

  // ----- the rounds suffice

  /** The hashes of the leaves under a node, from left to right. */
  ghost function Under(node: MerkleNode): seq<Bytes> {
    match node
    case Leaf(d) => [d]
    case Node(l, r, _) => Under(l) + Under(r)
  }

  ghost function UnderAll(nodes: seq<MerkleNode>): seq<Bytes> {
    if nodes == [] then [] else UnderAll(nodes[..|nodes| - 1]) + Under(nodes[|nodes| - 1])
  }

  lemma UnderTwo(nodes: seq<MerkleNode>, k: nat)
    requires k + 1 < |nodes|
    ensures UnderAll(nodes[..k + 2]) == UnderAll(nodes[..k]) + (Under(nodes[k]) + Under(nodes[k + 1]))
  {
    assert nodes[..k + 2][..k + 1] == nodes[..k + 1] && nodes[..k + 1][..k] == nodes[..k];
    assert UnderAll(nodes[..k + 2]) == UnderAll(nodes[..k]) + Under(nodes[k]) + Under(nodes[k + 1]);
  }

  lemma {:induction false} PairedUnder(h: HashFun, nodes: seq<MerkleNode>)
    requires IsEven(|nodes|)
    ensures UnderAll(Paired(h, nodes)) == UnderAll(nodes)
  {
    if nodes != [] {
      var k := |nodes| - 2;
      PairedUnder(h, nodes[..k]);
      UnderTwo(nodes, k);
      assert nodes[..k + 2] == nodes;
      var p := Paired(h, nodes[..k]);
      assert (p + [NewNode(h, nodes[k], nodes[k + 1])])[..|p|] == p;
    }
  }

  lemma LevelUnder(h: HashFun, nodes: seq<MerkleNode>)
    requires Pairable(|nodes|)
    ensures UnderAll(nodes) <= UnderAll(NextLevel(h, nodes))
  {
    var p := Paired(h, nodes);
    PairedUnder(h, nodes);
    if !IsEven(|p|) && p != [] {
      assert (p + [p[|p| - 1]])[..|p|] == p;
    }
  }

  lemma RootUnder(h: HashFun, nodes: seq<MerkleNode>)
    requires |nodes| == 2
    ensures |NextLevel(h, nodes)| == 2 && NextLevel(h, nodes)[0] == NextLevel(h, nodes)[1]
    ensures UnderAll(nodes) == Under(NextLevel(h, nodes)[0])
  {
    assert nodes[..2] == nodes && nodes[..0] == [];
    UnderTwo(nodes, 0);
    assert Paired(h, nodes[..0]) == [];
    assert Paired(h, nodes) == [NewNode(h, nodes[0], nodes[1])];
  }

  lemma {:induction false} LevelsUnder(h: HashFun, nodes: seq<MerkleNode>, k: nat)
    requires Pairable(|nodes|)
    ensures UnderAll(nodes) <= UnderAll(LevelAfter(h, nodes, k))
  {
    if k > 0 {
      var j := k - 1;
      var before := LevelAfter(h, nodes, j);
      LevelsUnder(h, nodes, j);
      LevelShrinks(h, nodes, j);
      LevelUnder(h, before);
      assert LevelAfter(h, nodes, k) == NextLevel(h, before);
    }
  }

  lemma {:induction false} LeavesUnder(h: HashFun, d: seq<Bytes>, nodes: seq<MerkleNode>)
    requires |nodes| == |d| && forall i | 0 <= i < |d| :: nodes[i] == NewLeaf(h, d[i])
    ensures |UnderAll(nodes)| == |d| && forall i | 0 <= i < |d| :: UnderAll(nodes)[i] == h(d[i])
  {
    if d != [] {
      LeavesUnder(h, d[..|d| - 1], nodes[..|d| - 1]);
    }
  }

  /** The last round turns two nodes into the root. */
  lemma LastRound(h: HashFun, data: seq<Bytes>, k: nat)
    requires data != [] && k == Half(|Even(data)|) - 1
    ensures |LevelAfter(h, Leaves(h, data), k)| == 2
    ensures LevelAfter(h, Leaves(h, data), Half(|Even(data)|)) == NextLevel(h, LevelAfter(h, Leaves(h, data), k))
  {
    PaddedPairable(data);
    EvenHalf(|Even(data)|);
    LevelShrinks(h, Leaves(h, data), k);
  }

  /** Half as many rounds as there are data bring every leaf under the root: its leaves
      begin with the hashes of all the data, in order. */
  lemma RootCoversAll(h: HashFun, data: seq<Bytes>)
    requires data != []
    ensures var top := LevelAfter(h, Leaves(h, data), Half(|Even(data)|));
            && top != [] && |Even(data)| <= |Under(top[0])|
            && (forall i | 0 <= i < |Even(data)| :: Under(top[0])[i] == h(Even(data)[i]))
            && (forall i | 0 <= i < |data| :: Under(top[0])[i] == h(data[i]))
            && (|data| % 2 == 1 ==> |data| < |Under(top[0])| && Under(top[0])[|data|] == h(data[|data| - 1]))
  {
    var d, nodes := Even(data), Leaves(h, data);
    EvenHalf(|data|);
    var k := Half(|d|) - 1;
    PaddedPairable(data);
    LastRound(h, data, k);
    LevelsUnder(h, nodes, k);
    RootUnder(h, LevelAfter(h, nodes, k));
    LeavesUnder(h, d, nodes);
  }

  /** Every inner node holds the hash of the hashes of its children, left before right. */
  ghost predicate WellHashed(h: HashFun, node: MerkleNode) {
    match node
    case Leaf(_) => true
    case Node(l, r, d) => d == h(l.data + r.data) && WellHashed(h, l) && WellHashed(h, r)
  }

  ghost predicate AllWellHashed(h: HashFun, nodes: seq<MerkleNode>) {
    forall node | node in nodes :: WellHashed(h, node)
  }

  lemma {:induction false} PairedWellHashed(h: HashFun, nodes: seq<MerkleNode>)
    requires AllWellHashed(h, nodes)
    ensures AllWellHashed(h, Paired(h, nodes))
  {
    if |nodes| >= 2 {
      var n := |nodes| - 2;
      assert nodes[n] in nodes && nodes[n + 1] in nodes;
      PairedWellHashed(h, nodes[..n]);
    }
  }

  lemma {:induction false} LevelWellHashed(h: HashFun, data: seq<Bytes>, k: nat)
    ensures AllWellHashed(h, LevelAfter(h, Leaves(h, data), k))
  {
    if k > 0 {
      LevelWellHashed(h, data, k - 1);
      PairedWellHashed(h, LevelAfter(h, Leaves(h, data), k - 1));
    }
  }

  /** The hash of the root comes from hashing, node by node, over the leaves. */
  lemma RootWellHashed(h: HashFun, data: seq<Bytes>)
    requires data != []
    ensures var top := LevelAfter(h, Leaves(h, data), Half(|Even(data)|));
            top != [] && WellHashed(h, top[0])
  {
    RootCoversAll(h, data);
    LevelWellHashed(h, data, Half(|Even(data)|));
  }

  // ----- the root binds the data

  ghost predicate Injective(h: HashFun, inputs: set<Bytes>) {
    forall x, y | x in inputs && y in inputs && h(x) == h(y) :: x == y
  }

  ghost function DataOf(nodes: seq<MerkleNode>): (r: seq<Bytes>)
    ensures |r| == |nodes|
  {
    seq(|nodes|, i requires 0 <= i < |nodes| => nodes[i].data)
  }

  ghost predicate Hashes(nodes: seq<MerkleNode>) {
    forall i | 0 <= i < |nodes| :: |nodes[i].data| == HASH_LENGTH
  }

  /** What is hashed when a level is paired. */
  ghost function PairInputs(nodes: seq<MerkleNode>): set<Bytes> {
    if |nodes| < 2 then {} else
      PairInputs(nodes[..|nodes| - 2]) + {nodes[|nodes| - 2].data + nodes[|nodes| - 1].data}
  }

  /** What is hashed while a tree is built for k rounds over its leaves. */
  ghost function Inputs(h: HashFun, data: seq<Bytes>, k: nat): set<Bytes> {
    if k == 0 then (set d | d in Even(data))
    else Inputs(h, data, k - 1) + PairInputs(LevelAfter(h, Leaves(h, data), k - 1))
  }

  lemma {:induction false} AllHashes(h: HashFun, data: seq<Bytes>, k: nat)
    requires FixedLength(h)
    ensures Hashes(LevelAfter(h, Leaves(h, data), k))
  {
    if k > 0 {
      AllHashes(h, data, k - 1);
      NextHashes(h, LevelAfter(h, Leaves(h, data), k - 1));
    }
  }

  lemma {:induction false} PairedHashes(h: HashFun, nodes: seq<MerkleNode>)
    requires FixedLength(h)
    ensures Hashes(Paired(h, nodes))
  {
    if |nodes| >= 2 {
      PairedHashes(h, nodes[..|nodes| - 2]);
    }
  }

  lemma NextHashes(h: HashFun, nodes: seq<MerkleNode>)
    requires FixedLength(h)
    ensures Hashes(NextLevel(h, nodes))
  {
    PairedHashes(h, nodes);
  }

  lemma SplitsEqually(a: Bytes, b: Bytes, c: Bytes, d: Bytes)
    requires |a| == |c| && a + b == c + d
    ensures a == c && b == d
  {
    assert (a + b)[..|a|] == a && (c + d)[..|c|] == c;
    assert (a + b)[|a|..] == b && (c + d)[|c|..] == d;
  }

  lemma DataOfSnoc(nodes: seq<MerkleNode>, node: MerkleNode)
    ensures DataOf(nodes + [node]) == DataOf(nodes) + [node.data]
  {
  }

  lemma SnocEqual(a: seq<Bytes>, x: Bytes, b: seq<Bytes>, y: Bytes)
    requires a + [x] == b + [y]
    ensures a == b && x == y
  {
    assert (a + [x])[..|a|] == a && (b + [y])[..|b|] == b;
    assert (a + [x])[|a|] == x && (b + [y])[|b|] == y;
  }

  /** Pairing equal hashes gives equal lists only from equal lists. */
  lemma {:induction false} PairsBind(h: HashFun, x: seq<MerkleNode>, y: seq<MerkleNode>, inputs: set<Bytes>)
    requires IsEven(|x|) && Hashes(x) && Hashes(y) && |x| == |y|
    requires Injective(h, inputs) && PairInputs(x) <= inputs && PairInputs(y) <= inputs
    requires DataOf(Paired(h, x)) == DataOf(Paired(h, y))
    ensures DataOf(x) == DataOf(y)
  {
    if x != [] {
      var k := |x| - 2;
      var nx, ny := NewNode(h, x[k], x[k + 1]), NewNode(h, y[k], y[k + 1]);
      DataOfSnoc(Paired(h, x[..k]), nx);
      DataOfSnoc(Paired(h, y[..k]), ny);
      SnocEqual(DataOf(Paired(h, x[..k])), nx.data, DataOf(Paired(h, y[..k])), ny.data);
      PairsBind(h, x[..k], y[..k], inputs);
      SplitsEqually(x[k].data, x[k + 1].data, y[k].data, y[k + 1].data);
      LastTwo(x, y, k);
    }
  }

  lemma LastTwo(x: seq<MerkleNode>, y: seq<MerkleNode>, k: nat)
    requires |x| == |y| == k + 2 && DataOf(x[..k]) == DataOf(y[..k])
    requires x[k].data == y[k].data && x[k + 1].data == y[k + 1].data
    ensures DataOf(x) == DataOf(y)
  {
    forall i | 0 <= i < |x|
      ensures DataOf(x)[i] == DataOf(y)[i]
    {
      if i < k {
        assert DataOf(x[..k])[i] == x[i].data && DataOf(y[..k])[i] == y[i].data;
      }
    }
  }

  lemma LevelBinds(h: HashFun, x: seq<MerkleNode>, y: seq<MerkleNode>, inputs: set<Bytes>)
    requires Pairable(|x|) && Hashes(x) && Hashes(y) && |x| == |y|
    requires Injective(h, inputs) && PairInputs(x) <= inputs && PairInputs(y) <= inputs
    requires DataOf(NextLevel(h, x)) == DataOf(NextLevel(h, y))
    ensures DataOf(x) == DataOf(y)
  {
    var p, q := Paired(h, x), Paired(h, y);
    PairedLength(h, x);
    PairedLength(h, y);
    forall i | 0 <= i < |p|
      ensures DataOf(p)[i] == DataOf(q)[i]
    {
      assert DataOf(NextLevel(h, x))[i] == p[i].data && DataOf(NextLevel(h, y))[i] == q[i].data;
    }
    PairsBind(h, x, y, inputs);
  }

  lemma {:induction false} SameLengths(h: HashFun, x: seq<MerkleNode>, y: seq<MerkleNode>, k: nat)
    requires |x| == |y|
    ensures |LevelAfter(h, x, k)| == |LevelAfter(h, y, k)|
  {
    if k > 0 {
      SameLengths(h, x, y, k - 1);
      NextLength(h, LevelAfter(h, x, k - 1));
      NextLength(h, LevelAfter(h, y, k - 1));
    }
  }

  lemma SameLeaves(h: HashFun, a: seq<Bytes>, b: seq<Bytes>, inputs: set<Bytes>)
    requires |Even(a)| == |Even(b)| && Injective(h, inputs)
    requires Inputs(h, a, 0) <= inputs && Inputs(h, b, 0) <= inputs
    requires DataOf(Leaves(h, a)) == DataOf(Leaves(h, b))
    ensures Even(a) == Even(b)
  {
    forall i | 0 <= i < |Even(a)|
      ensures Even(a)[i] == Even(b)[i]
    {
      assert DataOf(Leaves(h, a))[i] == h(Even(a)[i]) && DataOf(Leaves(h, b))[i] == h(Even(b)[i]);
    }
  }

  lemma OneRound(h: HashFun, data: seq<Bytes>, k: nat, k': nat)
    requires k' == k + 1
    ensures LevelAfter(h, Leaves(h, data), k') == NextLevel(h, LevelAfter(h, Leaves(h, data), k))
    ensures Inputs(h, data, k') == Inputs(h, data, k) + PairInputs(LevelAfter(h, Leaves(h, data), k))
  {
  }

  /** Equal levels come from equal levels before. */
  lemma LevelBack(h: HashFun, a: seq<Bytes>, b: seq<Bytes>, inputs: set<Bytes>, k: nat, k': nat)
    requires FixedLength(h) && a != [] && |Even(a)| == |Even(b)| && k' == k + 1
    requires Injective(h, inputs) && Inputs(h, a, k') <= inputs && Inputs(h, b, k') <= inputs
    requires DataOf(LevelAfter(h, Leaves(h, a), k')) == DataOf(LevelAfter(h, Leaves(h, b), k'))
    ensures DataOf(LevelAfter(h, Leaves(h, a), k)) == DataOf(LevelAfter(h, Leaves(h, b), k))
    ensures Inputs(h, a, k) <= inputs && Inputs(h, b, k) <= inputs
  {
    var x, y := LevelAfter(h, Leaves(h, a), k), LevelAfter(h, Leaves(h, b), k);
    OneRound(h, a, k, k');
    OneRound(h, b, k, k');
    SameLengths(h, Leaves(h, a), Leaves(h, b), k);
    AllHashes(h, a, k);
    AllHashes(h, b, k);
    PaddedPairable(a);
    LevelShrinks(h, Leaves(h, a), k);
    LevelBinds(h, x, y, inputs);
  }

  lemma {:induction false} LevelsBind(h: HashFun, a: seq<Bytes>, b: seq<Bytes>, inputs: set<Bytes>, k: nat)
    requires FixedLength(h) && a != [] && |Even(a)| == |Even(b)|
    requires Injective(h, inputs) && Inputs(h, a, k) <= inputs && Inputs(h, b, k) <= inputs
    requires DataOf(LevelAfter(h, Leaves(h, a), k)) == DataOf(LevelAfter(h, Leaves(h, b), k))
    ensures Even(a) == Even(b)
  {
    if k == 0 {
      SameLeaves(h, a, b, inputs);
    } else {
      var j := k - 1;
      LevelBack(h, a, b, inputs, j, k);
      LevelsBind(h, a, b, inputs, j);
    }
  }

  /** After the last round the level is the root twice. */
  lemma LastLevel(h: HashFun, data: seq<Bytes>)
    requires data != []
    ensures var last := LevelAfter(h, Leaves(h, data), Half(|Even(data)|));
            |last| == 2 && last[0] == last[1]
  {
    PaddedPairable(data);
    LastRound(h, data, Half(|Even(data)|) - 1);
    RootUnder(h, LevelAfter(h, Leaves(h, data), Half(|Even(data)|) - 1));
  }

  /** With a hash that is injective on what is hashed, two lists of equal padded length
      have the same root exactly when the padded lists are equal. */
  lemma RootBinds(h: HashFun, a: seq<Bytes>, b: seq<Bytes>, k: nat)
    requires FixedLength(h) && a != [] && b != [] && |Even(a)| == |Even(b)| && k == Half(|Even(a)|)
    requires Injective(h, Inputs(h, a, k) + Inputs(h, b, k))
    ensures var x, y := LevelAfter(h, Leaves(h, a), k), LevelAfter(h, Leaves(h, b), k);
            x != [] && y != [] && (x[0].data == y[0].data <==> Even(a) == Even(b))
  {
    var x, y := LevelAfter(h, Leaves(h, a), k), LevelAfter(h, Leaves(h, b), k);
    LastLevel(h, a);
    LastLevel(h, b);
    if x[0].data == y[0].data {
      assert DataOf(x) == DataOf(y);
      LevelsBind(h, a, b, Inputs(h, a, k) + Inputs(h, b, k), k);
    }
    if Even(a) == Even(b) {
      assert Leaves(h, a) == Leaves(h, b);
    }
  }
}
