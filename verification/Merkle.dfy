/** The Merkle tree over the hashes of a block's transactions (internal/merkle/merkle_tree.go). */
module Merkle {

  type Hash = int

  // Hash256 of two concatenated hashes.
  type Combine = (Hash, Hash) -> Hash

  ghost predicate Injective(h: Combine) {
    forall a, b, c, d :: h(a, b) == h(c, d) ==> a == c && b == d
  }

  // ---- what the tree holds, level by level ----

  function Half(n: nat): nat {
    (n + 1) / 2
  }

  // The right child of the i-th of n nodes' parents; the last node of an odd level is paired with itself.
  function RightOf(i: nat, n: nat): (j: nat)
    requires i < Half(n)
    ensures j < n
  {
    if 2 * i + 1 == n then 2 * i else 2 * i + 1
  }

  function Parents(h: Combine, level: seq<Hash>): (r: seq<Hash>)
    ensures |r| == Half(|level|)
  {
    seq(Half(|level|), i requires 0 <= i < Half(|level|) => h(level[2 * i], level[RightOf(i, |level|)]))
  }

  function Levels(h: Combine, leaves: seq<Hash>): (r: seq<seq<Hash>>)
    requires leaves != []
    ensures r != [] && r[0] == leaves && |r[|r| - 1]| == 1
    decreases |leaves|
  {
    if |leaves| == 1 then [leaves] else [leaves] + Levels(h, Parents(h, leaves))
  }

  function Root(h: Combine, leaves: seq<Hash>): Hash
    requires leaves != []
  {
    var levels := Levels(h, leaves);
    levels[|levels| - 1][0]
  }

  function Pow2(k: nat): (p: nat)
    ensures p >= 1
  {
    if k == 0 then 1 else 2 * Pow2(k - 1)
  }

  /** The number of levels is the binary logarithm of the number of leaves, rounded up, plus one. */
  lemma {:induction false} DepthIsLogarithm(h: Combine, leaves: seq<Hash>)
    requires leaves != []
    ensures var d := |Levels(h, leaves)|; Pow2(d - 1) >= |leaves| && (d >= 2 ==> Pow2(d - 2) < |leaves|)
    decreases |leaves|
  {
    if |leaves| > 1 {
      var above := Parents(h, leaves);
      var d := |Levels(h, above)|;
      DepthIsLogarithm(h, above);
      assert Pow2(d) == 2 * Pow2(d - 1);
      assert d >= 2 ==> Pow2(d - 1) == 2 * Pow2(d - 2);
    }
  }

  lemma RootAbove(h: Combine, leaves: seq<Hash>)
    requires |leaves| > 1
    ensures Root(h, leaves) == Root(h, Parents(h, leaves))
  {
  }

  lemma Unpaired(h: Combine, a: Hash, b: Hash, c: Hash, d: Hash)
    requires Injective(h) && h(a, b) == h(c, d)
    ensures a == c && b == d
  {
  }

  /** It does not commit to their number: a list of odd length and the same list with its last leaf repeated have
      one root, whatever the hash. */
  lemma RepeatedLastLeaf(h: Combine, leaves: seq<Hash>)
    requires |leaves| >= 3 && |leaves| % 2 == 1
    ensures Root(h, leaves + [leaves[|leaves| - 1]]) == Root(h, leaves)
  {
    var longer := leaves + [leaves[|leaves| - 1]];
    forall i | 0 <= i < Half(|leaves|)
      ensures Parents(h, longer)[i] == Parents(h, leaves)[i]
    {
      var n := |leaves|;
      assert 2 * i + 1 == n ==> longer[n] == leaves[n - 1];
      assert longer[RightOf(i, n + 1)] == leaves[RightOf(i, n)];
    }
    assert Parents(h, longer) == Parents(h, leaves);
    RootAbove(h, leaves);
    RootAbove(h, longer);
  }

  // ---- when two roots are equal ----

  function Depth(n: nat): nat
    requires n >= 1
    decreases n
  {
    if n == 1 then 1 else 1 + Depth(Half(n))
  }

  lemma {:induction false} DepthOfLevels(h: Combine, leaves: seq<Hash>)
    requires leaves != []
    ensures |Levels(h, leaves)| == Depth(|leaves|)
    decreases |leaves|
  {
    if |leaves| > 1 {
      DepthOfLevels(h, Parents(h, leaves));
    }
  }

  // The leaf that stands at place k of the complete tree over n leaves, in which the last node of an odd level is
  // repeated on its right.
  function Source(k: nat, n: nat): (j: nat)
    requires n >= 1
    ensures j < n
    decreases n
  {
    if n == 1 then 0
    else
      var j := Source(k / 2, Half(n));
      if k % 2 == 0 then 2 * j else RightOf(j, n)
  }

  // The leaves, padded level by level to the width of the tree.
  function Padded(leaves: seq<Hash>): (r: seq<Hash>)
    requires leaves != []
    ensures |r| == Pow2(Depth(|leaves|) - 1)
  {
    seq(Pow2(Depth(|leaves|) - 1), k requires 0 <= k => leaves[Source(k, |leaves|)])
  }

  // The padded parents hash the padded leaves pair by pair.
  lemma PaddedParents(h: Combine, leaves: seq<Hash>)
    requires |leaves| > 1
    ensures var up, low := Padded(Parents(h, leaves)), Padded(leaves);
      |low| == 2 * |up| && forall k :: 0 <= k < |up| ==> up[k] == h(low[2 * k], low[2 * k + 1])
  {
    var n, up, low := |leaves|, Padded(Parents(h, leaves)), Padded(leaves);
    forall k | 0 <= k < |up|
      ensures up[k] == h(low[2 * k], low[2 * k + 1])
    {
      var j := Source(k, Half(n));
      assert (2 * k) / 2 == k && (2 * k + 1) / 2 == k;
      assert low[2 * k] == leaves[2 * j] && low[2 * k + 1] == leaves[RightOf(j, n)];
    }
  }

  lemma PaddedDetermine(h: Combine, a: seq<Hash>, b: seq<Hash>)
    requires Injective(h) && |a| > 1 && |b| > 1 && Depth(|a|) == Depth(|b|)
    ensures Padded(Parents(h, a)) == Padded(Parents(h, b)) <==> Padded(a) == Padded(b)
  {
    var ua, ub, la, lb := Padded(Parents(h, a)), Padded(Parents(h, b)), Padded(a), Padded(b);
    PaddedParents(h, a);
    PaddedParents(h, b);
    if ua == ub {
      forall i | 0 <= i < |la|
        ensures la[i] == lb[i]
      {
        var k := i / 2;
        assert ua[k] == ub[k];
        Unpaired(h, la[2 * k], la[2 * k + 1], lb[2 * k], lb[2 * k + 1]);
        assert i == 2 * k || i == 2 * k + 1;
      }
    }
    if la == lb {
      assert forall k :: 0 <= k < |ua| ==> ua[k] == ub[k];
    }
  }

  /** Exactly what the root commits to, at a given depth: the leaves padded with the repeated last nodes. */
  lemma {:induction false} RootDeterminesPadded(h: Combine, a: seq<Hash>, b: seq<Hash>)
    requires Injective(h) && a != [] && b != [] && Depth(|a|) == Depth(|b|)
    ensures Root(h, a) == Root(h, b) <==> Padded(a) == Padded(b)
    decreases |a|
  {
    if |a| == 1 || |b| == 1 {
      assert |a| == |b| == 1;
      assert Padded(a) == a && Padded(b) == b;
    } else {
      RootAbove(h, a);
      RootAbove(h, b);
      RootDeterminesPadded(h, Parents(h, a), Parents(h, b));
      PaddedDetermine(h, a, b);
    }
  }

  /** And at any two depths: the leaves of the lower tree against the level of that depth in the higher one. The
      code does not tell a leaf from the hash of two nodes. */
  lemma {:induction false} RootsEqualExactly(h: Combine, a: seq<Hash>, b: seq<Hash>)
    requires Injective(h) && a != [] && b != [] && Depth(|a|) >= Depth(|b|)
    ensures |Levels(h, a)| == Depth(|a|)
    ensures var level := Levels(h, a)[Depth(|a|) - Depth(|b|)];
      level != [] && (Root(h, a) == Root(h, b) <==> Padded(level) == Padded(b))
    decreases |a|
  {
    DepthOfLevels(h, a);
    if Depth(|a|) == Depth(|b|) {
      RootDeterminesPadded(h, a, b);
    } else {
      RootAbove(h, a);
      RootsEqualExactly(h, Parents(h, a), b);
    }
  }

  lemma {:induction false} SourceIsFirst(n: nat, k: nat)
    requires 1 <= n && k < n
    ensures Source(k, n) == k
    decreases n
  {
    if n > 1 {
      SourceIsFirst(Half(n), k / 2);
    }
  }

  lemma {:induction false} DepthBounds(n: nat)
    requires n >= 1
    ensures n <= Pow2(Depth(n) - 1)
    decreases n
  {
    if n > 1 {
      DepthBounds(Half(n));
    }
  }

  /** Padding only adds leaves behind the given ones. */
  lemma PaddedStarts(leaves: seq<Hash>)
    requires leaves != []
    ensures |leaves| <= |Padded(leaves)| && Padded(leaves)[..|leaves|] == leaves
  {
    DepthBounds(|leaves|);
    forall k | 0 <= k < |leaves|
      ensures Padded(leaves)[k] == leaves[k]
    {
      SourceIsFirst(|leaves|, k);
    }
  }

  /** The root commits to the leaves and their order, as long as the number of leaves is known. */
  lemma RootDeterminesLeaves(h: Combine, a: seq<Hash>, b: seq<Hash>)
    requires Injective(h) && a != [] && |a| == |b|
    ensures Root(h, a) == Root(h, b) <==> a == b
  {
    RootDeterminesPadded(h, a, b);
    PaddedStarts(a);
    PaddedStarts(b);
  }

  // ---- the tree ----

  class TreeNode {
    var hash: Hash
    var parent: TreeNode?
    var left: TreeNode?
    var right: TreeNode?

    constructor (hash: Hash)
      ensures this.hash == hash && parent == null && left == null && right == null
    {
      this.hash := hash;
      parent, left, right := null, null, null;
    }

    predicate IsLeaf()
      reads this
    {
      left == null && right == null
    }

    predicate IsRoot()
      reads this
    {
      parent == null
    }
  }

  type Level = seq<TreeNode>

  ghost predicate Distinct(nodes: Level) {
    forall i, j :: 0 <= i < j < |nodes| ==> nodes[i] != nodes[j]
  }

  ghost predicate Hashed(nodes: Level, hashes: seq<Hash>)
    reads nodes`hash
  {
    |nodes| == |hashes| && forall i :: 0 <= i < |nodes| ==> nodes[i].hash == hashes[i]
  }

  ghost predicate Above(p: TreeNode, left: TreeNode, right: TreeNode)
    reads p`left, p`right, left`parent, right`parent
  {
    p.left == left && p.right == right && left.parent == right.parent == p
  }

  // Parents and children of two neighbouring levels point at each other.
  ghost predicate Linked(lower: Level, upper: Level)
    reads lower`parent, upper`left, upper`right
  {
    && |upper| == Half(|lower|)
    && forall i :: 0 <= i < |upper| ==> Above(upper[i], lower[2 * i], lower[RightOf(i, |lower|)])
  }

  ghost predicate Within(levels: seq<Level>, repr: set<TreeNode>) {
    forall k, x :: 0 <= k < |levels| && x in levels[k] ==> x in repr
  }

  // The levels of a finished tree over the leaves, which come first; the root has no parent.
  ghost predicate IsTree(h: Combine, leaves: seq<Hash>, levels: seq<Level>, repr: set<TreeNode>)
    requires leaves != [] && Within(levels, repr)
    reads repr
  {
    && |levels| == |Levels(h, leaves)|
    && (forall k :: 0 <= k < |levels| ==> Hashed(levels[k], Levels(h, leaves)[k]))
    && (forall k :: 0 <= k < |levels| - 1 ==> Linked(levels[k], levels[k + 1]))
    && levels[|levels| - 1][0].parent == null
  }

  method Join(h: Combine, left: TreeNode, right: TreeNode) returns (p: TreeNode)
    modifies left`parent, right`parent
    ensures fresh(p) && Above(p, left, right) && p.hash == h(left.hash, right.hash) && p.parent == null
  {
    p := new TreeNode(h(left.hash, right.hash));
    p.left, p.right := left, right;
    left.parent := p;
    right.parent := p;
  }

  lemma ParentAt(h: Combine, level: seq<Hash>, i: nat)
    requires i < Half(|level|)
    ensures Parents(h, level)[i] == h(level[2 * i], level[RightOf(i, |level|)])
  {
  }

  // One pass over a level makes the level above it.
  method BuildParents(h: Combine, leaves: Level, ghost hashes: seq<Hash>) returns (parents: Level)
    requires Distinct(leaves) && Hashed(leaves, hashes)
    modifies leaves`parent
    ensures Linked(leaves, parents) && Distinct(parents) && Hashed(parents, Parents(h, hashes))
    ensures forall x :: x in parents ==> x.parent == null
    ensures forall j :: 0 <= j < |parents| ==> fresh(parents[j])
  {
    hide Parents;
    parents := [];
    var i := 0;
    while i < (|leaves| + 1) / 2
      invariant |parents| == i <= Half(|leaves|) && Distinct(parents)
      invariant forall x :: x in parents ==> x.parent == null
      invariant forall j :: 0 <= j < i ==> fresh(parents[j])
      invariant forall j :: 0 <= j < i ==> Above(parents[j], leaves[2 * j], leaves[RightOf(j, |leaves|)])
      invariant forall j :: 0 <= j < i ==> parents[j].hash == Parents(h, hashes)[j]
    {
      var left, right := leaves[2 * i], if 2 * i + 1 == |leaves| then leaves[2 * i] else leaves[2 * i + 1];
      var p := Join(h, left, right);
      ParentAt(h, hashes, i);
      parents := parents + [p];
      i := i + 1;
    }
  }

  // A tree over the level above the leaves, and the leaves below it.
  lemma Planted(h: Combine, hashes: seq<Hash>, leaves: Level, above: seq<Level>, repr: set<TreeNode>)
    requires |hashes| > 1 && Hashed(leaves, hashes) && above != [] && Linked(leaves, above[0])
    requires Within(above, repr) && IsTree(h, Parents(h, hashes), above, repr)
    ensures Within([leaves] + above, repr + set x | x in leaves)
    ensures IsTree(h, hashes, [leaves] + above, repr + set x | x in leaves)
  {
    hide Parents, Linked, Hashed;
  }

  method BuildTree(h: Combine, leaves: Level, ghost hashes: seq<Hash>)
    returns (root: TreeNode, ghost levels: seq<Level>, ghost repr: set<TreeNode>)
    requires leaves != [] && Distinct(leaves) && Hashed(leaves, hashes) && forall x :: x in leaves ==> x.parent == null
    modifies leaves`parent
    ensures levels != [] && levels[0] == leaves && levels[|levels| - 1] == [root]
    ensures Within(levels, repr) && IsTree(h, hashes, levels, repr)
    ensures forall x :: x in repr ==> x in leaves || fresh(x)
    decreases |leaves|
  {
    hide Linked;
    if |leaves| == 1 {
      root, levels, repr := leaves[0], [leaves], set x | x in leaves;
      return;
    }
    var parents := BuildParents(h, leaves, hashes);
    ghost var above: seq<Level>;
    root, above, repr := BuildTree(h, parents, Parents(h, hashes));
    Planted(h, hashes, leaves, above, repr);
    levels, repr := [leaves] + above, repr + set x | x in leaves;
  }

  ghost predicate Childless(nodes: Level)
    reads nodes`left, nodes`right
  {
    forall x :: x in nodes ==> x.left == null && x.right == null
  }

  class MerkleTree {
    var depth: nat
    const root: TreeNode

    constructor (root: TreeNode)
      ensures this.root == root && depth == 1
    {
      this.root, depth := root, 1;
    }
  }

  method MakeLeaves(hashes: seq<Hash>) returns (nodes: Level)
    ensures Hashed(nodes, hashes) && Distinct(nodes) && Childless(nodes)
    ensures forall x :: x in nodes ==> fresh(x) && x.parent == null
  {
    nodes := [];
    for i := 0 to |hashes|
      invariant |nodes| == i && Distinct(nodes) && Childless(nodes) && Hashed(nodes, hashes[..i])
      invariant forall x :: x in nodes ==> fresh(x) && x.parent == null
    {
      var x := new TreeNode(hashes[i]);
      nodes := nodes + [x];
    }
    assert hashes[..|hashes|] == hashes;
  }

  // From the root down the left edge: the number of levels.
  method CountLevels(h: Combine, hashes: seq<Hash>, root: TreeNode, ghost levels: seq<Level>, ghost repr: set<TreeNode>)
    returns (depth: nat)
    requires hashes != [] && Within(levels, repr) && IsTree(h, hashes, levels, repr)
    requires levels[|levels| - 1] == [root] && Childless(levels[0])
    ensures depth == |levels|
  {
    hide Hashed;
    var node := root;
    ghost var k := |levels| - 1;
    depth := 1;
    while node.left != null
      invariant 0 <= k < |levels| && levels[k] != [] && node == levels[k][0] && depth == |levels| - k
      decreases k
    {
      assert k > 0;
      assert Linked(levels[k - 1], levels[k]);
      node, depth, k := node.left, depth + 1, k - 1;
    }
    assert k > 0 ==> Linked(levels[k - 1], levels[k]);
  }

  /** The whole construction: no tree for no hashes; otherwise the leaves are the hashes in order, every level hashes
      the one below it, parents and children point at each other, and the depth is that of the levels. */
  method NewMerkleTree(h: Combine, hashes: seq<Hash>)
    returns (tree: MerkleTree?, ghost levels: seq<Level>, ghost repr: set<TreeNode>)
    ensures tree == null <==> hashes == []
    ensures tree != null ==>
      && fresh(tree) && Within(levels, repr) && IsTree(h, hashes, levels, repr) && Childless(levels[0])
      && levels[|levels| - 1] == [tree.root] && tree.root.hash == Root(h, hashes)
      && tree.depth == |Levels(h, hashes)| && Pow2(tree.depth - 1) >= |hashes|
      && (tree.depth >= 2 ==> Pow2(tree.depth - 2) < |hashes|)
  {
    if |hashes| == 0 {
      return null, [], {};
    }
    hide Pow2, Root, Linked, Hashed;
    var nodes := MakeLeaves(hashes);
    forall i | 0 <= i < |nodes|
      ensures fresh(nodes[i])
    {
      assert nodes[i] in nodes;
    }
    var root: TreeNode;
    root, levels, repr := BuildTree(h, nodes, hashes);
    tree := new MerkleTree(root);
    tree.depth := CountLevels(h, hashes, root, levels, repr);
    DepthIsLogarithm(h, hashes);
  }

  /** In a finished tree exactly the bottom nodes are leaves, exactly the top one is the root, and every other node
      has the parent above it. */
  lemma LeavesAndRoot(h: Combine, hashes: seq<Hash>, levels: seq<Level>, repr: set<TreeNode>, k: nat, i: nat)
    requires hashes != [] && Within(levels, repr) && IsTree(h, hashes, levels, repr) && Childless(levels[0])
    requires k < |levels| && i < |levels[k]|
    ensures levels[k][i].IsLeaf() <==> k == 0
    ensures levels[k][i].IsRoot() <==> k == |levels| - 1
    ensures k < |levels| - 1 ==> i / 2 < |levels[k + 1]| && levels[k][i].parent == levels[k + 1][i / 2]
  {
    if k > 0 {
      var below := levels[k - 1];
      assert Linked(below, levels[k]) && Above(levels[k][i], below[2 * i], below[RightOf(i, |below|)]);
    }
    if k < |levels| - 1 {
      var lower, upper := levels[k], levels[k + 1];
      assert Linked(lower, upper);
      assert Above(upper[i / 2], lower[2 * (i / 2)], lower[RightOf(i / 2, |lower|)]);
    } else {
      assert Hashed(levels[k], Levels(h, hashes)[k]);
    }
  }
}
