/**
 * RFC 9162 Merkle trees over any digest type and any node hash.
 *
 * The recursive tree and its recursive path are the reference. Two bottom-up
 * verification loops and two path-length rules are proved to agree with it.
 */
module MerkleTree {
  import opened Basics

  function Pow2(k: nat): (p: nat)
    ensures p >= 1
  {
    if k == 0 then 1 else 2 * Pow2(k - 1)
  }

  /** `ilog2`: the position of the highest set bit. */
  function Ilog2(n: nat): (k: nat)
    requires n >= 1
    ensures Pow2(k) <= n < 2 * Pow2(k)
  {
    if n == 1 then 0 else 1 + Ilog2(n / 2)
  }

  /** The largest power of two below `n`: the size of the left subtree. */
  function Split(n: nat): (k: nat)
    requires n >= 2
    ensures 1 <= k < n <= 2 * k
  {
    Pow2(Ilog2(n - 1))
  }

  lemma SplitHalves(n: nat)
    requires n >= 3
    ensures Split(n) == 2 * Split((n + 1) / 2)
  {
    assert (n - 1) / 2 == (n + 1) / 2 - 1;
  }

  // ---------------------------------------------------------------- reference

  /** RFC 9162 section 2.1.1, over leaf digests. */
  function TreeHash<D>(node: (D, D) -> D, leaves: seq<D>): D
    requires |leaves| >= 1
    decreases |leaves|
  {
    if |leaves| == 1 then leaves[0]
    else
      var k := Split(|leaves|);
      node(TreeHash(node, leaves[..k]), TreeHash(node, leaves[k..]))
  }

  /** RFC 9162 section 2.1.3.1: the siblings of one leaf, deepest first. */
  function TreePath<D>(node: (D, D) -> D, leaves: seq<D>, index: nat): (path: seq<D>)
    requires index < |leaves|
    ensures |path| == PathLength(index, |leaves|)
    decreases |leaves|
  {
    if |leaves| == 1 then []
    else
      var k := Split(|leaves|);
      if index < k then
        TreePath(node, leaves[..k], index) + [TreeHash(node, leaves[k..])]
      else
        TreePath(node, leaves[k..], index - k) + [TreeHash(node, leaves[..k])]
  }

  /** Siblings on the path, counted from the root down by power-of-two splits. */
  function PathLength(index: nat, count: nat): nat
    requires index < count
    decreases count
  {
    if count == 1 then 0
    else
      var k := Split(count);
      1 + if index < k then PathLength(index, k) else PathLength(index - k, count - k)
  }

  /** The root that a leaf and a path of the right length determine, from the root down. */
  function PathRoot<D>(node: (D, D) -> D, leaf: D, index: nat, count: nat, path: seq<D>): D
    requires index < count && |path| == PathLength(index, count)
    decreases count
  {
    if count == 1 then leaf
    else
      var k, top, rest := Split(count), path[|path| - 1], path[..|path| - 1];
      if index < k then node(PathRoot(node, leaf, index, k, rest), top)
      else node(top, PathRoot(node, leaf, index - k, count - k, rest))
  }

  // ------------------------------------------------------------- path lengths

  /** Siblings on the path, counted from the leaf up by ceiling halving. */
  function PathLengthUp(index: nat, size: nat): nat
    requires index < size
    decreases size
  {
    if size <= 1 then 0
    else (if size % 2 == 1 && index == size - 1 then 0 else 1) + PathLengthUp(index / 2, (size + 1) / 2)
  }

  /** One sibling fewer, or none, after halving: the step that links the two rules. */
  predicate HalvingStep(index: nat, n: nat)
    requires index < n && n > 1
  {
    PathLength(index, n) == (if n % 2 == 1 && index == n - 1 then 0 else 1) + PathLength(index / 2, (n + 1) / 2)
  }

  lemma LengthLeft(index: nat, n: nat)
    requires n > 1 && index < Split(n)
    ensures PathLength(index, n) == 1 + PathLength(index, Split(n))
  {
  }

  lemma LengthRight(index: nat, n: nat)
    requires n > 1 && Split(n) <= index < n
    ensures PathLength(index, n) == 1 + PathLength(index - Split(n), n - Split(n))
  {
  }

  lemma HalvingLeft(index: nat, n: nat, m: nat)
    requires n > 2 && 2 * m == Split(n) && Split((n + 1) / 2) == m
    requires index < 2 * m && HalvingStep(index, 2 * m)
    ensures HalvingStep(index, n)
  {
    hide Split, PathLength;
    LengthLeft(index, n);
    LengthLeft(index / 2, (n + 1) / 2);
  }

  lemma HalfShift(x: nat, m: nat)
    requires 2 * m <= x
    ensures (x - 2 * m) / 2 == x / 2 - m && (x - 2 * m) % 2 == x % 2
  {
  }

  lemma HalvingRight(index: nat, n: nat, m: nat)
    requires n > 2 && 2 * m == Split(n) && Split((n + 1) / 2) == m
    requires 2 * m <= index < n && (n - 2 * m > 1 ==> HalvingStep(index - 2 * m, n - 2 * m))
    ensures HalvingStep(index, n)
  {
    hide Split, PathLength;
    HalfShift(index, m);
    HalfShift(n + 1, m);
    HalfShift(n, m);
    LengthRight(index, n);
    LengthRight(index / 2, (n + 1) / 2);
  }

  lemma HalvingPair(index: nat)
    requires index < 2
    ensures HalvingStep(index, 2)
  {
    assert PathLength(index, 2) == 1 && PathLength(index / 2, 3 / 2) == 0;
  }

  lemma {:induction false} PathLengthStep(index: nat, n: nat)
    requires index < n && n > 1
    ensures HalvingStep(index, n)
    decreases n
  {
    hide Split, PathLength, HalvingStep;
    if n == 2 {
      HalvingPair(index);
      return;
    }
    SplitHalves(n);
    var k := Split(n);
    if index < k {
      PathLengthStep(index, k);
      HalvingLeft(index, n, k / 2);
    } else {
      if n - k > 1 {
        PathLengthStep(index - k, n - k);
      }
      HalvingRight(index, n, k / 2);
    }
  }

  /** The two length rules agree for every index and every tree size. */
  lemma {:induction false} LengthRulesAgree(index: nat, size: nat)
    requires index < size
    ensures PathLength(index, size) == PathLengthUp(index, size)
    decreases size
  {
    if size > 1 {
      PathLengthStep(index, size);
      LengthRulesAgree(index / 2, (size + 1) / 2);
    }
  }

  /** A tree of at most 2^j leaves has paths of at most j siblings; a full one exactly j. */
  lemma {:induction false} PathLengthBound(index: nat, count: nat, j: nat)
    requires index < count <= Pow2(j)
    ensures PathLength(index, count) <= j
    ensures count == Pow2(j) ==> PathLength(index, count) == j
    decreases j
  {
    if count > 1 {
      PathLengthStep(index, count);
      PathLengthBound(index / 2, (count + 1) / 2, j - 1);
    }
  }

  // -------------------------------------------------------------------- loops

  /** One combining step shared by both loops. */
  function Combine<D>(node: (D, D) -> D, root: D, index: nat, last: nat, sibling: D): D {
    if index % 2 == 1 || index == last then node(sibling, root) else node(root, sibling)
  }

  /** The loop without the inner shift: one halving for each sibling. */
  function ShortLoop<D>(node: (D, D) -> D, root: D, index: nat, last: nat, path: seq<D>): D
    decreases |path|
  {
    if path == [] then root
    else ShortLoop(node, Combine(node, root, index, last, path[0]), index / 2, last / 2, path[1..])
  }

  /** The inner shift of RFC 9162 section 2.1.3.2: drop trailing zero bits of a nonzero index. */
  function Shifted(index: nat, last: nat): (p: (nat, nat))
    ensures index == last ==> p.0 == p.1
    ensures index != 0 ==> p.0 % 2 == 1
    ensures index == 0 ==> p == (index, last)
  {
    if index != 0 && index % 2 == 0 then Shifted(index / 2, last / 2) else (index, last)
  }

  /** Index and last after the full loop consumes one sibling. */
  function FullStep(index: nat, last: nat): (nat, nat) {
    var p := if index % 2 == 1 || index == last then Shifted(index, last) else (index, last);
    (p.0 / 2, p.1 / 2)
  }

  /** The loop of RFC 9162 section 2.1.3.2: the root it computes and the final `last`. */
  function FullLoop<D>(node: (D, D) -> D, root: D, index: nat, last: nat, path: seq<D>): (D, nat)
    decreases |path|
  {
    if path == [] then (root, last)
    else
      var p := FullStep(index, last);
      FullLoop(node, Combine(node, root, index, last, path[0]), p.0, p.1, path[1..])
  }

  /** On the right edge both loops only ever prepend siblings, however they shift. */
  lemma {:induction false} RightEdge<D>(node: (D, D) -> D, root: D, i: nat, j: nat, path: seq<D>)
    ensures FullLoop(node, root, i, i, path).0 == ShortLoop(node, root, j, j, path)
    decreases |path|
  {
    if path != [] {
      RightEdge(node, node(path[0], root), FullStep(i, i).0, j / 2, path[1..]);
    }
  }

  /** The two loops compute the same root on every sibling list, whatever its length. */
  lemma {:induction false} LoopsAgree<D>(node: (D, D) -> D, root: D, index: nat, last: nat, path: seq<D>)
    ensures FullLoop(node, root, index, last, path).0 == ShortLoop(node, root, index, last, path)
    decreases |path|
  {
    if index == last {
      RightEdge(node, root, index, last, path);
    } else if path != [] {
      LoopsAgree(node, Combine(node, root, index, last, path[0]), index / 2, last / 2, path[1..]);
    }
  }

  lemma PathLengthUpUnfolds(index: nat, size: nat, half: nat, up: nat)
    requires index < size && size > 1 && half == index / 2 && up == (size + 1) / 2
    ensures PathLengthUp(index, size) == (if size % 2 == 1 && index == size - 1 then 0 else 1) + PathLengthUp(half, up)
  {
  }

  lemma EdgeLength(index: nat)
    requires index != 0
    ensures PathLengthUp(index, index + 1) == index % 2 + PathLengthUp(index / 2, index / 2 + 1)
  {
    hide PathLengthUp;
    PathLengthUpUnfolds(index, index + 1, index / 2, index / 2 + 1);
  }

  /** On the right edge the inner shift skips exactly the levels that have no sibling. */
  lemma {:induction false} UpLengthSkips(index: nat)
    requires index != 0
    ensures Shifted(index, index).0 != 0
    ensures var s := Shifted(index, index).0; PathLengthUp(index, index + 1) == 1 + PathLengthUp(s / 2, s / 2 + 1)
    decreases index
  {
    hide PathLengthUp;
    EdgeLength(index);
    if index % 2 == 0 {
      UpLengthSkips(index / 2);
    }
  }

  /** Each sibling the full loop consumes pays for exactly one level that has a sibling. */
  lemma {:induction false} FullStepPaysOne(index: nat, size: nat)
    requires index < size
    ensures var p := FullStep(index, size - 1);
      && p.0 <= p.1
      && PathLengthUp(p.0, p.1 + 1) == if size == 1 then 0 else PathLengthUp(index, size) - 1
  {
    if size > 1 && index == size - 1 {
      UpLengthSkips(index);
    }
  }

  lemma {:induction false} UpLengthZero(index: nat, size: nat)
    requires index < size
    ensures PathLengthUp(index, size) == 0 <==> size == 1
    decreases size
  {
    if size > 1 {
      UpLengthZero(index / 2, (size + 1) / 2);
    }
  }

  lemma {:induction false} LastIsZeroUp<D>(node: (D, D) -> D, root: D, index: nat, count: nat, path: seq<D>)
    requires index < count
    ensures FullLoop(node, root, index, count - 1, path).1 == 0 <==> |path| >= PathLengthUp(index, count)
    decreases |path|
  {
    UpLengthZero(index, count);
    if path != [] {
      var p := FullStep(index, count - 1);
      FullStepPaysOne(index, count);
      LastIsZeroUp(node, Combine(node, root, index, count - 1, path[0]), p.0, p.1 + 1, path[1..]);
    }
  }

  /** The full loop ends with `last` zero exactly when it was given at least the whole path. */
  lemma LastIsZero<D>(node: (D, D) -> D, root: D, index: nat, count: nat, path: seq<D>)
    requires index < count
    ensures FullLoop(node, root, index, count - 1, path).1 == 0 <==> |path| >= PathLength(index, count)
  {
    LengthRulesAgree(index, count);
    LastIsZeroUp(node, root, index, count, path);
  }

  // ------------------------------------------------ loops against the recursion

  function Shr(n: nat, k: nat): nat {
    if k == 0 then n else Shr(n / 2, k - 1)
  }

  lemma {:induction false} ShortLoopSnoc<D>(node: (D, D) -> D, root: D, index: nat, last: nat, path: seq<D>, top: D)
    ensures ShortLoop(node, root, index, last, path + [top])
         == Combine(node, ShortLoop(node, root, index, last, path), Shr(index, |path|), Shr(last, |path|), top)
    decreases |path|
  {
    if path == [] {
      assert (path + [top])[1..] == [];
    } else {
      assert (path + [top])[1..] == path[1..] + [top];
      ShortLoopSnoc(node, Combine(node, root, index, last, path[0]), index / 2, last / 2, path[1..], top);
    }
  }

  lemma {:induction false} ShrSnoc(n: nat, k: nat)
    ensures Shr(n, k + 1) == Shr(n, k) / 2
  {
    if k > 0 {
      ShrSnoc(n / 2, k - 1);
    }
  }

  /** Inside a full left subtree the loop cannot tell the whole tree from the subtree. */
  lemma {:induction false} LeftSubtree<D>(node: (D, D) -> D, root: D, index: nat, last: nat, j: nat, path: seq<D>)
    requires index < Pow2(j) <= last < 2 * Pow2(j) && |path| <= j
    ensures ShortLoop(node, root, index, last, path) == ShortLoop(node, root, index, Pow2(j) - 1, path)
    ensures |path| == j ==> Shr(index, j) == 0 && Shr(last, j) == 1
    decreases |path|, j
  {
    if path != [] {
      LeftSubtree(node, Combine(node, root, index, last, path[0]), index / 2, last / 2, j - 1, path[1..]);
    }
  }

  /** Inside the right subtree the high bit of the index changes nothing. */
  lemma {:induction false} RightSubtree<D>(node: (D, D) -> D, root: D, index: nat, last: nat, j: nat, path: seq<D>)
    requires |path| <= j
    ensures ShortLoop(node, root, index + Pow2(j), last + Pow2(j), path) == ShortLoop(node, root, index, last, path)
    ensures Shr(index, |path|) == Shr(last, |path|)
        ==> Shr(index + Pow2(j), |path|) == Shr(last + Pow2(j), |path|)
    decreases |path|
  {
    if path != [] {
      assert (index + Pow2(j)) / 2 == index / 2 + Pow2(j - 1) && (last + Pow2(j)) / 2 == last / 2 + Pow2(j - 1);
      RightSubtree(node, Combine(node, root, index, last, path[0]), index / 2, last / 2, j - 1, path[1..]);
    }
  }

  /**
   * With the length checked first, the loop without the inner shift computes the
   * recursive root, and index and last have met when it ends.
   */
  lemma {:induction false} ShortLoopIsPathRoot<D>(node: (D, D) -> D, leaf: D, index: nat, count: nat, path: seq<D>)
    requires index < count && |path| == PathLength(index, count)
    ensures ShortLoop(node, leaf, index, count - 1, path) == PathRoot(node, leaf, index, count, path)
    ensures Shr(index, |path|) == Shr(count - 1, |path|)
    decreases count
  {
    hide Split, PathLength, PathRoot, ShortLoop, Shr;
    if count == 1 {
      SingleLeaf(node, leaf);
      return;
    }
    var k := Split(count);
    if index < k {
      LengthLeft(index, count);
      var top, rest := path[|path| - 1], path[..|path| - 1];
      assert path == rest + [top];
      ShortLoopIsPathRoot(node, leaf, index, k, rest);
      LeftChild(node, leaf, index, count, rest);
      LastStep(node, leaf, index, count, rest, top);
      PathRootLeft(node, leaf, index, count, rest, top);
    } else {
      LengthRight(index, count);
      var top, rest := path[|path| - 1], path[..|path| - 1];
      assert path == rest + [top];
      ShortLoopIsPathRoot(node, leaf, index - k, count - k, rest);
      RightChild(node, leaf, index, count, rest);
      LastStep(node, leaf, index, count, rest, top);
      PathRootRight(node, leaf, index, count, rest, top);
    }
  }

  lemma LastStep<D>(node: (D, D) -> D, leaf: D, index: nat, count: nat, rest: seq<D>, top: D)
    requires count > 0
    ensures ShortLoop(node, leaf, index, count - 1, rest + [top])
         == Combine(node, ShortLoop(node, leaf, index, count - 1, rest), Shr(index, |rest|), Shr(count - 1, |rest|),
           top)
    ensures Shr(index, |rest| + 1) == Shr(index, |rest|) / 2
    ensures Shr(count - 1, |rest| + 1) == Shr(count - 1, |rest|) / 2
  {
    ShortLoopSnoc(node, leaf, index, count - 1, rest, top);
    ShrSnoc(index, |rest|);
    ShrSnoc(count - 1, |rest|);
  }

  lemma LeftChild<D>(node: (D, D) -> D, leaf: D, index: nat, count: nat, rest: seq<D>)
    requires count > 1 && index < Split(count) && |rest| == PathLength(index, Split(count))
    ensures ShortLoop(node, leaf, index, count - 1, rest) == ShortLoop(node, leaf, index, Split(count) - 1, rest)
    ensures Shr(index, |rest|) == 0 && Shr(count - 1, |rest|) == 1
  {
    var j := Ilog2(count - 1);
    PathLengthBound(index, Pow2(j), j);
    LeftSubtree(node, leaf, index, count - 1, j, rest);
  }

  lemma RightChild<D>(node: (D, D) -> D, leaf: D, index: nat, count: nat, rest: seq<D>)
    requires count > 1 && Split(count) <= index < count
    requires |rest| == PathLength(index - Split(count), count - Split(count))
    requires Shr(index - Split(count), |rest|) == Shr(count - Split(count) - 1, |rest|)
    ensures ShortLoop(node, leaf, index, count - 1, rest)
         == ShortLoop(node, leaf, index - Split(count), count - Split(count) - 1, rest)
    ensures Shr(index, |rest|) == Shr(count - 1, |rest|)
  {
    var j := Ilog2(count - 1);
    var k := Pow2(j);
    assert k == Split(count);
    hide Pow2, Ilog2, Split, PathLength, ShortLoop, Shr;
    PathLengthBound(index - k, count - k, j);
    RightSubtree(node, leaf, index - k, count - k - 1, j, rest);
  }

  // ------------------------------------------------- completeness and soundness

  /** Appending the top sibling extends a subtree's path to the whole tree. */
  lemma PathRootLeft<D>(node: (D, D) -> D, leaf: D, index: nat, count: nat, rest: seq<D>, top: D)
    requires count > 1 && index < Split(count) && |rest| == PathLength(index, Split(count))
    ensures PathRoot(node, leaf, index, count, rest + [top])
      == node(PathRoot(node, leaf, index, Split(count), rest), top)
  {
    assert (rest + [top])[..|rest|] == rest;
  }

  lemma PathRootRight<D>(node: (D, D) -> D, leaf: D, index: nat, count: nat, rest: seq<D>, top: D)
    requires count > 1 && Split(count) <= index < count
    requires |rest| == PathLength(index - Split(count), count - Split(count))
    ensures PathRoot(node, leaf, index, count, rest + [top])
         == node(top, PathRoot(node, leaf, index - Split(count), count - Split(count), rest))
  {
    assert (rest + [top])[..|rest|] == rest;
  }

  lemma SingleLeaf<D>(node: (D, D) -> D, leaf: D)
    ensures PathLength(0, 1) == 0
    ensures PathRoot(node, leaf, 0, 1, []) == leaf
    ensures forall last :: ShortLoop(node, leaf, 0, last, []) == leaf
    ensures Shr(0, 0) == 0
  {
  }

  /** Every leaf's own path leads to the root of the tree. */
  lemma {:induction false} PathsLeadToRoot<D>(node: (D, D) -> D, leaves: seq<D>, index: nat)
    requires index < |leaves|
    ensures PathRoot(node, leaves[index], index, |leaves|, TreePath(node, leaves, index)) == TreeHash(node, leaves)
    decreases |leaves|
  {
    hide Split, PathLength, PathRoot;
    if |leaves| == 1 {
      SingleLeaf(node, leaves[0]);
      return;
    }
    var k := Split(|leaves|);
    var left, right := leaves[..k], leaves[k..];
    if index < k {
      PathsLeadToRoot(node, left, index);
      PathRootLeft(node, leaves[index], index, |leaves|, TreePath(node, left, index), TreeHash(node, right));
    } else {
      PathsLeadToRoot(node, right, index - k);
      PathRootRight(node, leaves[index], index, |leaves|, TreePath(node, right, index - k), TreeHash(node, left));
    }
  }

  /** Two pairs of node inputs. */
  datatype NodeInputs<D> = NodeInputs(left0: D, right0: D, left1: D, right1: D)

  predicate IsCollision<D(==)>(node: (D, D) -> D, c: NodeInputs<D>) {
    && (c.left0, c.right0) != (c.left1, c.right1)
    && node(c.left0, c.right0) == node(c.left1, c.right1)
  }

  /** The highest node at which a claimed path departs from the real tree, if there is one. */
  function Departure<D(==)>(node: (D, D) -> D, leaves: seq<D>, index: nat, leaf: D, path: seq<D>): Option<NodeInputs<D>>
    requires index < |leaves| && |path| == PathLength(index, |leaves|)
    decreases |leaves|
  {
    if |leaves| == 1 then None
    else
      var k, top, rest := Split(|leaves|), path[|path| - 1], path[..|path| - 1];
      var left, right := TreeHash(node, leaves[..k]), TreeHash(node, leaves[k..]);
      if index < k then
        var claimed := PathRoot(node, leaf, index, k, rest);
        if (claimed, top) != (left, right) then Some(NodeInputs(claimed, top, left, right))
        else Departure(node, leaves[..k], index, leaf, rest)
      else
        var claimed := PathRoot(node, leaf, index - k, |leaves| - k, rest);
        if (top, claimed) != (left, right) then Some(NodeInputs(top, claimed, left, right))
        else Departure(node, leaves[k..], index - k, leaf, rest)
  }

  /**
   * A path that leads to the root of the tree is the leaf's own path, or its
   * departure from the tree is a collision of the node hash.
   */
  lemma {:induction false} RootBindsLeafAndPath<D>(node: (D, D) -> D, leaves: seq<D>, index: nat, leaf: D, path: seq<D>)
    requires index < |leaves| && |path| == PathLength(index, |leaves|)
    requires PathRoot(node, leaf, index, |leaves|, path) == TreeHash(node, leaves)
    ensures match Departure(node, leaves, index, leaf, path)
      case Some(c) => IsCollision(node, c)
      case None => leaf == leaves[index] && path == TreePath(node, leaves, index)
    decreases |leaves|
  {
    hide Split, PathLength;
    if |leaves| == 1 {
      SingleLeaf(node, leaf);
      return;
    }
    var k := Split(|leaves|);
    if index < k {
      LengthLeft(index, |leaves|);
      var rest := path[..|path| - 1];
      assert path == rest + [path[|path| - 1]];
      if Departure(node, leaves, index, leaf, path) == Departure(node, leaves[..k], index, leaf, rest)
        && PathRoot(node, leaf, index, k, rest) == TreeHash(node, leaves[..k]) {
        RootBindsLeafAndPath(node, leaves[..k], index, leaf, rest);
      }
    } else {
      LengthRight(index, |leaves|);
      var rest := path[..|path| - 1];
      assert path == rest + [path[|path| - 1]];
      if Departure(node, leaves, index, leaf, path) == Departure(node, leaves[k..], index - k, leaf, rest)
        && PathRoot(node, leaf, index - k, |leaves| - k, rest) == TreeHash(node, leaves[k..]) {
        RootBindsLeafAndPath(node, leaves[k..], index - k, leaf, rest);
      }
    }
  }
}
