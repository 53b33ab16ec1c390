/** Rekor inclusion proofs: the verification loop without the RFC's inner shift. */
module Rekor {
  import opened Basics
  import opened MerkleTree

  type Digest = d: Bytes | |d| == 32 witness seq(32, _ => 0)

  /** SHA-256, left uninterpreted. */
  type Hash = Bytes -> Digest

  const U64_LIMIT: nat := 0x1_0000_0000_0000_0000

  datatype InclusionError = IndexOrSize | SiblingCount | RootDiffers

  function LeafInput(body: Bytes): Bytes { [0] + body }

  function NodeInput(left: Digest, right: Digest): Bytes { [1] + left + right }

  function NodeHash(h: Hash): (Digest, Digest) -> Digest {
    (left, right) => h(NodeInput(left, right))
  }

  /** `expected_proof_length`: ceiling halving computes the top-down path length. */
  method ExpectedProofLength(leafIndex: nat, treeSize: nat) returns (count: nat)
    requires leafIndex < treeSize
    ensures count == PathLength(leafIndex, treeSize)
  {
    var index: nat, size: nat := leafIndex, treeSize;
    count := 0;
    while size > 1
      invariant index < size
      invariant count + PathLengthUp(index, size) == PathLengthUp(leafIndex, treeSize)
      decreases size
    {
      if !(size % 2 == 1 && index == size - 1) {
        count := count + 1;
      }
      index := index / 2;
      size := (size + 1) / 2;
    }
    LengthRulesAgree(leafIndex, treeSize);
  }

  /** No 64-bit tree size needs more siblings than the resource limit allows. */
  lemma ProofLengthBound(index: nat, size: nat)
    requires index < size < 0x1_0000_0000_0000_0000
    ensures PathLength(index, size) <= 64
  {
    Pow2Of64();
    PathLengthBound(index, size, 64);
  }

  lemma Pow2Of64()
    ensures Pow2(64) == U64_LIMIT
  {
    assert Pow2(4) == 16;
    Pow2Sum(4, 4);
    Pow2Sum(8, 8);
    Pow2Sum(16, 16);
    Pow2Sum(32, 32);
  }

  lemma {:induction false} Pow2Sum(i: nat, j: nat)
    ensures Pow2(i + j) == Pow2(i) * Pow2(j)
  {
    if i > 0 {
      Pow2Sum(i - 1, j);
    }
  }

  /**
   * `verify_merkle`: accepts exactly when the index is in the tree, the sibling count is the
   * path's, and the recursive root of the RFC 9162 tree definition is the expected one.
   */
  method VerifyMerkle(h: Hash, body: Bytes, leafIndex: nat, treeSize: nat, siblings: seq<Digest>, expectedRoot: Digest)
    returns (r: Result<(), InclusionError>)
    ensures r == Err(IndexOrSize) <==> leafIndex >= treeSize
    ensures r == Err(SiblingCount) <==> leafIndex < treeSize && |siblings| != PathLength(leafIndex, treeSize)
    ensures r.Ok? <==>
      && leafIndex < treeSize
      && |siblings| == PathLength(leafIndex, treeSize)
      && PathRoot(NodeHash(h), h(LeafInput(body)), leafIndex, treeSize, siblings) == expectedRoot
  {
    if treeSize == 0 || leafIndex >= treeSize {
      return Err(IndexOrSize);
    }
    var expectedLength := ExpectedProofLength(leafIndex, treeSize);
    if |siblings| != expectedLength {
      return Err(SiblingCount);
    }
    var hash := FoldSiblings(h, h(LeafInput(body)), leafIndex, treeSize - 1, siblings);
    ShortLoopIsPathRoot(NodeHash(h), h(LeafInput(body)), leafIndex, treeSize, siblings);
    if hash != expectedRoot {
      return Err(RootDiffers);
    }
    r := Ok(());
  }

  /** The hashing loop of `verify_merkle`. It also computes the root of the full RFC loop. */
  method FoldSiblings(h: Hash, leaf: Digest, leafIndex: nat, last: nat, siblings: seq<Digest>) returns (hash: Digest)
    ensures hash == ShortLoop(NodeHash(h), leaf, leafIndex, last, siblings)
    ensures hash == FullLoop(NodeHash(h), leaf, leafIndex, last, siblings).0
  {
    ghost var node := NodeHash(h);
    var index: nat, lastNode: nat := leafIndex, last;
    hash := leaf;
    for i := 0 to |siblings|
      invariant ShortLoop(node, leaf, leafIndex, last, siblings)
             == ShortLoop(node, hash, index, lastNode, siblings[i..])
    {
      var sibling := siblings[i];
      assert siblings[i..][0] == sibling && siblings[i..][1..] == siblings[i + 1..];
      var (left, right) := if index % 2 == 1 || index == lastNode then (sibling, hash) else (hash, sibling);
      hash := h(NodeInput(left, right));
      index := index / 2;
      lastNode := lastNode / 2;
    }
    LoopsAgree(node, leaf, leafIndex, last, siblings);
  }

  // ---------------------------------------------------------------- soundness

  function LeafHashes(h: Hash, bodies: seq<Bytes>): seq<Digest> {
    Each((body: Bytes) => h(LeafInput(body)), bodies)
  }

  predicate HashesAlike(h: Hash, pair: (Bytes, Bytes)) {
    pair.0 != pair.1 && h(pair.0) == h(pair.1)
  }

  /** Two strings that hash alike whenever a body that is not in the log passes. */
  function Forgery(h: Hash, bodies: seq<Bytes>, body: Bytes, index: nat, siblings: seq<Digest>): Option<(Bytes, Bytes)>
    requires index < |bodies| && |siblings| == PathLength(index, |bodies|)
  {
    match Departure(NodeHash(h), LeafHashes(h, bodies), index, h(LeafInput(body)), siblings)
    case Some(c) => Some((NodeInput(c.left0, c.right0), NodeInput(c.left1, c.right1)))
    case None => if body != bodies[index] then Some((LeafInput(body), LeafInput(bodies[index]))) else None
  }

  lemma NodeInputInjective(a: Digest, b: Digest, c: Digest, d: Digest)
    requires NodeInput(a, b) == NodeInput(c, d)
    ensures a == c && b == d
  {
    assert NodeInput(a, b)[1..33] == a && NodeInput(c, d)[1..33] == c;
    assert NodeInput(a, b)[33..] == b && NodeInput(c, d)[33..] == d;
  }

  /**
   * A body that passes against the root of a log is the log's entry at that index, or
   * `Forgery` computes two distinct strings with the same digest.
   */
  lemma IncludedBodyIsLogged(h: Hash, bodies: seq<Bytes>, body: Bytes, index: nat, siblings: seq<Digest>)
    requires index < |bodies| && |siblings| == PathLength(index, |bodies|)
    requires PathRoot(NodeHash(h), h(LeafInput(body)), index, |bodies|, siblings)
          == TreeHash(NodeHash(h), LeafHashes(h, bodies))
    ensures match Forgery(h, bodies, body, index, siblings)
      case Some(pair) => HashesAlike(h, pair)
      case None => body == bodies[index]
  {
    hide Split, PathLength, TreeHash, TreePath, PathRoot, Departure, NodeInput;
    var leaf := h(LeafInput(body));
    RootBindsLeafAndPath(NodeHash(h), LeafHashes(h, bodies), index, leaf, siblings);
    match Departure(NodeHash(h), LeafHashes(h, bodies), index, leaf, siblings)
    case Some(c) =>
      if NodeInput(c.left0, c.right0) == NodeInput(c.left1, c.right1) {
        NodeInputInjective(c.left0, c.right0, c.left1, c.right1);
      }
    case None =>
      assert LeafInput(body)[1..] == body && LeafInput(bodies[index])[1..] == bodies[index];
  }

  /** Every logged body passes with its own path. */
  lemma LoggedBodyPasses(h: Hash, bodies: seq<Bytes>, index: nat)
    requires index < |bodies|
    ensures var leaves := LeafHashes(h, bodies); var path := TreePath(NodeHash(h), leaves, index);
      PathRoot(NodeHash(h), h(LeafInput(bodies[index])), index, |bodies|, path) == TreeHash(NodeHash(h), leaves)
  {
    PathsLeadToRoot(NodeHash(h), LeafHashes(h, bodies), index);
  }
}
