/** Bounded inclusion proofs for fresh channel attestations: build, encode, decode, verify. */
module QuoteBatch {
  import opened Basics
  import opened MerkleTree

  type Digest = d: Bytes | |d| == 64 witness seq(64, _ => 0)

  type Fixed32 = d: Bytes | |d| == 32 witness seq(32, _ => 0)

  /** SHA-512, left uninterpreted. */
  type Hash = Bytes -> Digest

  const MAX_BATCH_LEAVES: nat := 1024
  const MAX_PROOF_HASHES: nat := 10

  const BATCH_DOMAIN: Bytes := Ascii("stogas.quote-batch.v1") + [0]
  const TLS_DOMAIN: Bytes := Ascii("stogas.native-tls.v1") + [0]
  const E2EE_DOMAIN: Bytes := Ascii("stogas.e2ee-session.v1") + [0]

  function ParentInput(left: Digest, right: Digest): Bytes {
    [1] + left + right
  }

  function ParentHash(h: Hash): (Digest, Digest) -> Digest {
    (left, right) => h(ParentInput(left, right))
  }

  function ReportInput(count: nat, root: Digest): Bytes
    requires count < 0x1_0000
  {
    BATCH_DOMAIN + U16Bytes(count) + root
  }

  function BatchReportData(h: Hash, count: nat, root: Digest): Digest
    requires count < 0x1_0000
  {
    h(ReportInput(count, root))
  }

  // ----------------------------------------------------------------- bindings

  datatype Environment = Production | Staging

  datatype Binding =
    | NativeTls(environment: Environment, boot: Fixed32, challenge: Fixed32, signer: Fixed32)
    | E2eeSession(environment: Environment, boot: Fixed32, transcript: Fixed32)

  function EnvironmentByte(e: Environment): byte {
    if e.Production? then 1 else 2
  }

  function LeafInput(b: Binding): Bytes {
    match b
    case NativeTls(e, boot, challenge, signer) => [0] + TLS_DOMAIN + [EnvironmentByte(e)] + boot + challenge + signer
    case E2eeSession(e, boot, transcript) => [0] + E2EE_DOMAIN + [EnvironmentByte(e)] + boot + transcript
  }

  /** The hashed bytes determine the channel: variants differ in length, fields in place. */
  lemma LeafInputInjective(a: Binding, b: Binding)
    requires LeafInput(a) == LeafInput(b)
    ensures a == b
  {
    var x, y := LeafInput(a), LeafInput(b);
    if a.NativeTls? {
      assert |x| == 119 && |y| == 119 && b.NativeTls?;
      assert x[22] == EnvironmentByte(a.environment) && y[22] == EnvironmentByte(b.environment);
      assert x[23..55] == a.boot && y[23..55] == b.boot;
      assert x[55..87] == a.challenge && y[55..87] == b.challenge;
      assert x[87..] == a.signer && y[87..] == b.signer;
    } else {
      assert |x| == 89 && |y| == 89 && b.E2eeSession?;
      assert x[24] == EnvironmentByte(a.environment) && y[24] == EnvironmentByte(b.environment);
      assert x[25..57] == a.boot && y[25..57] == b.boot;
      assert x[57..] == a.transcript && y[57..] == b.transcript;
    }
  }

  // ------------------------------------------------------------------- proofs

  datatype BatchProof = BatchProof(leafCount: nat, leafIndex: nat, siblings: seq<Digest>)

  /** The proofs `from_bytes` may return and `quote_batch` builds. */
  predicate WellFormed(p: BatchProof) {
    && p.leafIndex < p.leafCount <= MAX_BATCH_LEAVES
    && |p.siblings| == PathLength(p.leafIndex, p.leafCount)
  }

  /** What the verification loop decides, before its meaning is known. */
  predicate Accepts(h: Hash, p: BatchProof, leaf: Digest, reportData: Digest)
    requires 1 <= p.leafCount < 0x1_0000
  {
    var (root, last) := FullLoop(ParentHash(h), leaf, p.leafIndex, p.leafCount - 1, p.siblings);
    last == 0 && BatchReportData(h, p.leafCount, root) == reportData
  }

  /** `BatchProof::verify_leaf`. */
  method VerifyLeaf(h: Hash, p: BatchProof, leaf: Digest, reportData: Digest) returns (ok: bool)
    requires 1 <= p.leafCount < 0x1_0000 && p.leafIndex < 0x1_0000
    ensures ok <==> Accepts(h, p, leaf, reportData)
  {
    ghost var node := ParentHash(h);
    var root: Digest, index: nat, last: nat := leaf, p.leafIndex, p.leafCount - 1;
    for i := 0 to |p.siblings|
      invariant FullLoop(node, leaf, p.leafIndex, p.leafCount - 1, p.siblings)
             == FullLoop(node, root, index, last, p.siblings[i..])
    {
      var sibling := p.siblings[i];
      assert p.siblings[i..][0] == sibling && p.siblings[i..][1..] == p.siblings[i + 1..];
      ghost var before := (root, index, last);
      if index % 2 != 0 || index == last {
        root := h(ParentInput(sibling, root));
        while index != 0 && index % 2 == 0
          invariant Shifted(before.1, before.2) == Shifted(index, last)
        {
          index := index / 2;
          last := last / 2;
        }
      } else {
        root := h(ParentInput(root, sibling));
      }
      index := index / 2;
      last := last / 2;
      assert (index, last) == FullStep(before.1, before.2);
      assert root == Combine(node, before.0, before.1, before.2, sibling);
    }
    ok := last == 0 && BatchReportData(h, p.leafCount, root) == reportData;
  }

  /** On a well-formed proof the loop accepts exactly when the recursive root is committed. */
  lemma AcceptsMeaning(h: Hash, p: BatchProof, leaf: Digest, reportData: Digest)
    requires WellFormed(p)
    ensures var root := PathRoot(ParentHash(h), leaf, p.leafIndex, p.leafCount, p.siblings);
      Accepts(h, p, leaf, reportData) <==> BatchReportData(h, p.leafCount, root) == reportData
  {
    var node := ParentHash(h);
    LastIsZero(node, leaf, p.leafIndex, p.leafCount, p.siblings);
    LoopsAgree(node, leaf, p.leafIndex, p.leafCount - 1, p.siblings);
    ShortLoopIsPathRoot(node, leaf, p.leafIndex, p.leafCount, p.siblings);
  }

  // ---------------------------------------------------------------- soundness

  function Leaves(h: Hash, bindings: seq<Binding>): seq<Digest> {
    Each((binding: Binding) => h(LeafInput(binding)), bindings)
  }

  lemma ReportInputInjective(n: nat, r: Digest, m: nat, s: Digest)
    requires n < 0x1_0000 && m < 0x1_0000 && ReportInput(n, r) == ReportInput(m, s)
    ensures n == m && r == s
  {
    var d := |BATCH_DOMAIN|;
    var x, y := ReportInput(n, r), ReportInput(m, s);
    assert x[d..d + 2] == U16Bytes(n) && y[d..d + 2] == U16Bytes(m);
    assert x[d + 2..] == r && y[d + 2..] == s;
  }

  lemma ParentInputInjective(a: Digest, b: Digest, c: Digest, d: Digest)
    requires ParentInput(a, b) == ParentInput(c, d)
    ensures a == c && b == d
  {
    assert ParentInput(a, b)[1..65] == a && ParentInput(c, d)[1..65] == c;
    assert ParentInput(a, b)[65..] == b && ParentInput(c, d)[65..] == d;
  }

  predicate HashesAlike(h: Hash, pair: (Bytes, Bytes)) {
    pair.0 != pair.1 && h(pair.0) == h(pair.1)
  }

  /** The two parent inputs at which a path departs from the tree, if it does. */
  function PathForgery(h: Hash, leaves: seq<Digest>, index: nat, leaf: Digest, path: seq<Digest>)
    : Option<(Bytes, Bytes)>
    requires index < |leaves| && |path| == PathLength(index, |leaves|)
  {
    match Departure(ParentHash(h), leaves, index, leaf, path)
    case Some(c) => Some((ParentInput(c.left0, c.right0), ParentInput(c.left1, c.right1)))
    case None => None
  }

  lemma PathIsGenuine(h: Hash, leaves: seq<Digest>, index: nat, leaf: Digest, path: seq<Digest>)
    requires index < |leaves| && |path| == PathLength(index, |leaves|)
    requires PathRoot(ParentHash(h), leaf, index, |leaves|, path) == TreeHash(ParentHash(h), leaves)
    ensures match PathForgery(h, leaves, index, leaf, path)
      case Some(pair) => HashesAlike(h, pair)
      case None => leaf == leaves[index] && path == TreePath(ParentHash(h), leaves, index)
  {
    hide Split, PathLength, TreeHash, TreePath, PathRoot, Departure, ParentInput;
    RootBindsLeafAndPath(ParentHash(h), leaves, index, leaf, path);
    match Departure(ParentHash(h), leaves, index, leaf, path)
    case Some(c) =>
      if ParentInput(c.left0, c.right0) == ParentInput(c.left1, c.right1) {
        ParentInputInjective(c.left0, c.right0, c.left1, c.right1);
      }
    case None =>
  }

  /** The root a well-formed proof claims for a leaf. */
  function ClaimedRoot(h: Hash, p: BatchProof, leaf: Digest): Digest
    requires WellFormed(p)
  {
    PathRoot(ParentHash(h), leaf, p.leafIndex, p.leafCount, p.siblings)
  }

  /** Two byte strings that hash alike whenever a proof that should not verify does. */
  function Forgery(h: Hash, bindings: seq<Binding>, p: BatchProof, binding: Binding): Option<(Bytes, Bytes)>
    requires 1 <= |bindings| <= MAX_BATCH_LEAVES && WellFormed(p)
  {
    var leaves, leaf := Leaves(h, bindings), h(LeafInput(binding));
    var committed := ReportInput(|bindings|, TreeHash(ParentHash(h), leaves));
    var claimed := ReportInput(p.leafCount, ClaimedRoot(h, p, leaf));
    if p.leafCount != |bindings| || committed != claimed then Some((committed, claimed))
    else
      match PathForgery(h, leaves, p.leafIndex, leaf, p.siblings)
      case Some(pair) => Some(pair)
      case None =>
        if binding != bindings[p.leafIndex] then Some((LeafInput(binding), LeafInput(bindings[p.leafIndex])))
        else None
  }

  /** What a verified proof establishes about the committed list. */
  ghost predicate Genuine(h: Hash, bindings: seq<Binding>, p: BatchProof, binding: Binding) {
    && p.leafCount == |bindings|
    && p.leafIndex < |bindings|
    && binding == bindings[p.leafIndex]
    && p.siblings == TreePath(ParentHash(h), Leaves(h, bindings), p.leafIndex)
  }

  ghost predicate GenuineOrForged(h: Hash, bindings: seq<Binding>, p: BatchProof, binding: Binding)
    requires 1 <= |bindings| <= MAX_BATCH_LEAVES && WellFormed(p)
  {
    match Forgery(h, bindings, p, binding)
    case Some(pair) => HashesAlike(h, pair)
    case None => Genuine(h, bindings, p, binding)
  }

  /** The root and the report data that commit a list of channels. */
  function CommittedRoot(h: Hash, bindings: seq<Binding>): Digest
    requires |bindings| >= 1
  {
    TreeHash(ParentHash(h), Leaves(h, bindings))
  }

  function CommittedReport(h: Hash, bindings: seq<Binding>): Digest
    requires 1 <= |bindings| <= MAX_BATCH_LEAVES
  {
    BatchReportData(h, |bindings|, CommittedRoot(h, bindings))
  }

  lemma ForgedAtRoot(h: Hash, bindings: seq<Binding>, p: BatchProof, binding: Binding)
    requires 1 <= |bindings| <= MAX_BATCH_LEAVES && WellFormed(p)
    requires ReportInput(|bindings|, CommittedRoot(h, bindings))
          != ReportInput(p.leafCount, ClaimedRoot(h, p, h(LeafInput(binding))))
    requires CommittedReport(h, bindings) == BatchReportData(h, p.leafCount, ClaimedRoot(h, p, h(LeafInput(binding))))
    ensures GenuineOrForged(h, bindings, p, binding)
  {
  }

  lemma GenuineBelowRoot(h: Hash, bindings: seq<Binding>, p: BatchProof, binding: Binding)
    requires 1 <= |bindings| <= MAX_BATCH_LEAVES && WellFormed(p) && p.leafCount == |bindings|
    requires ClaimedRoot(h, p, h(LeafInput(binding))) == CommittedRoot(h, bindings)
    ensures GenuineOrForged(h, bindings, p, binding)
  {
    hide Split, PathLength, TreeHash, TreePath, PathRoot, PathForgery, LeafInput, ReportInput, ParentHash;
    var leaves, leaf, i := Leaves(h, bindings), h(LeafInput(binding)), p.leafIndex;
    PathIsGenuine(h, leaves, i, leaf, p.siblings);
    if LeafInput(binding) == LeafInput(bindings[i]) {
      LeafInputInjective(binding, bindings[i]);
    }
  }

  /**
   * A well-formed proof that verifies against the report data committing `bindings`
   * names that many leaves, the binding at its index and that leaf's real path.
   * Otherwise `Forgery` computes two distinct strings with the same digest.
   */
  lemma VerifiedProofIsGenuine(h: Hash, bindings: seq<Binding>, p: BatchProof, binding: Binding)
    requires 1 <= |bindings| <= MAX_BATCH_LEAVES && WellFormed(p)
    requires Accepts(h, p, h(LeafInput(binding)), CommittedReport(h, bindings))
    ensures GenuineOrForged(h, bindings, p, binding)
  {
    hide GenuineOrForged, CommittedRoot, ClaimedRoot, LeafInput, ReportInput, Accepts;
    var leaf, root := h(LeafInput(binding)), CommittedRoot(h, bindings);
    ClaimedRootAccepted(h, p, leaf, CommittedReport(h, bindings));
    if ReportInput(|bindings|, root) == ReportInput(p.leafCount, ClaimedRoot(h, p, leaf)) {
      ReportInputInjective(|bindings|, root, p.leafCount, ClaimedRoot(h, p, leaf));
      GenuineBelowRoot(h, bindings, p, binding);
    } else {
      ForgedAtRoot(h, bindings, p, binding);
    }
  }

  lemma ClaimedRootAccepted(h: Hash, p: BatchProof, leaf: Digest, reportData: Digest)
    requires WellFormed(p) && Accepts(h, p, leaf, reportData)
    ensures BatchReportData(h, p.leafCount, ClaimedRoot(h, p, leaf)) == reportData
  {
    AcceptsMeaning(h, p, leaf, reportData);
  }

  // ----------------------------------------------------------------- building

  /** `iter_mut().for_each(|path| path.push(sibling))` over one half of the paths. */
  method PushSibling(paths: array<seq<Digest>>, start: nat, end: nat, sibling: Digest)
    requires start <= end <= paths.Length
    modifies paths
    ensures forall i :: 0 <= i < paths.Length ==>
      paths[i] == if start <= i < end then old(paths[i]) + [sibling] else old(paths[i])
  {
    for i := start to end
      invariant forall j :: 0 <= j < paths.Length ==>
        paths[j] == if start <= j < i then old(paths[j]) + [sibling] else old(paths[j])
    {
      paths[i] := paths[i] + [sibling];
    }
  }

  lemma TreePathSplits(node: (Digest, Digest) -> Digest, leaves: seq<Digest>, i: nat)
    requires 2 <= |leaves| && i < |leaves|
    ensures var k := Split(|leaves|);
      TreePath(node, leaves, i)
      == if i < k then TreePath(node, leaves[..k], i) + [TreeHash(node, leaves[k..])]
         else TreePath(node, leaves[k..], i - k) + [TreeHash(node, leaves[..k])]
  {
  }

  lemma TreeHashSplits(node: (Digest, Digest) -> Digest, leaves: seq<Digest>)
    requires |leaves| >= 1
    ensures |leaves| == 1 ==> TreeHash(node, leaves) == leaves[0] && TreePath(node, leaves, 0) == []
    ensures |leaves| >= 2 ==> var k := Split(|leaves|);
      TreeHash(node, leaves) == node(TreeHash(node, leaves[..k]), TreeHash(node, leaves[k..]))
  {
  }

  /** `subtree`: the recursive builder that pushes each level's sibling onto the leaf paths. */
  method Subtree(h: Hash, leaves: seq<Digest>, paths: array<seq<Digest>>, start: nat) returns (root: Digest)
    requires |leaves| >= 1 && start + |leaves| <= paths.Length
    modifies paths
    ensures root == TreeHash(ParentHash(h), leaves)
    ensures forall i :: start <= i < start + |leaves| ==>
      paths[i] == old(paths[i]) + TreePath(ParentHash(h), leaves, i - start)
    ensures forall i :: 0 <= i < paths.Length && !(start <= i < start + |leaves|) ==> paths[i] == old(paths[i])
    decreases |leaves|
  {
    hide Split, PathLength, TreeHash, TreePath;
    ghost var node := ParentHash(h);
    TreeHashSplits(node, leaves);
    if |leaves| == 1 {
      return leaves[0];
    }
    var split := Split(|leaves|);
    var left := Subtree(h, leaves[..split], paths, start);
    var right := Subtree(h, leaves[split..], paths, start + split);
    ghost var below := paths[..];
    PushSibling(paths, start, start + split, right);
    PushSibling(paths, start + split, start + |leaves|, left);
    root := h(ParentInput(left, right));
    forall i | start <= i < start + |leaves|
      ensures paths[i] == old(paths[i]) + TreePath(node, leaves, i - start)
    {
      TreePathSplits(node, leaves, i - start);
      assert paths[i] == below[i] + [if i < start + split then right else left];
    }
  }

  /** The proof `quote_batch` owes leaf `i`. */
  function ProofFor(h: Hash, leaves: seq<Digest>, i: nat): (p: BatchProof)
    requires i < |leaves| <= MAX_BATCH_LEAVES
    ensures WellFormed(p)
  {
    BatchProof(|leaves|, i, TreePath(ParentHash(h), leaves, i))
  }

  datatype GatewayError = BatchSize | FrameLength | Deframe

  /** `gateway::quote_batch`. */
  method BuildBatch(h: Hash, leaves: seq<Digest>) returns (r: Result<(Digest, seq<BatchProof>), GatewayError>)
    ensures r.Ok? <==> 1 <= |leaves| <= 1024
    ensures r.Ok? ==>
      && r.value.0 == BatchReportData(h, |leaves|, TreeHash(ParentHash(h), leaves))
      && |r.value.1| == |leaves|
      && forall i :: 0 <= i < |leaves| ==> r.value.1[i] == ProofFor(h, leaves, i)
  {
    if !(1 <= |leaves| <= MAX_BATCH_LEAVES) {
      return Err(BatchSize);
    }
    var siblings := new seq<Digest>[|leaves|](_ => []);
    var root := Subtree(h, leaves, siblings, 0);
    var proofs: seq<BatchProof> := [];
    for index := 0 to |leaves|
      invariant |proofs| == index
      invariant forall i :: 0 <= i < index ==> proofs[i] == ProofFor(h, leaves, i)
    {
      assert siblings[index] == [] + TreePath(ParentHash(h), leaves, index);
      proofs := proofs + [BatchProof(|leaves|, index, siblings[index])];
    }
    r := Ok((BatchReportData(h, |leaves|, root), proofs));
  }

  /** Every proof the builder makes verifies at its own index. */
  lemma BuiltProofsVerify(h: Hash, leaves: seq<Digest>, i: nat)
    requires i < |leaves| <= MAX_BATCH_LEAVES
    ensures Accepts(h, ProofFor(h, leaves, i), leaves[i],
                    BatchReportData(h, |leaves|, TreeHash(ParentHash(h), leaves)))
  {
    AcceptsMeaning(h, ProofFor(h, leaves, i), leaves[i], BatchReportData(h, |leaves|, TreeHash(ParentHash(h), leaves)));
    PathsLeadToRoot(ParentHash(h), leaves, i);
  }
}
