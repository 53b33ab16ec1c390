/** The wire forms of a quote batch: one proof, and the framed list that crosses from Rust to Go. */
module QuoteWire {
  import opened Basics
  import opened MerkleTree
  import opened QuoteBatch

  datatype ProofError = Length | Shape

  function Encode(p: BatchProof): (b: Bytes)
    requires p.leafCount < 0x1_0000 && p.leafIndex < 0x1_0000
    ensures |b| == 4 + 64 * |p.siblings|
  {
    FlattenDigests(p.siblings);
    U16Bytes(p.leafCount) + U16Bytes(p.leafIndex) + Flatten(p.siblings)
  }

  lemma {:induction false} FlattenDigests(s: seq<Digest>)
    ensures |Flatten(s)| == 64 * |s|
  {
    if s != [] {
      FlattenDigests(s[1..]);
    }
  }

  /** `to_bytes`. */
  method ToBytes(p: BatchProof) returns (bytes: Bytes)
    requires p.leafCount < 0x1_0000 && p.leafIndex < 0x1_0000
    ensures bytes == Encode(p)
  {
    bytes := U16Bytes(p.leafCount) + U16Bytes(p.leafIndex);
    ghost var head := bytes;
    for i := 0 to |p.siblings|
      invariant bytes == head + Flatten(p.siblings[..i])
    {
      assert p.siblings[..i + 1] == p.siblings[..i] + [p.siblings[i]];
      FlattenAppend(p.siblings[..i], [p.siblings[i]]);
      FlattenOne(p.siblings[i]);
      bytes := bytes + p.siblings[i];
    }
    assert p.siblings[..|p.siblings|] == p.siblings;
  }

  lemma FlattenOne(b: Bytes)
    ensures Flatten([b]) == b
  {
    assert [b][1..] == [];
  }

  /** `chunks_exact(64)`. */
  function Chunks64(b: Bytes): (s: seq<Digest>)
    requires |b| % 64 == 0
    ensures 64 * |s| == |b|
  {
    if b == [] then [] else [b[..64]] + Chunks64(b[64..])
  }

  lemma {:induction false} ChunksFlatten(b: Bytes)
    requires |b| % 64 == 0
    ensures Flatten(Chunks64(b)) == b
  {
    if b != [] {
      ChunksFlatten(b[64..]);
      assert Chunks64(b)[1..] == Chunks64(b[64..]);
      assert b == b[..64] + b[64..];
    }
  }

  lemma {:induction false} FlattenInjective(s: seq<Digest>, t: seq<Digest>)
    requires Flatten(s) == Flatten(t)
    ensures s == t
  {
    FlattenDigests(s);
    FlattenDigests(t);
    if s != [] {
      assert Flatten(s)[..64] == s[0] && Flatten(t)[..64] == t[0];
      assert Flatten(s)[64..] == Flatten(s[1..]) && Flatten(t)[64..] == Flatten(t[1..]);
      FlattenInjective(s[1..], t[1..]);
      assert s == [s[0]] + s[1..] && t == [t[0]] + t[1..];
    }
  }

  /** No two proofs share an encoding. */
  lemma EncodeInjective(p: BatchProof, q: BatchProof)
    requires p.leafCount < 0x1_0000 && p.leafIndex < 0x1_0000 && q.leafCount < 0x1_0000 && q.leafIndex < 0x1_0000
    requires Encode(p) == Encode(q)
    ensures p == q
  {
    assert Encode(p)[..2] == U16Bytes(p.leafCount) && Encode(q)[..2] == U16Bytes(q.leafCount);
    assert Encode(p)[2..4] == U16Bytes(p.leafIndex) && Encode(q)[2..4] == U16Bytes(q.leafIndex);
    assert Encode(p)[4..] == Flatten(p.siblings) && Encode(q)[4..] == Flatten(q.siblings);
    FlattenInjective(p.siblings, q.siblings);
  }

  predicate BadLength(bytes: Bytes) {
    |bytes| < 4 || |bytes| > 4 + 64 * MAX_PROOF_HASHES || (|bytes| - 4) % 64 != 0
  }

  lemma BatchPathsAreShort(index: nat, count: nat)
    requires index < count <= 1024
    ensures PathLength(index, count) <= 10
  {
    assert Pow2(10) == 1024;
    PathLengthBound(index, count, 10);
  }

  /** The depth loop of `from_bytes`. */
  method ProofDepth(leafIndex: nat, leafCount: nat) returns (depth: nat)
    requires leafIndex < leafCount
    ensures depth == PathLength(leafIndex, leafCount)
  {
    depth := 0;
    var count: nat, index: nat := leafCount, leafIndex;
    while count > 1
      invariant index < count <= leafCount
      invariant depth + PathLength(index, count) == PathLength(leafIndex, leafCount)
      decreases count
    {
      var k := Split(count);
      if index < k {
        count := k;
      } else {
        index := index - k;
        count := count - k;
      }
      depth := depth + 1;
    }
  }

  /** What the bytes say about any well-formed proof they encode. */
  lemma EncodedFields(p: BatchProof)
    requires WellFormed(p)
    ensures var b := Encode(p);
      && !BadLength(b) && U16(b[..2]) == p.leafCount && U16(b[2..4]) == p.leafIndex
      && PathLength(p.leafIndex, p.leafCount) == (|b| - 4) / 64
  {
    BatchPathsAreShort(p.leafIndex, p.leafCount);
    assert Encode(p)[..2] == U16Bytes(p.leafCount) && Encode(p)[2..4] == U16Bytes(p.leafIndex);
  }

  lemma Reassembled(bytes: Bytes)
    requires |bytes| >= 4 && (|bytes| - 4) % 64 == 0
    ensures Encode(BatchProof(U16(bytes[..2]), U16(bytes[2..4]), Chunks64(bytes[4..]))) == bytes
  {
    U16Inverse(bytes[..2]);
    U16Inverse(bytes[2..4]);
    ChunksFlatten(bytes[4..]);
    assert bytes == bytes[..2] + bytes[2..4] + bytes[4..];
  }

  /**
   * `from_bytes` inverts `to_bytes`: it returns the proof whose encoding it was given, and
   * rejects exactly the byte strings that encode no well-formed proof.
   */
  method FromBytes(bytes: Bytes) returns (r: Result<BatchProof, ProofError>)
    ensures r.Ok? ==> WellFormed(r.value) && Encode(r.value) == bytes
    ensures r.Err? ==> forall p: BatchProof :: WellFormed(p) ==> Encode(p) != bytes
    ensures r == Err(Length) <==> |bytes| < 4 || |bytes| > 644 || (|bytes| - 4) % 64 != 0
  {
    hide Split, PathLength, Encode, Chunks64;
    forall p: BatchProof | WellFormed(p) && Encode(p) == bytes
      ensures !BadLength(bytes) && U16(bytes[..2]) == p.leafCount && U16(bytes[2..4]) == p.leafIndex
      ensures PathLength(p.leafIndex, p.leafCount) == (|bytes| - 4) / 64
    {
      EncodedFields(p);
    }
    if BadLength(bytes) {
      return Err(Length);
    }
    var leafCount, leafIndex := U16(bytes[..2]), U16(bytes[2..4]);
    if leafCount == 0 || leafCount > MAX_BATCH_LEAVES || leafIndex >= leafCount {
      return Err(Shape);
    }
    var depth := ProofDepth(leafIndex, leafCount);
    if depth != (|bytes| - 4) / 64 {
      return Err(Shape);
    }
    Reassembled(bytes);
    r := Ok(BatchProof(leafCount, leafIndex, Chunks64(bytes[4..])));
  }

  // ------------------------------------------------------------------ framing

  predicate Fits(parts: seq<Bytes>) {
    forall i :: 0 <= i < |parts| ==> |parts[i]| < 0x1_0000
  }

  function Frame(parts: seq<Bytes>): Bytes
    requires Fits(parts)
  {
    if parts == [] then [] else U16Bytes(|parts[0]|) + parts[0] + Frame(parts[1..])
  }

  lemma {:induction false} FrameAppend(a: seq<Bytes>, b: Bytes)
    requires Fits(a) && |b| < 0x1_0000
    ensures Frame(a + [b]) == Frame(a) + U16Bytes(|b|) + b
  {
    if a == [] {
      assert Frame([b][1..]) == [];
    } else {
      assert (a + [b])[1..] == a[1..] + [b];
      FrameAppend(a[1..], b);
    }
  }

  /** The framing loop of `stogas_quote_batch`. */
  method FrameParts(parts: seq<Bytes>) returns (r: Result<Bytes, GatewayError>)
    ensures r.Ok? <==> Fits(parts)
    ensures r.Ok? ==> r.value == Frame(parts)
  {
    var encoded: Bytes := [];
    for i := 0 to |parts|
      invariant Fits(parts[..i]) && encoded == Frame(parts[..i])
    {
      if |parts[i]| >= 0x1_0000 {
        return Err(FrameLength);
      }
      FrameAppend(parts[..i], parts[i]);
      assert parts[..i + 1] == parts[..i] + [parts[i]];
      encoded := encoded + U16Bytes(|parts[i]|);
      encoded := encoded + parts[i];
    }
    assert parts[..|parts|] == parts;
    r := Ok(encoded);
  }

  lemma FrameHead(parts: seq<Bytes>)
    requires Fits(parts) && parts != []
    ensures var f := Frame(parts);
      && |f| >= 2 + |parts[0]| && U16(f) == |parts[0]|
      && f[2..2 + |parts[0]|] == parts[0] && f[2 + |parts[0]|..] == Frame(parts[1..])
  {
    assert Frame(parts)[..2] == U16Bytes(|parts[0]|);
  }

  /** A frame can be read only one way: the parts already taken are its first parts. */
  lemma {:induction false} FramePrefix(parts: seq<Bytes>, taken: seq<Bytes>, rest: Bytes)
    requires Fits(parts) && Fits(taken) && |taken| <= |parts| && Frame(parts) == Frame(taken) + rest
    ensures parts[..|taken|] == taken && Frame(parts[|taken|..]) == rest
  {
    if taken != [] {
      FrameHead(parts);
      FrameHead(taken);
      var n := 2 + |taken[0]|;
      assert Frame(parts)[..2] == Frame(taken)[..2];
      assert Frame(parts)[2..n] == Frame(taken)[2..n];
      assert Frame(parts)[n..] == Frame(taken)[n..] + rest;
      FramePrefix(parts[1..], taken[1..], rest);
      assert parts[|taken|..] == parts[1..][|taken| - 1..];
      assert parts[..|taken|] == [parts[0]] + parts[1..][..|taken| - 1];
    } else {
      assert parts[0..] == parts;
    }
  }

  /**
   * The deframing loop of Go's `QuoteBatch` inverts the framing: it returns the one list
   * of `n` parts whose frame it was given, and fails exactly when there is none.
   */
  method Deframe(framed: Bytes, n: nat) returns (r: Result<seq<Bytes>, GatewayError>)
    ensures r.Ok? ==> |r.value| == n && Fits(r.value) && Frame(r.value) == framed
    ensures r.Err? ==> forall parts :: |parts| == n && Fits(parts) ==> Frame(parts) != framed
  {
    var proofs: seq<Bytes> := [];
    var rest := framed;
    for i := 0 to n
      invariant |proofs| == i && Fits(proofs) && framed == Frame(proofs) + rest
    {
      if |rest| < 2 || |rest| < 2 + U16(rest) {
        forall parts | |parts| == n && Fits(parts)
          ensures Frame(parts) != framed
        {
          if Frame(parts) == framed {
            FramePrefix(parts, proofs, rest);
            FrameHead(parts[i..]);
          }
        }
        return Err(GatewayError.Deframe);
      }
      var length := 2 + U16(rest);
      var part := rest[2..length];
      FrameAppend(proofs, part);
      U16Inverse(rest[..2]);
      assert rest == U16Bytes(|part|) + part + rest[length..];
      proofs := proofs + [part];
      rest := rest[length..];
    }
    if |rest| != 0 {
      forall parts | |parts| == n && Fits(parts)
        ensures Frame(parts) != framed
      {
        if Frame(parts) == framed {
          FramePrefix(parts, proofs, rest);
        }
      }
      return Err(GatewayError.Deframe);
    }
    r := Ok(proofs);
  }

  /**
   * Go's `QuoteBatch` over the Rust builder and framing: for every batch of 1 to 1024
   * leaves it yields one encoding for each leaf, in order, and each encoded proof
   * verifies that leaf against the returned report data.
   */
  method GoQuoteBatch(h: Hash, leaves: seq<Digest>) returns (r: Result<(Digest, seq<Bytes>), GatewayError>)
    ensures r.Ok? <==> 1 <= |leaves| <= 1024
    ensures r.Ok? ==> |r.value.1| == |leaves|
    ensures r.Ok? ==> forall i :: 0 <= i < |leaves| ==>
      && r.value.1[i] == Encode(ProofFor(h, leaves, i))
      && Accepts(h, ProofFor(h, leaves, i), leaves[i], r.value.0)
  {
    var built := BuildBatch(h, leaves);
    if built.Err? {
      return Err(built.error);
    }
    var (report, batch) := built.value;
    var parts: seq<Bytes> := [];
    for i := 0 to |batch|
      invariant |parts| == i && Fits(parts)
      invariant forall j :: 0 <= j < i ==> parts[j] == Encode(ProofFor(h, leaves, j))
    {
      var bytes := ToBytes(batch[i]);
      BatchPathsAreShort(i, |leaves|);
      parts := parts + [bytes];
    }
    var framed := FrameParts(parts);
    var proofs := Deframe(framed.value, |leaves|);
    FrameInjective(parts, if proofs.Ok? then proofs.value else parts);
    forall i | 0 <= i < |leaves|
      ensures Accepts(h, ProofFor(h, leaves, i), leaves[i], report)
    {
      BuiltProofsVerify(h, leaves, i);
    }
    r := Ok((report, proofs.value));
  }

  lemma {:induction false} FrameInjective(a: seq<Bytes>, b: seq<Bytes>)
    requires Fits(a) && Fits(b) && |a| == |b| && Frame(a) == Frame(b)
    ensures a == b
  {
    if a != [] {
      FrameHead(a);
      FrameHead(b);
      FrameInjective(a[1..], b[1..]);
      assert a == [a[0]] + a[1..] && b == [b[0]] + b[1..];
    }
  }
}
