/** What is hashed, signed and sent, byte by byte: the fields at their places and the text as it is written. */
module Layouts {
  import opened Basics
  import M = MerkleTree
  import Q = QuoteBatch
  import W = QuoteWire
  import R = Rekor
  import opened CanonicalJson

  // -------------------------------------------------------------------- trees

  /** Small trees of RFC 9162: full subtrees to the left, a lone leaf joined as it is. */
  lemma SmallTrees<D>(node: (D, D) -> D, a: D, b: D, c: D, d: D, e: D)
    ensures M.TreeHash(node, [a]) == a
    ensures M.TreeHash(node, [a, b]) == node(a, b)
    ensures M.TreeHash(node, [a, b, c]) == node(node(a, b), c)
    ensures M.TreeHash(node, [a, b, c, d, e]) == node(node(node(a, b), node(c, d)), e)
    ensures M.TreePath(node, [a, b, c], 0) == [b, c]
    ensures M.TreePath(node, [a, b, c], 2) == [node(a, b)]
  {
    SplitsSmall();
    assert [a, b][..1] == [a] && [a, b][1..] == [b];
    assert [a, b, c][..2] == [a, b] && [a, b, c][2..] == [c];
    assert [c, d][..1] == [c] && [c, d][1..] == [d];
    assert [a, b, c, d][..2] == [a, b] && [a, b, c, d][2..] == [c, d];
    assert [a, b, c, d, e][..4] == [a, b, c, d] && [a, b, c, d, e][4..] == [e];
    assert M.TreeHash(node, [c, d]) == node(c, d) && M.TreeHash(node, [a, b]) == node(a, b);
    assert |[a, b, c, d]| == 4 && |[a, b, c, d, e]| == 5;
    assert M.TreeHash(node, [a, b, c, d]) == node(node(a, b), node(c, d));
    assert M.TreePath(node, [a, b], 0) == [b];
  }

  lemma SplitsSmall()
    ensures M.Split(2) == 1 && M.Split(3) == 2 && M.Split(4) == 2 && M.Split(5) == 4
  {
    assert M.Ilog2(1) == 0 && M.Ilog2(2) == 1 && M.Ilog2(3) == 1 && M.Ilog2(4) == 1 + M.Ilog2(2);
    assert M.Pow2(0) == 1 && M.Pow2(1) == 2 && M.Pow2(2) == 2 * M.Pow2(1);
  }

  /** The root of a log of two entries, as section 2.1.1 of RFC 9162 writes it. */
  lemma LogOfTwo(h: R.Hash, x: Bytes, y: Bytes)
    ensures M.TreeHash(R.NodeHash(h), R.LeafHashes(h, [x, y])) == h([1] + h([0] + x) + h([0] + y))
  {
    var leaves := R.LeafHashes(h, [x, y]);
    assert leaves[0] == h(R.LeafInput(x)) && leaves[1] == h(R.LeafInput(y));
    assert leaves == [leaves[0], leaves[1]];
    var left, right := leaves[0], leaves[1];
    SmallTrees(R.NodeHash(h), left, right, left, left, left);
    assert M.TreeHash(R.NodeHash(h), leaves) == R.NodeHash(h)(left, right);
    assert R.NodeHash(h)(left, right) == h(R.NodeInput(left, right));
    assert R.NodeInput(left, right) == [1] + h([0] + x) + h([0] + y);
  }

  // ------------------------------------------------------------ quote batches

  /** Two bytes, the high one first. */
  lemma TwoBytes(n: nat)
    requires n < 0x1_0000
    ensures 256 * U16Bytes(n)[0] as nat + U16Bytes(n)[1] as nat == n
  {
  }

  /** A parent hashes the byte 1, the left and then the right digest. */
  lemma ParentLayout(h: Q.Hash, left: Q.Digest, right: Q.Digest)
    ensures var b := Q.ParentInput(left, right);
      && |b| == 129 && b[0] == 1 && b[1..65] == left && b[65..] == right
      && Q.ParentHash(h)(left, right) == h(b)
  {
  }

  function EnvironmentCode(e: Q.Environment): byte {
    match e
    case Production => 1
    case Staging => 2
  }

  /** A leaf hashes the byte 0, its domain with a zero behind it, the environment and its digests. */
  lemma LeafLayout(binding: Q.Binding)
    ensures var b := Q.LeafInput(binding);
      match binding
      case NativeTls(e, boot, challenge, signer) =>
        && |b| == 119 && b[0] == 0 && b[1..21] == Ascii("stogas.native-tls.v1") && b[21] == 0
        && b[22] == EnvironmentCode(e) && b[23..55] == boot && b[55..87] == challenge && b[87..] == signer
      case E2eeSession(e, boot, transcript) =>
        && |b| == 89 && b[0] == 0 && b[1..23] == Ascii("stogas.e2ee-session.v1") && b[23] == 0
        && b[24] == EnvironmentCode(e) && b[25..57] == boot && b[57..] == transcript
  {
    hide Ascii;
    var tls, session := Ascii("stogas.native-tls.v1"), Ascii("stogas.e2ee-session.v1");
    match binding
    case NativeTls(e, boot, challenge, signer) =>
      assert Q.LeafInput(binding) == [0] + tls + [0] + [EnvironmentCode(e)] + boot + challenge + signer;
    case E2eeSession(e, boot, transcript) =>
      assert Q.LeafInput(binding) == [0] + session + [0] + [EnvironmentCode(e)] + boot + transcript;
  }

  /** The report data hashes its domain, the number of leaves in two bytes, high byte first, and the root. */
  lemma ReportLayout(h: Q.Hash, count: nat, root: Q.Digest)
    requires count < 0x1_0000
    ensures var b := Q.ReportInput(count, root);
      && |b| == 88 && b[..21] == Ascii("stogas.quote-batch.v1") && b[21] == 0
      && 256 * b[22] as nat + b[23] as nat == count && b[24..] == root
      && Q.BatchReportData(h, count, root) == h(b)
  {
    hide Ascii;
    var b := Q.ReportInput(count, root);
    assert b == Ascii("stogas.quote-batch.v1") + [0] + U16Bytes(count) + root;
    assert b[22..24] == U16Bytes(count);
    TwoBytes(count);
  }

  /** An encoded proof: count and index in two bytes each, high byte first, then the siblings. */
  lemma ProofLayout(p: Q.BatchProof, i: nat)
    requires p.leafCount < 0x1_0000 && p.leafIndex < 0x1_0000 && i < |p.siblings|
    ensures var b := W.Encode(p);
      && |b| == 4 + 64 * |p.siblings|
      && 256 * b[0] as nat + b[1] as nat == p.leafCount && 256 * b[2] as nat + b[3] as nat == p.leafIndex
      && b[4 + 64 * i..68 + 64 * i] == p.siblings[i]
  {
    var b := W.Encode(p);
    assert b[..2] == U16Bytes(p.leafCount) && b[2..4] == U16Bytes(p.leafIndex);
    TwoBytes(p.leafCount);
    TwoBytes(p.leafIndex);
    assert b[4..] == Flatten(p.siblings);
    W.FlattenDigests(p.siblings);
    SiblingAt(p.siblings, i);
    assert b[4 + 64 * i..68 + 64 * i] == b[4..][64 * i..64 * i + 64];
  }

  lemma {:induction false} SiblingAt(siblings: seq<Q.Digest>, i: nat)
    requires i < |siblings|
    ensures |Flatten(siblings)| == 64 * |siblings| && Flatten(siblings)[64 * i..64 * i + 64] == siblings[i]
  {
    W.FlattenDigests(siblings);
    if i > 0 {
      SiblingAt(siblings[1..], i - 1);
      var rest := Flatten(siblings[1..]);
      assert Flatten(siblings) == siblings[0] + rest;
      assert Flatten(siblings)[64 * i..64 * i + 64] == rest[64 * (i - 1)..64 * (i - 1) + 64];
    }
  }

  /** A frame: the first part's length in two bytes, high byte first, the part, and the frame of the others. */
  lemma FrameLayout(parts: seq<Bytes>)
    requires W.Fits(parts) && parts != []
    ensures var b, n := W.Frame(parts), |parts[0]|;
      && |b| >= 2 + n && 256 * b[0] as nat + b[1] as nat == n
      && b[2..2 + n] == parts[0] && b[2 + n..] == W.Frame(parts[1..])
  {
    var b := W.Frame(parts);
    assert b[..2] == U16Bytes(|parts[0]|);
    TwoBytes(|parts[0]|);
  }

  // ----------------------------------------------------------- canonical JSON

  /** Parts with a comma between each two. */
  function Separated(parts: seq<Bytes>): Bytes {
    if parts == [] then [] else if |parts| == 1 then parts[0] else parts[0] + Ascii(",") + Separated(parts[1..])
  }

  lemma Marks()
    ensures Ascii("[") == [91] && Ascii("]") == [93] && Ascii("{") == [123] && Ascii("}") == [125]
    ensures Ascii(",") == [44] && Ascii(":") == [58] && Ascii("\"") == [34] && Ascii("\\") == [92] && Ascii("-") == [45]
  {
  }

  /** The three keywords as they are spelled. */
  lemma KeywordsWritten()
    ensures Flat(Null) == Ascii("null") && Flat(Bool(true)) == Ascii("true") && Flat(Bool(false)) == Ascii("false")
  {
  }

  lemma {:induction false} MoreItemsWritten(items: seq<Value>)
    requires items != []
    ensures [44] + Separated(Each(v => Flat(v), items)) + [93] == MoreItems(items)
  {
    Marks();
    var parts := Each((v: Value) => Flat(v), items);
    if |items| > 1 {
      MoreItemsWritten(items[1..]);
      assert parts[1..] == Each((v: Value) => Flat(v), items[1..]);
      assert [44] + (parts[0] + [44] + Separated(parts[1..])) + [93] == [44] + parts[0] + MoreItems(items[1..]);
    } else {
      assert items[1..] == [];
    }
  }

  /** An array: its items in their order, separated by commas, in brackets. */
  lemma ArrayWritten(items: seq<Value>)
    ensures Flat(Array(items)) == Ascii("[") + Separated(Each(v => Flat(v), items)) + Ascii("]")
  {
    Marks();
    var parts := Each((v: Value) => Flat(v), items);
    if |items| > 1 {
      MoreItemsWritten(items[1..]);
      assert parts[1..] == Each((v: Value) => Flat(v), items[1..]);
      assert [91] + (parts[0] + [44] + Separated(parts[1..])) + [93] == [91] + parts[0] + MoreItems(items[1..]);
    } else if |items| == 1 {
      assert items[1..] == [];
    }
  }

  function MemberText(e: Entry): Bytes {
    Quoted(e.key) + Ascii(":") + Flat(e.value)
  }

  lemma {:induction false} MoreMembersWritten(entries: seq<Entry>)
    requires entries != []
    ensures [44] + Separated(Each(e => MemberText(e), entries)) + [125] == MoreMembers(entries)
  {
    Marks();
    var parts := Each((e: Entry) => MemberText(e), entries);
    assert MemberText(entries[0]) == Member(entries[0]);
    if |entries| > 1 {
      MoreMembersWritten(entries[1..]);
      assert parts[1..] == Each((e: Entry) => MemberText(e), entries[1..]);
      assert [44] + (parts[0] + [44] + Separated(parts[1..])) + [125]
        == [44] + parts[0] + MoreMembers(entries[1..]);
    } else {
      assert entries[1..] == [];
    }
  }

  /** An object: its members in their order, each a quoted key, a colon and a value, in braces. */
  lemma ObjectWritten(entries: seq<Entry>)
    ensures Flat(Object(entries)) == Ascii("{") + Separated(Each(e => MemberText(e), entries)) + Ascii("}")
  {
    Marks();
    var parts := Each((e: Entry) => MemberText(e), entries);
    if entries != [] {
      assert MemberText(entries[0]) == Member(entries[0]);
    }
    if |entries| > 1 {
      MoreMembersWritten(entries[1..]);
      assert parts[1..] == Each((e: Entry) => MemberText(e), entries[1..]);
      assert [123] + (parts[0] + [44] + Separated(parts[1..])) + [125]
        == [123] + parts[0] + MoreMembers(entries[1..]);
    } else if |entries| == 1 {
      assert entries[1..] == [];
    }
  }

  /** A backslash before a quotation mark or a backslash, and before nothing else. */
  function Marked(b: byte): Bytes {
    if [b] == Ascii("\"") then Ascii("\\\"") else if [b] == Ascii("\\") then Ascii("\\\\") else [b]
  }

  lemma {:induction false} EscapedWritten(text: Bytes)
    ensures Escaped(text) == Flatten(Each(b => Marked(b), text))
  {
    if text != [] {
      EscapedWritten(text[1..]);
      assert Each((b: byte) => Marked(b), text)[1..] == Each((b: byte) => Marked(b), text[1..]);
      MarkedIs(text[0]);
    }
  }

  lemma MarkedIs(b: byte)
    ensures Marked(b) == if b == 34 || b == 92 then [92, b] else [b]
  {
    Marks();
    assert Ascii("\\\"") == [92, 34] && Ascii("\\\\") == [92, 92];
  }

  /** A text: its bytes, the two marks escaped, in quotation marks. */
  lemma TextWritten(text: Bytes)
    ensures Flat(Text(text)) == Ascii("\"") + Flatten(Each(b => Marked(b), text)) + Ascii("\"")
  {
    Marks();
    EscapedWritten(text);
  }

  /** The number that decimal digits denote. */
  function NumberOf(digits: Bytes): int {
    if digits == [] then 0 else 10 * NumberOf(digits[..|digits| - 1]) + (digits[|digits| - 1] as int - 48)
  }

  /** Digits only, and no zero in front unless it is all there is. */
  predicate Plain(digits: Bytes) {
    && digits != [] && (forall i :: 0 <= i < |digits| ==> 48 <= digits[i] <= 57)
    && (digits[0] == 48 ==> |digits| == 1)
  }

  lemma {:induction false} DigitsRead(n: nat)
    ensures Plain(Digits(n)) && NumberOf(Digits(n)) == n && (n > 0 ==> Digits(n)[0] != 48)
  {
    var d := Digits(n);
    if n >= 10 {
      DigitsRead(n / 10);
      assert d[..|d| - 1] == Digits(n / 10);
    } else {
      assert d[..0] == [];
    }
  }

  /** An integer: its decimal digits, after a minus sign if it is negative. */
  lemma IntegerWritten(n: int) returns (digits: Bytes)
    ensures Plain(digits)
    ensures Flat(Integer(n)) == (if n < 0 then Ascii("-") else []) + digits
    ensures NumberOf(digits) == if n < 0 then -n else n
  {
    Marks();
    digits := Digits(if n < 0 then -n else n);
    DigitsRead(if n < 0 then -n else n);
  }

  /** The first place where two keys differ decides; a key comes before those it begins. */
  predicate ComesBefore(a: Bytes, b: Bytes, k: nat) {
    && k <= |a| && k < |b| && a[..k] == b[..k]
    && (k == |a| || (a[k] as int) < (b[k] as int))
  }

  lemma SameStart(a: Bytes, b: Bytes, k: nat)
    requires ComesBefore(a, b, k) && k > 0
    ensures a[0] == b[0]
  {
    assert a[..k][0] == b[..k][0];
  }

  lemma {:induction false} OrderIsBytes(a: Bytes, b: Bytes)
    ensures Less(a, b) <==> exists k: nat :: ComesBefore(a, b, k)
  {
    if b != [] && a != [] && a[0] == b[0] {
      OrderIsBytes(a[1..], b[1..]);
      assert a == [a[0]] + a[1..] && b == [b[0]] + b[1..];
      if k: nat :| ComesBefore(a[1..], b[1..], k) {
        assert a[..k + 1] == [a[0]] + a[1..][..k] && b[..k + 1] == [b[0]] + b[1..][..k];
        assert ComesBefore(a, b, k + 1);
      }
      if k: nat :| ComesBefore(a, b, k) {
        assert k > 0;
        assert a[1..][..k - 1] == a[..k][1..] && b[1..][..k - 1] == b[..k][1..];
        assert ComesBefore(a[1..], b[1..], k - 1);
      }
    } else {
      assert Less(a, b) ==> ComesBefore(a, b, 0);
      if k: nat :| ComesBefore(a, b, k) {
        if k > 0 {
          SameStart(a, b, k);
        }
      }
    }
  }

  /** In canonical form the keys of every object ascend byte by byte. */
  lemma KeysAscend(entries: seq<Entry>, i: nat, j: nat)
    requires KeysDiffer(entries) && i < j < |entries|
    ensures Normal(Object(entries)).Object? && |Normal(Object(entries)).entries| == |entries|
    ensures exists k: nat ::
      ComesBefore(Normal(Object(entries)).entries[i].key, Normal(Object(entries)).entries[j].key, k)
  {
    var normal := NormalEntries(entries);
    SortAscends(normal);
    SortKeeps(normal);
    assert |multiset(Sort(normal))| == |multiset(normal)|;
    OrderIsBytes(Sort(normal)[i].key, Sort(normal)[j].key);
  }
}
