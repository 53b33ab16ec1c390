/** The canonical JSON over which Sigstore's TUF metadata is signed. */
module CanonicalJson {
  import opened Basics

  // ------------------------------------------------------------------- values

  datatype Value =
    | Null
    | Bool(truth: bool)
    | Integer(number: int)
    | Fraction
    | Text(text: Bytes)
    | Array(items: seq<Value>)
    | Object(entries: seq<Entry>)

  datatype Entry = Entry(key: Bytes, value: Value)

  /** No two members of one object share a key, at any depth: what the strict parser enforces. */
  predicate DistinctKeys(v: Value) {
    match v
    case Array(items) => forall i :: 0 <= i < |items| ==> DistinctKeys(items[i])
    case Object(entries) => KeysDiffer(entries) && forall i :: 0 <= i < |entries| ==> DistinctKeys(entries[i].value)
    case _ => true
  }

  predicate KeysDiffer(entries: seq<Entry>) {
    forall i, j :: 0 <= i < j < |entries| ==> entries[i].key != entries[j].key
  }

  predicate Integral(v: Value) {
    match v
    case Fraction => false
    case Array(items) => forall i :: 0 <= i < |items| ==> Integral(items[i])
    case Object(entries) => forall i :: 0 <= i < |entries| ==> Integral(entries[i].value)
    case _ => true
  }

  /** Equal up to the order of the members of each object. */
  predicate Same(a: Value, b: Value)
    decreases a, 0
  {
    match (a, b)
    case (Array(xs), Array(ys)) => |xs| == |ys| && forall i :: 0 <= i < |xs| ==> Same(xs[i], ys[i])
    case (Object(xs), Object(ys)) => |xs| == |ys| && forall i :: 0 <= i < |xs| ==> HasSame(xs[i].key, xs[i].value, ys)
    case (_, _) => a == b
  }

  predicate HasSame(key: Bytes, value: Value, entries: seq<Entry>)
    decreases value, 1
  {
    exists j :: 0 <= j < |entries| && entries[j].key == key && Same(value, entries[j].value)
  }

  // ----------------------------------------------------------- key order, sort

  /** Byte order, shorter first on a common prefix. */
  predicate Less(a: Bytes, b: Bytes) {
    b != [] && (a == [] || a[0] < b[0] || (a[0] == b[0] && Less(a[1..], b[1..])))
  }

  function Insert(e: Entry, sorted: seq<Entry>): seq<Entry> {
    if sorted == [] || !Less(sorted[0].key, e.key) then [e] + sorted
    else [sorted[0]] + Insert(e, sorted[1..])
  }

  function Sort(entries: seq<Entry>): seq<Entry> {
    if entries == [] then [] else Insert(entries[0], Sort(entries[1..]))
  }

  predicate Ascending(entries: seq<Entry>) {
    forall i, j :: 0 <= i < j < |entries| ==> Less(entries[i].key, entries[j].key)
  }

  lemma {:induction false} Trichotomy(a: Bytes, b: Bytes)
    ensures a == b || Less(a, b) || Less(b, a)
    ensures !(Less(a, b) && Less(b, a))
  {
    if a != [] && b != [] {
      Trichotomy(a[1..], b[1..]);
      assert a == [a[0]] + a[1..] && b == [b[0]] + b[1..];
    }
  }

  lemma {:induction false} Transitive(a: Bytes, b: Bytes, c: Bytes)
    requires Less(a, b) && Less(b, c)
    ensures Less(a, c)
  {
    if a != [] && a[0] == b[0] && b[0] == c[0] {
      Transitive(a[1..], b[1..], c[1..]);
    }
  }

  lemma {:induction false} InsertKeeps(e: Entry, sorted: seq<Entry>)
    ensures multiset(Insert(e, sorted)) == multiset(sorted) + multiset{e}
  {
    if sorted == [] || !Less(sorted[0].key, e.key) {
    } else {
      InsertKeeps(e, sorted[1..]);
      assert sorted == [sorted[0]] + sorted[1..];
    }
  }

  lemma {:induction false} InsertAscends(e: Entry, sorted: seq<Entry>)
    requires Ascending(sorted)
    requires forall i :: 0 <= i < |sorted| ==> sorted[i].key != e.key
    ensures Ascending(Insert(e, sorted))
  {
    if sorted == [] {
    } else if !Less(sorted[0].key, e.key) {
      Trichotomy(sorted[0].key, e.key);
      forall j | 0 < j < |sorted| ensures Less(e.key, sorted[j].key) {
        Transitive(e.key, sorted[0].key, sorted[j].key);
      }
    } else {
      InsertAscends(e, sorted[1..]);
      InsertKeeps(e, sorted[1..]);
      var rest := Insert(e, sorted[1..]);
      forall j | 0 <= j < |rest| ensures Less(sorted[0].key, rest[j].key) {
        assert rest[j] in multiset(rest);
        if rest[j] != e {
          assert rest[j] in multiset(sorted[1..]);
          var k :| 0 <= k < |sorted[1..]| && sorted[1..][k] == rest[j];
        }
      }
    }
  }

  lemma {:induction false} SortKeeps(entries: seq<Entry>)
    ensures multiset(Sort(entries)) == multiset(entries)
  {
    if entries != [] {
      SortKeeps(entries[1..]);
      InsertKeeps(entries[0], Sort(entries[1..]));
      assert entries == [entries[0]] + entries[1..];
    }
  }

  lemma {:induction false} SortAscends(entries: seq<Entry>)
    requires KeysDiffer(entries)
    ensures Ascending(Sort(entries))
  {
    if entries != [] {
      var rest := Sort(entries[1..]);
      SortAscends(entries[1..]);
      SortKeeps(entries[1..]);
      forall i | 0 <= i < |rest| ensures rest[i].key != entries[0].key {
        assert rest[i] in multiset(rest);
        assert rest[i] in multiset(entries[1..]);
        var k :| 0 <= k < |entries[1..]| && entries[1..][k] == rest[i];
      }
      InsertAscends(entries[0], rest);
    }
  }

  /** Two ascending lists of the same entries are one list. */
  lemma {:induction false} AscendingUnique(a: seq<Entry>, b: seq<Entry>)
    requires Ascending(a) && Ascending(b) && multiset(a) == multiset(b)
    ensures a == b
  {
    if a == [] {
      assert |multiset(b)| == 0;
    } else {
      assert |multiset(b)| == |multiset(a)|;
      HeadsAgree(a, b);
      assert a == [a[0]] + a[1..] && b == [b[0]] + b[1..];
      assert multiset(a[1..]) == multiset(a) - multiset{a[0]};
      assert multiset(b[1..]) == multiset(b) - multiset{b[0]};
      AscendingUnique(a[1..], b[1..]);
    }
  }

  lemma HeadsAgree(a: seq<Entry>, b: seq<Entry>)
    requires Ascending(a) && Ascending(b) && multiset(a) == multiset(b) && a != [] && b != []
    ensures a[0] == b[0]
  {
    assert a[0] in multiset(b) && b[0] in multiset(a);
    var i :| 0 <= i < |b| && b[i] == a[0];
    var j :| 0 <= j < |a| && a[j] == b[0];
    Trichotomy(a[0].key, b[0].key);
  }

  // ------------------------------------------------------------------ writing

  function Digits(n: nat): Bytes {
    if n < 10 then [(48 + n) as byte] else Digits(n / 10) + [(48 + n % 10) as byte]
  }

  function Decimal(n: int): Bytes {
    if n < 0 then [45] + Digits(-n) else Digits(n)
  }

  function Escaped(text: Bytes): Bytes {
    if text == [] then []
    else (if text[0] == 34 || text[0] == 92 then [92, text[0]] else [text[0]]) + Escaped(text[1..])
  }

  function Quoted(text: Bytes): Bytes {
    [34] + Escaped(text) + [34]
  }

  /** The values in the order given, with nothing sorted. */
  function Flat(v: Value): Bytes {
    match v
    case Null => [110, 117, 108, 108]
    case Bool(truth) => if truth then [116, 114, 117, 101] else [102, 97, 108, 115, 101]
    case Integer(number) => Decimal(number)
    case Fraction => []
    case Text(text) => Quoted(text)
    case Array(items) => if items == [] then [91, 93] else [91] + Flat(items[0]) + MoreItems(items[1..])
    case Object(entries) => if entries == [] then [123, 125] else [123] + Member(entries[0]) + MoreMembers(entries[1..])
  }

  function Member(e: Entry): Bytes {
    Quoted(e.key) + [58] + Flat(e.value)
  }

  function MoreItems(items: seq<Value>): Bytes {
    if items == [] then [93] else [44] + Flat(items[0]) + MoreItems(items[1..])
  }

  function MoreMembers(entries: seq<Entry>): Bytes {
    if entries == [] then [125] else [44] + Member(entries[0]) + MoreMembers(entries[1..])
  }

  /** The members of every object sorted by key, as `write_canonical` visits them. */
  function Normal(v: Value): Value
    decreases v, 0
  {
    match v
    case Array(items) => Array(NormalItems(items))
    case Object(entries) => Object(Sort(NormalEntries(entries)))
    case _ => v
  }

  function NormalItems(items: seq<Value>): (r: seq<Value>)
    ensures |r| == |items| && forall i :: 0 <= i < |items| ==> r[i] == Normal(items[i])
    decreases items, 1
  {
    seq(|items|, i requires 0 <= i < |items| => Normal(items[i]))
  }

  function NormalEntries(entries: seq<Entry>): (r: seq<Entry>)
    ensures |r| == |entries|
    ensures forall i :: 0 <= i < |entries| ==> r[i] == Entry(entries[i].key, Normal(entries[i].value))
    decreases entries, 1
  {
    seq(|entries|, i requires 0 <= i < |entries| => Entry(entries[i].key, Normal(entries[i].value)))
  }

  /** The bytes that are signed. */
  function Canonical(v: Value): Bytes {
    Flat(Normal(v))
  }

  // ------------------------------------------- equal bytes, equal values

  /** What may follow a value: nothing, a comma or a closing bracket. */
  predicate Delimited(rest: Bytes) {
    rest == [] || rest[0] == 44 || rest[0] == 93 || rest[0] == 125
  }

  predicate IsDigit(b: byte) {
    48 <= b <= 57
  }

  lemma {:induction false} DigitsAreDigits(n: nat)
    ensures Digits(n) != [] && forall i :: 0 <= i < |Digits(n)| ==> IsDigit(Digits(n)[i])
  {
    if n >= 10 {
      DigitsAreDigits(n / 10);
    }
  }

  function Number(digits: Bytes): int {
    if digits == [] then 0 else 10 * Number(digits[..|digits| - 1]) + digits[|digits| - 1] as int - 48
  }

  lemma {:induction false} NumberOfDigits(n: nat)
    ensures Number(Digits(n)) == n
  {
    if n >= 10 {
      NumberOfDigits(n / 10);
      assert Digits(n)[..|Digits(n)| - 1] == Digits(n / 10);
    } else {
      assert Digits(n)[..0] == [];
    }
  }

  function DigitRun(bytes: Bytes): nat {
    if bytes == [] || !IsDigit(bytes[0]) then 0 else 1 + DigitRun(bytes[1..])
  }

  lemma {:induction false} RunOfDigits(digits: Bytes, rest: Bytes)
    requires Delimited(rest) && forall i :: 0 <= i < |digits| ==> IsDigit(digits[i])
    ensures DigitRun(digits + rest) == |digits|
  {
    if digits == [] {
      assert digits + rest == rest;
    } else {
      assert (digits + rest)[1..] == digits[1..] + rest;
      RunOfDigits(digits[1..], rest);
    }
  }

  lemma DigitsUnique(n: nat, m: nat, x: Bytes, y: Bytes)
    requires Digits(n) + x == Digits(m) + y && Delimited(x) && Delimited(y)
    ensures n == m && x == y
  {
    var whole := Digits(n) + x;
    DigitsAreDigits(n);
    DigitsAreDigits(m);
    RunOfDigits(Digits(n), x);
    RunOfDigits(Digits(m), y);
    assert Digits(n) == whole[..DigitRun(whole)] == Digits(m);
    assert x == whole[DigitRun(whole)..] == y;
    NumberOfDigits(n);
    NumberOfDigits(m);
  }

  /** Equal starts leave equal rests. */
  lemma Cancel(a: Bytes, x: Bytes, y: Bytes)
    requires a + x == a + y
    ensures x == y
  {
    assert x == (a + x)[|a|..] && y == (a + y)[|a|..];
  }

  lemma Regroup(a: Bytes, b: Bytes, c: Bytes)
    ensures (a + b) + c == a + (b + c)
  {
  }

  lemma RegroupThree(a: Bytes, b: Bytes, c: Bytes, d: Bytes)
    ensures ((a + b) + c) + d == a + (b + (c + d))
  {
  }

  lemma DecimalUnique(n: int, m: int, x: Bytes, y: Bytes)
    requires Decimal(n) + x == Decimal(m) + y && Delimited(x) && Delimited(y)
    ensures n == m && x == y
  {
    hide Digits, Delimited;
    SignShows(n, x);
    SignShows(m, y);
    if n < 0 {
      Regroup([45], Digits(-n), x);
      Regroup([45], Digits(-m), y);
      Cancel([45], Digits(-n) + x, Digits(-m) + y);
      DigitsUnique(-n, -m, x, y);
    } else {
      DigitsUnique(n, m, x, y);
    }
  }

  lemma SignShows(n: int, x: Bytes)
    ensures Decimal(n) != [] && (Decimal(n) + x)[0] == Decimal(n)[0]
    ensures if n < 0 then Decimal(n)[0] == 45 else IsDigit(Decimal(n)[0])
  {
    DigitsAreDigits(if n < 0 then -n else n);
  }

  /** The first byte of an escaped text followed by its closing quotation mark. */
  lemma EscapedStarts(text: Bytes, x: Bytes)
    ensures Escaped(text) + [34] + x != []
    ensures (Escaped(text) + [34] + x)[0] == (if text == [] then 34 else if text[0] == 34 then 92 else text[0])
  {
  }

  lemma {:induction false} EscapedUnique(s: Bytes, t: Bytes, x: Bytes, y: Bytes)
    requires Escaped(s) + [34] + x == Escaped(t) + [34] + y
    ensures s == t && x == y
  {
    EscapedStarts(s, x);
    EscapedStarts(t, y);
    if s == [] || t == [] {
      assert s == [] && t == [];
      assert Escaped(s) + [34] + x == [34] + x && Escaped(t) + [34] + y == [34] + y;
      Cancel([34], x, y);
    } else {
      var a, b := Escaped(s[1..]) + [34] + x, Escaped(t[1..]) + [34] + y;
      EscapedSteps(s, x);
      EscapedSteps(t, y);
      var whole := Escaped(s) + [34] + x;
      if whole[0] == 92 {
        assert s[0] == whole[1] == t[0];
        Cancel([92, s[0]], a, b);
      } else {
        Cancel([s[0]], a, b);
      }
      EscapedUnique(s[1..], t[1..], x, y);
      assert s == [s[0]] + s[1..] && t == [t[0]] + t[1..];
    }
  }

  lemma EscapedSteps(s: Bytes, x: Bytes)
    requires s != []
    ensures Escaped(s) + [34] + x == (if s[0] == 34 || s[0] == 92 then [92, s[0]] else [s[0]])
      + (Escaped(s[1..]) + [34] + x)
  {
  }

  lemma QuotedUnique(s: Bytes, t: Bytes, x: Bytes, y: Bytes)
    requires Quoted(s) + x == Quoted(t) + y
    ensures s == t && x == y
  {
    assert Quoted(s) + x == [34] + (Escaped(s) + [34] + x);
    assert Quoted(t) + y == [34] + (Escaped(t) + [34] + y);
    Cancel([34], Escaped(s) + [34] + x, Escaped(t) + [34] + y);
    EscapedUnique(s, t, x, y);
  }

  datatype Shape = IsNull | IsTrue | IsFalse | IsNumber | IsText | IsArray | IsObject

  function ShapeOf(v: Value): Shape
    requires !v.Fraction?
  {
    match v
    case Null => IsNull
    case Bool(truth) => if truth then IsTrue else IsFalse
    case Integer(_) => IsNumber
    case Text(_) => IsText
    case Array(_) => IsArray
    case Object(_) => IsObject
  }

  function ShapeAt(b: byte): Shape {
    if b == 110 then IsNull
    else if b == 116 then IsTrue
    else if b == 102 then IsFalse
    else if b == 34 then IsText
    else if b == 91 then IsArray
    else if b == 123 then IsObject
    else IsNumber
  }

  /** The first byte tells what kind of value follows. */
  lemma FirstByte(v: Value, x: Bytes)
    requires Integral(v)
    ensures Flat(v) != [] && !Delimited(Flat(v)) && (Flat(v) + x)[0] == Flat(v)[0]
    ensures ShapeAt(Flat(v)[0]) == ShapeOf(v)
  {
    if v.Integer? {
      SignShows(v.number, x);
    }
  }

  /** A value's bytes, followed by a delimiter, can be read back in one way only. */
  lemma {:induction false} FlatUnique(a: Value, b: Value, x: Bytes, y: Bytes)
    requires Integral(a) && Integral(b) && Delimited(x) && Delimited(y)
    requires Flat(a) + x == Flat(b) + y
    ensures a == b && x == y
    decreases a, 0
  {
    FirstByte(a, x);
    FirstByte(b, y);
    match a
    case Null => Cancel(Flat(a), x, y);
    case Bool(_) => Cancel(Flat(a), x, y);
    case Integer(n) => DecimalUnique(n, b.number, x, y);
    case Text(text) => QuotedUnique(text, b.text, x, y);
    case Array(items) => ItemsUnique(items, b.items, x, y);
    case Object(entries) => MembersUnique(entries, b.entries, x, y);
  }

  lemma {:induction false} ItemsUnique(a: seq<Value>, b: seq<Value>, x: Bytes, y: Bytes)
    requires Integral(Array(a)) && Integral(Array(b)) && Flat(Array(a)) + x == Flat(Array(b)) + y
    ensures a == b && x == y
    decreases a, 1
  {
    var p, q := ItemsAfter(a, x), ItemsAfter(b, y);
    ItemsSplit(a, x);
    ItemsSplit(b, y);
    Cancel([91], p, q);
    if a != [] {
      FirstByte(a[0], MoreItems(a[1..]) + x);
    }
    if b != [] {
      FirstByte(b[0], MoreItems(b[1..]) + y);
    }
    if a == [] {
      Cancel([93], x, y);
    } else {
      FlatUnique(a[0], b[0], MoreItems(a[1..]) + x, MoreItems(b[1..]) + y);
      MoreItemsUnique(a[1..], b[1..], x, y);
      assert a == [a[0]] + a[1..] && b == [b[0]] + b[1..];
    }
  }

  function ItemsAfter(a: seq<Value>, x: Bytes): Bytes {
    if a == [] then [93] + x else Flat(a[0]) + (MoreItems(a[1..]) + x)
  }

  lemma ItemsSplit(a: seq<Value>, x: Bytes)
    ensures Flat(Array(a)) + x == [91] + ItemsAfter(a, x)
  {
    hide MoreItems;
    if a != [] {
      RegroupThree([91], Flat(a[0]), MoreItems(a[1..]), x);
    }
  }

  lemma {:induction false} MoreItemsUnique(a: seq<Value>, b: seq<Value>, x: Bytes, y: Bytes)
    requires Integral(Array(a)) && Integral(Array(b)) && MoreItems(a) + x == MoreItems(b) + y
    ensures a == b && x == y
    decreases a, 1
  {
    assert (MoreItems(a) + x)[0] == (if a == [] then 93 else 44);
    assert (MoreItems(b) + y)[0] == (if b == [] then 93 else 44);
    if a == [] {
      Cancel([93], x, y);
    } else {
      var p, q := MoreItems(a[1..]) + x, MoreItems(b[1..]) + y;
      RegroupThree([44], Flat(a[0]), MoreItems(a[1..]), x);
      RegroupThree([44], Flat(b[0]), MoreItems(b[1..]), y);
      Cancel([44], Flat(a[0]) + p, Flat(b[0]) + q);
      FlatUnique(a[0], b[0], p, q);
      MoreItemsUnique(a[1..], b[1..], x, y);
      assert a == [a[0]] + a[1..] && b == [b[0]] + b[1..];
    }
  }

  lemma MemberSplit(e: Entry, x: Bytes)
    ensures Member(e) + x == Quoted(e.key) + ([58] + (Flat(e.value) + x))
  {
    hide Flat, Quoted;
  }

  lemma {:induction false} MemberUnique(e: Entry, f: Entry, x: Bytes, y: Bytes)
    requires Integral(e.value) && Integral(f.value) && Delimited(x) && Delimited(y)
    requires Member(e) + x == Member(f) + y
    ensures e == f && x == y
    decreases e, 0
  {
    hide Flat, Quoted, Integral, Delimited;
    var p, q := Flat(e.value) + x, Flat(f.value) + y;
    assert Member(e) + x == Quoted(e.key) + ([58] + p) by {
      MemberSplit(e, x);
    }
    assert Member(f) + y == Quoted(f.key) + ([58] + q) by {
      MemberSplit(f, y);
    }
    QuotedUnique(e.key, f.key, [58] + p, [58] + q);
    Cancel([58], p, q);
    FlatUnique(e.value, f.value, x, y);
  }

  lemma {:induction false} MembersUnique(a: seq<Entry>, b: seq<Entry>, x: Bytes, y: Bytes)
    requires Integral(Object(a)) && Integral(Object(b)) && Flat(Object(a)) + x == Flat(Object(b)) + y
    ensures a == b && x == y
    decreases a, 1
  {
    var p, q := MembersAfter(a, x), MembersAfter(b, y);
    MembersSplit(a, x);
    MembersSplit(b, y);
    Cancel([123], p, q);
    assert p[0] == (if a == [] then 125 else 34);
    assert q[0] == (if b == [] then 125 else 34);
    if a == [] {
      Cancel([125], x, y);
    } else {
      MemberUnique(a[0], b[0], MoreMembers(a[1..]) + x, MoreMembers(b[1..]) + y);
      MoreMembersUnique(a[1..], b[1..], x, y);
      assert a == [a[0]] + a[1..] && b == [b[0]] + b[1..];
    }
  }

  function MembersAfter(a: seq<Entry>, x: Bytes): Bytes {
    if a == [] then [125] + x else Member(a[0]) + (MoreMembers(a[1..]) + x)
  }

  lemma MembersSplit(a: seq<Entry>, x: Bytes)
    ensures Flat(Object(a)) + x == [123] + MembersAfter(a, x)
  {
    hide Member, MoreMembers;
    if a != [] {
      RegroupThree([123], Member(a[0]), MoreMembers(a[1..]), x);
    }
  }

  lemma {:induction false} MoreMembersUnique(a: seq<Entry>, b: seq<Entry>, x: Bytes, y: Bytes)
    requires Integral(Object(a)) && Integral(Object(b)) && MoreMembers(a) + x == MoreMembers(b) + y
    ensures a == b && x == y
    decreases a, 1
  {
    assert (MoreMembers(a) + x)[0] == (if a == [] then 125 else 44);
    assert (MoreMembers(b) + y)[0] == (if b == [] then 125 else 44);
    if a == [] {
      Cancel([125], x, y);
    } else {
      var p, q := MoreMembers(a[1..]) + x, MoreMembers(b[1..]) + y;
      RegroupThree([44], Member(a[0]), MoreMembers(a[1..]), x);
      RegroupThree([44], Member(b[0]), MoreMembers(b[1..]), y);
      Cancel([44], Member(a[0]) + p, Member(b[0]) + q);
      MemberUnique(a[0], b[0], p, q);
      MoreMembersUnique(a[1..], b[1..], x, y);
      assert a == [a[0]] + a[1..] && b == [b[0]] + b[1..];
    }
  }

  // ------------------------------------------- equal up to the order of keys

  lemma {:induction false} NormalIntegral(v: Value)
    requires Integral(v)
    ensures Integral(Normal(v))
  {
    match v
    case Array(items) =>
      forall i | 0 <= i < |items| ensures Integral(Normal(items[i])) {
        NormalIntegral(items[i]);
      }
    case Object(entries) =>
      var sorted := Sort(NormalEntries(entries));
      SortKeeps(NormalEntries(entries));
      forall j | 0 <= j < |sorted| ensures Integral(sorted[j].value) {
        assert sorted[j] in multiset(NormalEntries(entries));
        var i :| 0 <= i < |entries| && NormalEntries(entries)[i] == sorted[j];
        NormalIntegral(entries[i].value);
      }
    case _ =>
  }

  lemma {:induction false} NormalMeansSame(a: Value, b: Value)
    requires Normal(a) == Normal(b)
    ensures Same(a, b)
  {
    match a
    case Array(items) =>
      forall i | 0 <= i < |items| ensures Same(items[i], b.items[i]) {
        assert NormalItems(items)[i] == NormalItems(b.items)[i];
        NormalMeansSame(items[i], b.items[i]);
      }
    case Object(entries) =>
      var xs, ys := NormalEntries(entries), NormalEntries(b.entries);
      SortKeeps(xs);
      SortKeeps(ys);
      assert |multiset(xs)| == |multiset(ys)|;
      forall i | 0 <= i < |entries| ensures HasSame(entries[i].key, entries[i].value, b.entries) {
        assert xs[i] in multiset(ys);
        var j :| 0 <= j < |ys| && ys[j] == xs[i];
        NormalMeansSame(entries[i].value, b.entries[j].value);
      }
    case _ =>
  }

  lemma {:induction false} SameMeansNormal(a: Value, b: Value)
    requires DistinctKeys(a) && DistinctKeys(b) && Same(a, b)
    ensures Normal(a) == Normal(b)
  {
    match a
    case Array(items) =>
      forall i | 0 <= i < |items| ensures NormalItems(items)[i] == NormalItems(b.items)[i] {
        SameMeansNormal(items[i], b.items[i]);
      }
      assert NormalItems(items) == NormalItems(b.items);
    case Object(entries) =>
      var xs, ys := NormalEntries(entries), NormalEntries(b.entries);
      forall i | 0 <= i < |xs| ensures xs[i] in ys {
        assert HasSame(entries[i].key, entries[i].value, b.entries);
        var j :| 0 <= j < |ys| && b.entries[j].key == entries[i].key && Same(entries[i].value, b.entries[j].value);
        SameMeansNormal(entries[i].value, b.entries[j].value);
        assert ys[j] == xs[i];
      }
      Rearranged(xs, ys);
      SortedAlike(xs, ys);
    case _ =>
  }

  lemma SortedAlike(xs: seq<Entry>, ys: seq<Entry>)
    requires KeysDiffer(xs) && KeysDiffer(ys) && multiset(xs) == multiset(ys)
    ensures Sort(xs) == Sort(ys)
  {
    SortKeeps(xs);
    SortKeeps(ys);
    SortAscends(xs);
    SortAscends(ys);
    AscendingUnique(Sort(xs), Sort(ys));
  }

  function Without(ys: seq<Entry>, j: nat): seq<Entry>
    requires j < |ys|
  {
    ys[..j] + ys[j + 1..]
  }

  lemma WithoutKeeps(ys: seq<Entry>, j: nat)
    requires j < |ys| && KeysDiffer(ys)
    ensures multiset(ys) == multiset(Without(ys, j)) + multiset{ys[j]}
    ensures KeysDiffer(Without(ys, j)) && |Without(ys, j)| == |ys| - 1
  {
    assert ys == ys[..j] + [ys[j]] + ys[j + 1..];
  }

  lemma StaysWithout(ys: seq<Entry>, j: nat, e: Entry)
    requires j < |ys| && e in ys && e.key != ys[j].key
    ensures e in Without(ys, j)
  {
    var k :| 0 <= k < |ys| && ys[k] == e;
    assert ys[k] == Without(ys, j)[if k < j then k else k - 1];
  }

  /** Lists of equal length without repeats, one inside the other, hold the same entries. */
  lemma {:induction false} Rearranged(xs: seq<Entry>, ys: seq<Entry>)
    requires KeysDiffer(xs) && KeysDiffer(ys) && |xs| == |ys|
    requires forall i :: 0 <= i < |xs| ==> xs[i] in ys
    ensures multiset(xs) == multiset(ys)
  {
    hide Without;
    if xs != [] {
      var j :| 0 <= j < |ys| && ys[j] == xs[0];
      WithoutKeeps(ys, j);
      forall i | 0 <= i < |xs[1..]| ensures xs[1..][i] in Without(ys, j) {
        StaysWithout(ys, j, xs[i + 1]);
      }
      Rearranged(xs[1..], Without(ys, j));
      assert xs == [xs[0]] + xs[1..];
    }
  }

  /** Two documents have the same signed bytes exactly if they differ in member order alone. */
  lemma CanonicalIdentifies(a: Value, b: Value)
    requires Integral(a) && Integral(b) && DistinctKeys(a) && DistinctKeys(b)
    ensures Canonical(a) == Canonical(b) <==> Same(a, b)
  {
    if Canonical(a) == Canonical(b) {
      NormalIntegral(a);
      NormalIntegral(b);
      FlatUnique(Normal(a), Normal(b), [], []);
      NormalMeansSame(a, b);
    }
    if Same(a, b) {
      SameMeansNormal(a, b);
    }
  }

  // --------------------------------------------------------------- the writer

  lemma {:induction false} InsertNormal(e: Entry, sorted: seq<Entry>)
    ensures NormalEntries(Insert(e, sorted)) == Insert(Entry(e.key, Normal(e.value)), NormalEntries(sorted))
  {
    if sorted == [] || !Less(sorted[0].key, e.key) {
    } else {
      InsertNormal(e, sorted[1..]);
      assert NormalEntries(sorted)[1..] == NormalEntries(sorted[1..]);
    }
  }

  /** Sorting looks at keys only, so values may be normalised before or after it. */
  lemma {:induction false} SortNormal(entries: seq<Entry>)
    ensures Sort(NormalEntries(entries)) == NormalEntries(Sort(entries))
  {
    if entries == [] {
      assert NormalEntries(entries) == [];
    } else {
      SortNormal(entries[1..]);
      assert NormalEntries(entries)[1..] == NormalEntries(entries[1..]);
      InsertNormal(entries[0], Sort(entries[1..]));
    }
  }

  method WriteString(text: Bytes, out: Bytes) returns (r: Bytes)
    ensures r == out + Quoted(text)
  {
    r := out + [34];
    var i := 0;
    while i < |text|
      invariant 0 <= i <= |text|
      invariant r + Escaped(text[i..]) == out + [34] + Escaped(text)
    {
      assert text[i..][1..] == text[i + 1..];
      if text[i] == 34 || text[i] == 92 {
        r := r + [92];
      }
      r := r + [text[i]];
      i := i + 1;
    }
    assert r == r + Escaped(text[i..]);
    r := r + [34];
  }

  /** The bytes still to write after `i` of the items, or members, stand in `out`. */
  function ItemsLeft(items: seq<Value>, i: nat): Bytes
    requires i <= |items|
  {
    if i == 0 && items != [] then Flat(items[0]) + MoreItems(items[1..]) else MoreItems(items[i..])
  }

  function MembersLeft(entries: seq<Entry>, i: nat): Bytes
    requires i <= |entries|
  {
    if i == 0 && entries != [] then Member(entries[0]) + MoreMembers(entries[1..]) else MoreMembers(entries[i..])
  }

  /** `write_canonical`: fails on a fraction, and otherwise appends the canonical bytes. */
  method WriteCanonical(v: Value, out: Bytes) returns (r: Option<Bytes>)
    ensures r == if Integral(v) then Some(out + Canonical(v)) else None
    decreases v, 0
  {
    match v
    case Null => r := Some(out + [110, 117, 108, 108]);
    case Bool(truth) => r := Some(out + if truth then [116, 114, 117, 101] else [102, 97, 108, 115, 101]);
    case Integer(number) => r := Some(out + Decimal(number));
    case Fraction => r := None;
    case Text(text) =>
      var bytes := WriteString(text, out);
      r := Some(bytes);
    case Array(items) => r := WriteItems(items, out);
    case Object(entries) => r := WriteMembers(entries, out);
  }

  method WriteItems(items: seq<Value>, out: Bytes) returns (r: Option<Bytes>)
    ensures r == if Integral(Array(items)) then Some(out + Canonical(Array(items))) else None
    decreases items, 1
  {
    ghost var normal := NormalItems(items);
    var bytes := out + [91];
    assert Flat(Array(normal)) == [91] + ItemsLeft(normal, 0);
    for i := 0 to |items|
      invariant bytes + ItemsLeft(normal, i) == out + Flat(Array(normal))
      invariant forall k :: 0 <= k < i ==> Integral(items[k])
    {
      ghost var begun := bytes;
      if i > 0 {
        bytes := bytes + [44];
      }
      var written := WriteCanonical(items[i], bytes);
      if written.None? {
        return None;
      }
      ItemWritten(normal, i, begun);
      bytes := written.value;
    }
    return Some(bytes + [93]);
  }

  lemma ItemWritten(normal: seq<Value>, i: nat, begun: Bytes)
    requires i < |normal|
    ensures begun + ItemsLeft(normal, i) == begun + (if i > 0 then [44] else []) + Flat(normal[i])
      + ItemsLeft(normal, i + 1)
  {
    assert normal[i..][1..] == normal[i + 1..];
  }

  method WriteMember(e: Entry, out: Bytes) returns (r: Option<Bytes>)
    ensures r == if Integral(e.value) then Some(out + Member(Entry(e.key, Normal(e.value)))) else None
    decreases e, 1
  {
    hide Flat, Quoted, Integral, Normal;
    var bytes := WriteString(e.key, out);
    r := WriteCanonical(e.value, bytes + [58]);
    assert bytes + [58] + Flat(Normal(e.value)) == out + (Quoted(e.key) + [58] + Flat(Normal(e.value)));
  }

  method WriteMembers(entries: seq<Entry>, out: Bytes) returns (r: Option<Bytes>)
    ensures r == if Integral(Object(entries)) then Some(out + Canonical(Object(entries))) else None
    decreases entries, 1
  {
    hide Flat, Member, MoreMembers, MembersLeft, Sort;
    var sorted := Sort(entries);
    SortKeeps(entries);
    SortNormal(entries);
    SortedIntegral(entries);
    ghost var normal := NormalEntries(sorted);
    var bytes := out + [123];
    MembersBegin(normal);
    for i := 0 to |sorted|
      invariant bytes + MembersLeft(normal, i) == out + Flat(Object(normal))
      invariant forall k :: 0 <= k < i ==> Integral(sorted[k].value)
    {
      ghost var begun := bytes;
      if i > 0 {
        bytes := bytes + [44];
      }
      assert sorted[i] in multiset(entries);
      ghost var k :| 0 <= k < |entries| && entries[k] == sorted[i];
      var written := WriteMember(sorted[i], bytes);
      if written.None? {
        return None;
      }
      MemberWritten(normal, i, begun);
      bytes := written.value;
    }
    return Some(bytes + [125]);
  }

  lemma MembersBegin(normal: seq<Entry>)
    ensures Flat(Object(normal)) == [123] + MembersLeft(normal, 0)
    ensures MembersLeft(normal, |normal|) == [125]
  {
    hide Member;
  }

  lemma MemberWritten(normal: seq<Entry>, i: nat, begun: Bytes)
    requires i < |normal|
    ensures begun + MembersLeft(normal, i) == begun + (if i > 0 then [44] else []) + Member(normal[i])
      + MembersLeft(normal, i + 1)
  {
    hide Member;
    assert normal[i..][1..] == normal[i + 1..];
  }

  lemma SortedIntegral(entries: seq<Entry>)
    ensures Integral(Object(Sort(entries))) <==> Integral(Object(entries))
  {
    SortKeeps(entries);
    var sorted := Sort(entries);
    forall k | 0 <= k < |sorted| && Integral(Object(entries)) ensures Integral(sorted[k].value) {
      assert sorted[k] in multiset(entries);
    }
    forall k | 0 <= k < |entries| && Integral(Object(sorted)) ensures Integral(entries[k].value) {
      assert entries[k] in multiset(sorted);
    }
  }
}
