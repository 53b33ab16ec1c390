/** What TUF files say, member by member, and what it takes to accept them, said of those members. */
module TufMeaning {
  import opened Basics
  import opened CanonicalJson
  import opened TufRoots
  import opened TufBinding
  import opened TrustUpdate

  // ----------------------------------------------------------------- members

  /** The object has this member, and no earlier one of the name. */
  ghost predicate Has(v: Value, name: string, w: Value) {
    v.Object? && exists i :: 0 <= i < |v.entries| && IsFirst(v.entries, i, Ascii(name)) && v.entries[i].value == w
  }

  predicate IsFirst(entries: seq<Entry>, i: nat, key: Bytes)
    requires i < |entries|
  {
    entries[i].key == key && forall j :: 0 <= j < i ==> entries[j].key != key
  }

  lemma {:induction false} LookupMeans(entries: seq<Entry>, key: Bytes, i: nat)
    requires i < |entries| && IsFirst(entries, i, key)
    ensures Lookup(entries, key) == Some(entries[i].value)
  {
    if i > 0 {
      assert entries[0].key != key;
      assert forall j :: 0 <= j < i - 1 ==> entries[1..][j] == entries[j + 1];
      LookupMeans(entries[1..], key, i - 1);
    }
  }

  lemma {:induction false} LookupFirst(entries: seq<Entry>, key: Bytes) returns (i: nat)
    requires Lookup(entries, key).Some?
    ensures i < |entries| && IsFirst(entries, i, key)
  {
    if entries[0].key == key {
      i := 0;
    } else {
      var k := LookupFirst(entries[1..], key);
      i := k + 1;
      assert forall j :: 1 <= j < i ==> entries[j] == entries[1..][j - 1];
    }
  }

  /** Reading a member finds exactly what the object has under that name. */
  lemma GetMeans(v: Value, name: string, w: Value)
    ensures Get(v, Ascii(name)) == Some(w) <==> Has(v, name, w)
  {
    hide Ascii;
    if Has(v, name, w) {
      var i :| 0 <= i < |v.entries| && IsFirst(v.entries, i, Ascii(name)) && v.entries[i].value == w;
      LookupMeans(v.entries, Ascii(name), i);
    }
    if Get(v, Ascii(name)) == Some(w) {
      var i := LookupFirst(v.entries, Ascii(name));
      LookupMeans(v.entries, Ascii(name), i);
    }
  }

  /** Reading a present member other than null is the same. */
  lemma AtMeans(v: Value, name: string, w: Value)
    requires w != Null
    ensures At(v, Ascii(name)) == w <==> Has(v, name, w)
  {
    GetMeans(v, name, w);
  }

  predicate IsCount(v: Value, n: nat) {
    v == Integer(n) && n < 0x1_0000_0000_0000_0000
  }

  lemma CountMeans(v: Value, n: nat)
    ensures AsU64(v) == Some(n) <==> IsCount(v, n)
  {
  }

  // -------------------------------------------------------------------- roles

  /** The role's own list of key identifiers, without repetition, and its own threshold. */
  ghost predicate IsRole(role: Value, r: RoleKeys) {
    && r.threshold >= 1 && (exists n :: IsCount(n, r.threshold) && Has(role, "threshold", n))
    && (exists list :: IsTexts(list, r.keyIds) && Has(role, "keyids", list))
    && forall i, j :: 0 <= i < j < |r.keyIds| ==> r.keyIds[i] != r.keyIds[j]
  }

  predicate IsTexts(list: Value, texts: seq<Bytes>) {
    && list.Array? && |list.items| == |texts|
    && forall i :: 0 <= i < |texts| ==> list.items[i] == Text(texts[i])
  }

  lemma TextsMean(items: seq<Value>, texts: seq<Bytes>)
    ensures Texts(items) == Some(texts) <==> IsTexts(Array(items), texts)
  {
    if Texts(items).Some? {
      assert IsTexts(Array(items), Texts(items).value);
    }
    if IsTexts(Array(items), texts) {
      assert Texts(items).Some? && Texts(items).value == texts;
    }
  }

  lemma RoleParts(role: Value, r: RoleKeys)
    requires IsRole(role, r)
    ensures AsU64(At(role, Ascii("threshold"))) == Some(r.threshold)
    ensures IsTexts(At(role, Ascii("keyids")), r.keyIds)
  {
    hide Has, Ascii;
    var n :| IsCount(n, r.threshold) && Has(role, "threshold", n);
    var list :| IsTexts(list, r.keyIds) && Has(role, "keyids", list);
    AtMeans(role, "threshold", n);
    AtMeans(role, "keyids", list);
  }

  lemma RoleParsedExactly(role: Value, r: RoleKeys)
    ensures ParseRole(role) == Some(r) <==> IsRole(role, r)
  {
    hide Has, Ascii, At;
    var list, n := At(role, Ascii("keyids")), At(role, Ascii("threshold"));
    if list.Array? {
      TextsMean(list.items, r.keyIds);
    }
    CountMeans(n, r.threshold);
    if IsRole(role, r) {
      RoleParts(role, r);
    }
    if ParseRole(role) == Some(r) {
      AtMeans(role, "keyids", list);
      AtMeans(role, "threshold", n);
      assert IsCount(n, r.threshold) && IsTexts(list, r.keyIds);
    }
  }

  /** The object has this role under this name. */
  ghost predicate HasRole(roles: Value, name: string, r: RoleKeys) {
    exists role :: Has(roles, name, role) && IsRole(role, r)
  }

  lemma NamedRoleExactly(roles: Value, name: string, r: RoleKeys)
    ensures ParseRole(At(roles, Ascii(name))) == Some(r) <==> HasRole(roles, name, r)
  {
    hide IsRole, Ascii;
    var role := At(roles, Ascii(name));
    RoleParsedExactly(role, r);
    if IsRole(role, r) {
      RoleIsObject(role, r);
      AtMeans(roles, name, role);
    }
    if HasRole(roles, name, r) {
      var other :| Has(roles, name, other) && IsRole(other, r);
      GetMeans(roles, name, other);
    }
  }

  lemma RoleIsObject(role: Value, r: RoleKeys)
    requires IsRole(role, r)
    ensures role.Object?
  {
  }

  lemma RolesParsedExactly(roles: Value, r: Roles)
    ensures ParseRoles(roles) == Some(r) <==>
      && HasRole(roles, "root", r.root) && HasRole(roles, "targets", r.targets)
      && HasRole(roles, "snapshot", r.snapshot) && HasRole(roles, "timestamp", r.timestamp)
  {
    hide HasRole, ParseRole, Ascii, At;
    NamedRoleExactly(roles, "root", r.root);
    NamedRoleExactly(roles, "targets", r.targets);
    NamedRoleExactly(roles, "snapshot", r.snapshot);
    NamedRoleExactly(roles, "timestamp", r.timestamp);
  }

  // --------------------------------------------------------------------- keys

  /** A member that describes a supported key whose PEM text decodes to `key`. */
  ghost predicate IsKey(env: Env, v: Value, key: Bytes) {
    && IsSupported(v)
    && exists keyval, public: Bytes :: Has(v, "keyval", keyval) && Has(keyval, "public", Text(public)) &&
         env.pem(public) == Some(key)
  }

  ghost predicate IsSupported(v: Value) {
    Has(v, "keytype", Text(Ascii("ecdsa"))) && Has(v, "scheme", Text(Ascii("ecdsa-sha2-nistp256")))
  }

  lemma SupportedMeans(v: Value)
    ensures Supported(v) <==> IsSupported(v)
  {
    hide Has, Ascii;
    AtMeans(v, "keytype", Text(Ascii("ecdsa")));
    AtMeans(v, "scheme", Text(Ascii("ecdsa-sha2-nistp256")));
  }

  lemma PublicKeyMeans(env: Env, v: Value, key: Bytes)
    requires Supported(v)
    ensures PublicKey(env, v) == Some(key) <==> IsKey(env, v, key)
  {
    hide Has, Ascii, At, Supported, IsSupported;
    SupportedMeans(v);
    var keyval := At(v, Ascii("keyval"));
    var text := At(keyval, Ascii("public"));
    if PublicKey(env, v) == Some(key) {
      AtMeans(keyval, "public", text);
      TextInObject(keyval, text);
      AtMeans(v, "keyval", keyval);
      assert Has(keyval, "public", Text(text.text));
    }
    if IsKey(env, v, key) {
      var k, public: Bytes :| Has(v, "keyval", k) && Has(k, "public", Text(public)) && env.pem(public) == Some(key);
      TextInObject(k, Text(public));
      AtMeans(v, "keyval", k);
      AtMeans(k, "public", Text(public));
    }
  }

  lemma TextInObject(v: Value, text: Value)
    requires Has(v, "public", text)
    ensures v.Object?
  {
  }

  /** Exactly the supported members of the `keys` object, each with its own key. */
  ghost predicate IsKeys(env: Env, keys: Value, r: map<Bytes, Bytes>) {
    && keys.Object?
    && (forall id :: id in r <==> SupportedMember(keys, id))
    && forall id :: id in r ==> exists v :: Get(keys, id) == Some(v) && IsKey(env, v, r[id])
  }

  ghost predicate SupportedMember(keys: Value, id: Bytes) {
    exists v :: Get(keys, id) == Some(v) && IsSupported(v)
  }

  lemma {:induction false} LookupListed(entries: seq<Entry>, key: Bytes)
    ensures Lookup(entries, key).Some? <==> exists e :: e in entries && e.key == key
  {
    if entries != [] {
      LookupListed(entries[1..], key);
      assert entries == [entries[0]] + entries[1..];
    }
  }

  lemma SupportedIdsMean(keys: Value, id: Bytes)
    requires keys.Object?
    ensures id in SupportedIds(keys) <==> SupportedMember(keys, id)
  {
    hide IsSupported, Supported;
    LookupListed(keys.entries, id);
    SupportedMeans(At(keys, id));
    if SupportedMember(keys, id) {
      var v :| Get(keys, id) == Some(v) && IsSupported(v);
      var e :| e in keys.entries && e.key == id;
    }
  }

  lemma KeysParsedExactly(env: Env, keys: Value, r: map<Bytes, Bytes>)
    ensures ParseKeys(env, keys) == Some(r) <==> IsKeys(env, keys, r)
  {
    hide IsKey, PublicKey, SupportedIds, IsSupported, Supported, SupportedMember;
    if keys.Object? {
      forall id
        ensures id in SupportedIds(keys) <==> SupportedMember(keys, id)
        ensures id in SupportedIds(keys) ==> Supported(At(keys, id)) && Get(keys, id) == Some(At(keys, id))
      {
        SupportedIdsMean(keys, id);
        SupportedIdIs(keys, id);
      }
      if ParseKeys(env, keys) == Some(r) {
        KeysForward(env, keys, r);
      }
      if IsKeys(env, keys, r) {
        KeysBackward(env, keys, r);
      }
    }
  }

  lemma SupportedIdIs(keys: Value, id: Bytes)
    requires keys.Object?
    ensures id in SupportedIds(keys) ==> Supported(At(keys, id)) && Get(keys, id) == Some(At(keys, id))
  {
    hide Supported;
    LookupListed(keys.entries, id);
  }

  lemma KeysForward(env: Env, keys: Value, r: map<Bytes, Bytes>)
    requires keys.Object? && ParseKeys(env, keys) == Some(r)
    requires forall id :: id in SupportedIds(keys) <==> SupportedMember(keys, id)
    requires forall id :: id in SupportedIds(keys) ==> Supported(At(keys, id)) && Get(keys, id) == Some(At(keys, id))
    ensures IsKeys(env, keys, r)
  {
    hide IsKey, PublicKey, SupportedIds, Supported, SupportedMember, At, Get;
    forall id | id in r
      ensures exists v :: Get(keys, id) == Some(v) && IsKey(env, v, r[id])
    {
      PublicKeyMeans(env, At(keys, id), r[id]);
    }
  }

  lemma KeysBackward(env: Env, keys: Value, r: map<Bytes, Bytes>)
    requires IsKeys(env, keys, r)
    requires forall id :: id in SupportedIds(keys) <==> SupportedMember(keys, id)
    requires forall id :: id in SupportedIds(keys) ==> Supported(At(keys, id)) && Get(keys, id) == Some(At(keys, id))
    ensures ParseKeys(env, keys) == Some(r)
  {
    hide IsKey, PublicKey, SupportedIds, Supported, SupportedMember, At, Get;
    forall id | id in SupportedIds(keys)
      ensures id in r && PublicKey(env, At(keys, id)) == Some(r[id])
    {
      var v :| Get(keys, id) == Some(v) && IsKey(env, v, r[id]);
      PublicKeyMeans(env, At(keys, id), r[id]);
    }
    assert ParseKeys(env, keys).Some? && ParseKeys(env, keys).value == r;
  }

  // -------------------------------------------------------------------- roots

  /**
   * A root is read exactly as its signed part says: each of the four roles from the member of its
   * own name, the supported keys from their own PEM texts, and the signed version and expiry.
   */
  lemma RootParsedExactly(env: Env, m: Metadata, r: Root)
    ensures ParseRoot(env, m) == Some(r) <==>
      var roles, keys := At(m.signed, Ascii("roles")), At(m.signed, Ascii("keys"));
      && HasRole(roles, "root", r.roles.root) && HasRole(roles, "targets", r.roles.targets)
      && HasRole(roles, "snapshot", r.roles.snapshot) && HasRole(roles, "timestamp", r.roles.timestamp)
      && IsKeys(env, keys, r.keys)
      && r.version == m.version && r.expires == m.expires
  {
    hide HasRole, IsKeys, ParseRoles, ParseKeys, Ascii, At;
    RolesParsedExactly(At(m.signed, Ascii("roles")), r.roles);
    KeysParsedExactly(env, At(m.signed, Ascii("keys")), r.keys);
  }

  function RoleName(kind: Kind): string {
    match kind
    case RootFile => "root"
    case TargetsFile => "targets"
    case SnapshotFile => "snapshot"
    case TimestampFile => "timestamp"
  }

  /** Some of a role's keys, each of another public key and each with a valid signature on the file. */
  ghost predicate SignedBy(env: Env, keys: map<Bytes, Bytes>, ids: seq<Bytes>, m: Metadata, signers: set<Bytes>) {
    forall key :: key in signers ==> exists id :: id in ids && SignsAs(env, keys, m, id, key)
  }

  /** The identifier names this public key, whose signature under that identifier is valid. */
  predicate SignsAs(env: Env, keys: map<Bytes, Bytes>, m: Metadata, id: Bytes, key: Bytes) {
    && id in keys && keys[id] == key
    && id in m.signatures && env.valid(key, m.canonical, m.signatures[id])
  }

  /**
   * A file counts as signed under a root exactly if as many distinct public keys as the role of
   * the file's own name demands, in the root's own listing, have valid signatures on it.
   */
  lemma AuthorisedByName(env: Env, m: Metadata, r: Root, file: Metadata, kind: Kind, role: RoleKeys)
    requires ParseRoot(env, m) == Some(r) && HasRole(At(m.signed, Ascii("roles")), RoleName(kind), role)
    ensures Authorised(env, r, file, kind) <==>
      exists signers :: |signers| >= role.threshold && SignedBy(env, r.keys, role.keyIds, file, signers)
  {
    hide HasRole, IsKeys, ParseRoot, Ascii, At, Authorised;
    RootParsedExactly(env, m, r);
    RoleIsNamed(At(m.signed, Ascii("roles")), r, kind, role);
    AuthorisedExactly(env, r, file, kind);
    if signers :| Endorsed(env, r, file, kind, signers) {
      SignedIsEndorsed(env, r, file, kind, signers);
    }
    if signers :| |signers| >= role.threshold && SignedBy(env, r.keys, role.keyIds, file, signers) {
      SignedIsEndorsed(env, r, file, kind, signers);
      assert Endorsed(env, r, file, kind, signers);
    }
  }

  lemma SignedIsEndorsed(env: Env, r: Root, file: Metadata, kind: Kind, signers: set<Bytes>)
    ensures Endorsed(env, r, file, kind, signers) <==>
      |signers| >= RoleOf(r, kind).threshold && SignedBy(env, r.keys, RoleOf(r, kind).keyIds, file, signers)
  {
    forall key
      ensures HasSigned(env, r, file, kind, key) <==>
        exists id :: id in RoleOf(r, kind).keyIds && SignsAs(env, r.keys, file, id, key)
    {
      if HasSigned(env, r, file, kind, key) {
        var id :| id in RoleOf(r, kind).keyIds && SignsBy(env, r, file, id) && r.keys[id] == key;
        assert SignsAs(env, r.keys, file, id, key);
      }
      if id :| id in RoleOf(r, kind).keyIds && SignsAs(env, r.keys, file, id, key) {
        assert SignsBy(env, r, file, id);
      }
    }
  }

  /** The role that checks a file is the one of the file's own name. */
  lemma RoleIsNamed(roles: Value, r: Root, kind: Kind, role: RoleKeys)
    requires HasRole(roles, "root", r.roles.root) && HasRole(roles, "targets", r.roles.targets)
    requires HasRole(roles, "snapshot", r.roles.snapshot) && HasRole(roles, "timestamp", r.roles.timestamp)
    requires HasRole(roles, RoleName(kind), role)
    ensures RoleOf(r, kind) == role
  {
    hide HasRole, ParseRole, Ascii, At;
    NamedRoleExactly(roles, RoleName(kind), role);
    NamedRoleExactly(roles, RoleName(kind), RoleOf(r, kind));
  }

  // ----------------------------------------------------------------- metadata

  function KeyId(v: Value): Value {
    At(v, Ascii("keyid"))
  }

  /** The entry is a signature by this key identifier. */
  predicate IsSignature(env: Env, v: Value, id: Bytes, signature: Bytes) {
    && KeyId(v) == Text(id)
    && At(v, Ascii("sig")).Text? && env.unhex(At(v, Ascii("sig")).text) == Some(signature)
  }

  predicate SignsIn(env: Env, v: Value, r: map<Bytes, Bytes>) {
    KeyId(v).Text? && KeyId(v).text in r && IsSignature(env, v, KeyId(v).text, r[KeyId(v).text])
  }

  /** Exactly the listed signatures, one per key identifier. */
  ghost predicate IsSignatures(env: Env, items: seq<Value>, r: map<Bytes, Bytes>) {
    && (forall i :: 0 <= i < |items| ==> SignsIn(env, items[i], r))
    && (forall i, j :: 0 <= i < j < |items| ==> KeyId(items[i]) != KeyId(items[j]))
    && (forall id :: id in r ==> exists i :: 0 <= i < |items| && KeyId(items[i]) == Text(id))
  }

  lemma SignaturesSnoc(env: Env, items: seq<Value>, r: map<Bytes, Bytes>)
    requires items != []
    ensures var last := items[|items| - 1];
      Signatures(env, items) == Some(r) <==>
        SignsIn(env, last, r) && Signatures(env, items[..|items| - 1]) == Some(r - {KeyId(last).text})
  {
    hide Ascii, At;
    var last, front := items[|items| - 1], Signatures(env, items[..|items| - 1]);
    var id := KeyId(last);
    if Signatures(env, items) == Some(r) {
      assert id.text in r && r - {id.text} == front.value;
    }
    if SignsIn(env, last, r) && front == Some(r - {id.text}) {
      assert (r - {id.text})[id.text := r[id.text]] == r;
    }
  }

  lemma SignedSnoc(env: Env, front: seq<Value>, last: Value, r: map<Bytes, Bytes>)
    ensures IsSignatures(env, front + [last], r) <==>
      SignsIn(env, last, r) && IsSignatures(env, front, r - {KeyId(last).text})
  {
    hide IsSignature, KeyId;
    var items, n := front + [last], |front|;
    assert items[n] == last && forall i :: 0 <= i < n ==> items[i] == front[i];
    if IsSignatures(env, items, r) {
      SignedLess(env, front, last, r);
    }
    if SignsIn(env, last, r) && IsSignatures(env, front, r - {KeyId(last).text}) {
      SignedMore(env, front, last, r);
    }
  }

  lemma SignedMore(env: Env, front: seq<Value>, last: Value, r: map<Bytes, Bytes>)
    requires SignsIn(env, last, r) && IsSignatures(env, front, r - {KeyId(last).text})
    ensures IsSignatures(env, front + [last], r)
  {
    hide IsSignature, KeyId;
    var items, n, id := front + [last], |front|, KeyId(last).text;
    forall i | 0 <= i < n
      ensures SignsIn(env, items[i], r) && KeyId(items[i]) != KeyId(last)
    {
      assert items[i] == front[i] && SignsIn(env, front[i], r - {id});
    }
    forall x | x in r
      ensures exists i :: 0 <= i < |items| && KeyId(items[i]) == Text(x)
    {
      if x == id {
        assert KeyId(items[n]) == Text(x);
      } else {
        assert x in r - {id};
        var i :| 0 <= i < n && KeyId(front[i]) == Text(x);
        assert items[i] == front[i];
      }
    }
  }

  lemma SignedLess(env: Env, front: seq<Value>, last: Value, r: map<Bytes, Bytes>)
    requires IsSignatures(env, front + [last], r)
    ensures SignsIn(env, last, r) && IsSignatures(env, front, r - {KeyId(last).text})
  {
    hide IsSignature, KeyId;
    var items, n := front + [last], |front|;
    assert items[n] == last && SignsIn(env, items[n], r);
    forall i | 0 <= i < n
      ensures SignsIn(env, front[i], r - {KeyId(last).text})
    {
      assert items[i] == front[i] && SignsIn(env, items[i], r) && KeyId(items[i]) != KeyId(items[n]);
    }
    forall i, j | 0 <= i < j < n
      ensures KeyId(front[i]) != KeyId(front[j])
    {
      assert items[i] == front[i] && items[j] == front[j];
    }
    forall x | x in r - {KeyId(last).text}
      ensures exists i :: 0 <= i < n && KeyId(front[i]) == Text(x)
    {
      var i :| 0 <= i < |items| && KeyId(items[i]) == Text(x);
      assert KeyId(front[i]) == Text(x);
    }
  }

  lemma {:induction false} SignaturesMean(env: Env, items: seq<Value>, r: map<Bytes, Bytes>)
    ensures Signatures(env, items) == Some(r) <==> IsSignatures(env, items, r)
  {
    if items == [] {
      NoSignatures(env, r);
    } else {
      hide IsSignatures, Signatures, SignsIn, KeyId;
      var front, last := items[..|items| - 1], items[|items| - 1];
      assert items == front + [last];
      SignaturesSnoc(env, items, r);
      SignedSnoc(env, front, last, r);
      if SignsIn(env, last, r) {
        SignsInMeans(env, last, r);
        SignaturesMean(env, front, r - {KeyId(last).text});
      }
    }
  }

  lemma SignsInMeans(env: Env, v: Value, r: map<Bytes, Bytes>)
    requires SignsIn(env, v, r)
    ensures KeyId(v).Text?
  {
  }

  lemma NoSignatures(env: Env, r: map<Bytes, Bytes>)
    ensures Signatures(env, []) == Some(r) <==> IsSignatures(env, [], r)
  {
    if IsSignatures(env, [], r) {
      assert r == map[];
    }
  }

  /**
   * A metadata file is read exactly as its members say: a signed object of the type of its name
   * and of a 1.x specification, its positive version, its expiry, no fraction in it, its
   * canonical bytes, and one well-formed signature per key identifier.
   */
  lemma MetadataParsedExactly(env: Env, bytes: Bytes, kind: Kind, m: Metadata)
    ensures Parse(env, bytes, kind) == Some(m) <==>
      && env.json(bytes).Some? && At(env.json(bytes).value, Ascii("signed")) == m.signed && m.signed.Object?
      && At(m.signed, Ascii("_type")) == Text(Ascii(RoleName(kind)))
      && At(m.signed, Ascii("spec_version")).Text? && Ascii("1.") <= At(m.signed, Ascii("spec_version")).text
      && IsCount(At(m.signed, Ascii("version")), m.version) && m.version >= 1
      && At(m.signed, Ascii("expires")).Text? && env.time(At(m.signed, Ascii("expires")).text) == Some(m.expires)
      && Integral(m.signed) && m.canonical == Canonical(m.signed)
      && At(env.json(bytes).value, Ascii("signatures")).Array?
      && IsSignatures(env, At(env.json(bytes).value, Ascii("signatures")).items, m.signatures)
  {
    hide Ascii, At, Signatures, IsSignatures, Canonical, Integral;
    if env.json(bytes).Some? {
      var list := At(env.json(bytes).value, Ascii("signatures"));
      CountMeans(At(m.signed, Ascii("version")), m.version);
      if list.Array? {
        SignaturesMean(env, list.items, m.signatures);
      }
    }
  }

  // ------------------------------------------------------------------ updates

  /** A file follows a root exactly if it is the next version and both roots' own keys signed it. */
  lemma NextExactly(env: Env, current: Root, file: Bytes, next: Root)
    ensures Next(env, current, file) == Some(next) <==>
      exists m :: Parse(env, file, RootFile) == Some(m) && m.version == current.version + 1 &&
        ParseRoot(env, m) == Some(next) &&
        (exists prior :: Endorsed(env, current, m, RootFile, prior)) &&
        (exists own :: Endorsed(env, next, m, RootFile, own))
  {
    hide Parse, ParseRoot, Authorised, Endorsed;
    if Parse(env, file, RootFile).Some? {
      var m := Parse(env, file, RootFile).value;
      AuthorisedExactly(env, current, m, RootFile);
      AuthorisedExactly(env, next, m, RootFile);
    }
  }

  /** Two lower-case hexadecimal digits for each byte, the high one first. */
  lemma {:induction false} HexWritten(bytes: Bytes, i: nat)
    requires i < |bytes|
    ensures |Hex(bytes)| == 2 * |bytes|
    ensures Hex(bytes)[2 * i] == Ascii("0123456789abcdef")[bytes[i] as nat / 16]
    ensures Hex(bytes)[2 * i + 1] == Ascii("0123456789abcdef")[bytes[i] as nat % 16]
  {
    HexLength(bytes);
    if i > 0 {
      HexWritten(bytes[1..], i - 1);
    } else {
      HexDigitIs(bytes[0] as nat / 16);
      HexDigitIs(bytes[0] as nat % 16);
    }
  }

  lemma {:induction false} HexLength(bytes: Bytes)
    ensures |Hex(bytes)| == 2 * |bytes|
  {
    if bytes != [] {
      HexLength(bytes[1..]);
    }
  }

  lemma HexDigitIs(n: nat)
    requires n < 16
    ensures HexDigit(n) == Ascii("0123456789abcdef")[n]
  {
    var digits := "0123456789abcdef";
    assert n < 10 ==> digits[n] as int == 48 + n;
    assert n >= 10 ==> digits[n] as int == 87 + n;
  }

  /** Every digest that is listed, and there is one, is the file's. */
  predicate DigestsHold(env: Env, hashes: Value, file: Bytes) {
    && hashes.Object? && |hashes.entries| >= 1
    && forall i :: 0 <= i < |hashes.entries| ==>
         || hashes.entries[i] == Entry(Ascii("sha256"), Text(Hex(env.sha256(file))))
         || hashes.entries[i] == Entry(Ascii("sha512"), Text(Hex(env.sha512(file))))
  }

  /** Newer metadata lists a file under a version exactly if what it says of length and digests holds of the file. */
  lemma ListedExactly(env: Env, m: Metadata, name: string, file: Bytes, version: nat)
    ensures Listed(env, m, name, file) == Some(version) <==>
      var entry := Get(At(m.signed, Ascii("meta")), Ascii(name));
      && entry.Some? && IsCount(At(entry.value, Ascii("version")), version)
      && (Get(entry.value, Ascii("length")).Some? ==> IsCount(At(entry.value, Ascii("length")), |file|))
      && (Get(entry.value, Ascii("hashes")).Some? ==> DigestsHold(env, At(entry.value, Ascii("hashes")), file))
  {
    hide Ascii, Hex;
  }

  /** The listing gives the file's length and its SHA-256, and every digest it gives is the file's. */
  predicate Describes(env: Env, listing: Value, file: Bytes) {
    && IsCount(At(listing, Ascii("length")), |file|)
    && var hashes := At(listing, Ascii("hashes"));
       && hashes.Object?
       && Get(hashes, Ascii("sha256")).Some?
       && forall i :: 0 <= i < |hashes.entries| ==>
            || hashes.entries[i] == Entry(Ascii("sha256"), Text(Hex(env.sha256(file))))
            || hashes.entries[i] == Entry(Ascii("sha512"), Text(Hex(env.sha512(file))))
  }

  lemma TargetsExactly(env: Env, root: Root, targets: Bytes, file: Bytes, m: Metadata, keys: Bytes)
    ensures Targets(env, root, targets, file) == Some((m, keys)) <==>
      && Parse(env, targets, TargetsFile) == Some(m) && Authorised(env, root, m, TargetsFile)
      && Describes(env, At(At(m.signed, Ascii("targets")), Ascii("trusted_root.json")), file)
      && env.complete(file) == Some(keys)
  {
    hide Ascii, Parse, Authorised, Hex;
  }

  /**
   * A client accepts an update exactly if the roots lead from the compiled one to a newest one
   * whose targets role signed the targets file, that file describes the key list as it is, and
   * the key list is complete. The result names those two versions and that key list.
   */
  lemma UpdateExactly(env: Env, compiled: Root, roots: seq<Bytes>, targets: Bytes, file: Bytes, u: Update)
    ensures Accept(env, compiled, roots, targets, file) == Some(u) <==>
      exists root, m, signers ::
        && Follow(env, compiled, roots) == Some(root)
        && Parse(env, targets, TargetsFile) == Some(m)
        && Endorsed(env, root, m, TargetsFile, signers)
        && Describes(env, At(At(m.signed, Ascii("targets")), Ascii("trusted_root.json")), file)
        && env.complete(file) == Some(u.trustedRoot)
        && u.rootVersion == root.version && u.targetsVersion == m.version
  {
    hide Follow, Targets, Parse, Authorised, Endorsed, Describes, Ascii, At;
    var root := Follow(env, compiled, roots);
    if root.Some? && Parse(env, targets, TargetsFile).Some? {
      var m := Parse(env, targets, TargetsFile).value;
      AuthorisedExactly(env, root.value, m, TargetsFile);
      TargetsExactly(env, root.value, targets, file, m, u.trustedRoot);
      if Targets(env, root.value, targets, file).Some? {
        var t := Targets(env, root.value, targets, file).value;
        TargetsExactly(env, root.value, targets, file, t.0, t.1);
      }
    } else if root.Some? && Targets(env, root.value, targets, file).Some? {
      var t := Targets(env, root.value, targets, file).value;
      TargetsExactly(env, root.value, targets, file, t.0, t.1);
    }
  }
}
