/** A signature over canonical bytes fixes everything the verifier reads from a root. */
module TufBinding {
  import opened Basics
  import opened CanonicalJson
  import opened TufRoots

  /** The same document, written in two member orders. */
  ghost predicate Alike(a: Value, b: Value) {
    DistinctKeys(a) && DistinctKeys(b) && Same(a, b) && Same(b, a)
  }

  lemma AlikeFrom(a: Value, b: Value)
    requires DistinctKeys(a) && DistinctKeys(b) && Same(a, b)
    ensures Alike(a, b)
  {
    SameMeansNormal(a, b);
    NormalMeansSame(b, a);
  }

  lemma {:induction false} LookupFinds(entries: seq<Entry>, i: nat)
    requires KeysDiffer(entries) && i < |entries|
    ensures Lookup(entries, entries[i].key) == Some(entries[i].value)
  {
    if i > 0 {
      LookupFinds(entries[1..], i - 1);
    }
  }

  lemma {:induction false} LookupIn(entries: seq<Entry>, key: Bytes) returns (i: nat)
    requires Lookup(entries, key).Some?
    ensures i < |entries| && entries[i] == Entry(key, Lookup(entries, key).value)
  {
    if entries[0].key == key {
      i := 0;
    } else {
      i := LookupIn(entries[1..], key);
      i := i + 1;
    }
  }

  /** A member of one version of the document is, alike, a member of the other. */
  lemma GetAcross(a: Value, b: Value, key: Bytes)
    requires Alike(a, b) && Get(a, key).Some?
    ensures Get(b, key).Some? && Alike(Get(a, key).value, Get(b, key).value)
  {
    var i := LookupIn(a.entries, key);
    assert HasSame(a.entries[i].key, a.entries[i].value, b.entries);
    var j :| 0 <= j < |b.entries| && b.entries[j].key == key && Same(a.entries[i].value, b.entries[j].value);
    LookupFinds(b.entries, j);
    AlikeFrom(a.entries[i].value, b.entries[j].value);
  }

  lemma AtAlike(a: Value, b: Value, key: Bytes)
    requires Alike(a, b)
    ensures Alike(At(a, key), At(b, key))
    ensures Get(a, key).Some? <==> Get(b, key).Some?
  {
    if Get(a, key).Some? {
      GetAcross(a, b, key);
    } else if Get(b, key).Some? {
      GetAcross(b, a, key);
    }
  }

  lemma ScalarsAlike(a: Value, b: Value)
    requires Alike(a, b)
    ensures AsText(a) == AsText(b) && AsU64(a) == AsU64(b) && (a.Object? <==> b.Object?) && (a.Array? <==> b.Array?)
  {
  }

  lemma FieldAlike(a: Value, b: Value, key: Bytes)
    requires Alike(a, b)
    ensures AsText(At(a, key)) == AsText(At(b, key)) && AsU64(At(a, key)) == AsU64(At(b, key))
  {
    AtAlike(a, b, key);
    ScalarsAlike(At(a, key), At(b, key));
  }

  lemma SupportedAlike(a: Value, b: Value)
    requires Alike(a, b)
    ensures Supported(a) <==> Supported(b)
  {
    FieldAlike(a, b, Ascii("keytype"));
    FieldAlike(a, b, Ascii("scheme"));
  }

  lemma PublicKeyAlike(env: Env, a: Value, b: Value)
    requires Alike(a, b)
    ensures PublicKey(env, a) == PublicKey(env, b)
  {
    AtAlike(a, b, Ascii("keyval"));
    FieldAlike(At(a, Ascii("keyval")), At(b, Ascii("keyval")), Ascii("public"));
  }

  lemma IdsAcross(a: Value, b: Value)
    requires Alike(a, b) && a.Object? && b.Object?
    ensures SupportedIds(a) <= SupportedIds(b)
  {
    forall id | id in SupportedIds(a) ensures id in SupportedIds(b) {
      var e :| e in a.entries && Supported(At(a, e.key)) && e.key == id;
      var i :| 0 <= i < |a.entries| && a.entries[i] == e;
      LookupFinds(a.entries, i);
      GetAcross(a, b, id);
      SupportedAlike(At(a, id), At(b, id));
      var j := LookupIn(b.entries, id);
      assert b.entries[j] in b.entries;
    }
  }

  lemma KeysAlike(env: Env, a: Value, b: Value)
    requires Alike(a, b)
    ensures ParseKeys(env, a) == ParseKeys(env, b)
  {
    ScalarsAlike(a, b);
    if a.Object? {
      IdsAcross(a, b);
      IdsAcross(b, a);
      assert SupportedIds(a) == SupportedIds(b);
      forall id | id in SupportedIds(a) ensures PublicKey(env, At(a, id)) == PublicKey(env, At(b, id)) {
        AtAlike(a, b, id);
        PublicKeyAlike(env, At(a, id), At(b, id));
      }
      KeysFrom(env, a, b);
    }
  }

  lemma KeysFrom(env: Env, a: Value, b: Value)
    requires a.Object? && b.Object? && SupportedIds(a) == SupportedIds(b)
    requires forall id :: id in SupportedIds(a) ==> PublicKey(env, At(a, id)) == PublicKey(env, At(b, id))
    ensures ParseKeys(env, a) == ParseKeys(env, b)
  {
    hide PublicKey, Supported;
    var p, q := ParseKeys(env, a), ParseKeys(env, b);
    if p.Some? {
      assert p.value == q.value;
    }
  }

  lemma RoleAlike(a: Value, b: Value)
    requires Alike(a, b)
    ensures ParseRole(a) == ParseRole(b)
  {
    FieldAlike(a, b, Ascii("threshold"));
    AtAlike(a, b, Ascii("keyids"));
    var xs, ys := At(a, Ascii("keyids")), At(b, Ascii("keyids"));
    ScalarsAlike(xs, ys);
    if xs.Array? {
      TextsAlike(xs.items, ys.items);
    }
  }

  lemma TextsAlike(xs: seq<Value>, ys: seq<Value>)
    requires Same(Array(xs), Array(ys))
    ensures Texts(xs) == Texts(ys)
  {
    if Texts(xs).Some? {
      assert forall i :: 0 <= i < |xs| ==> Same(xs[i], ys[i]);
      assert Texts(xs).value == Texts(ys).value;
    } else {
      var i :| 0 <= i < |xs| && !xs[i].Text?;
      assert Same(xs[i], ys[i]);
    }
  }

  lemma RolesAlike(a: Value, b: Value)
    requires Alike(a, b)
    ensures ParseRoles(a) == ParseRoles(b)
  {
    hide Name, ParseRole, At;
    RoleAtAlike(a, b, RootFile);
    RoleAtAlike(a, b, TargetsFile);
    RoleAtAlike(a, b, SnapshotFile);
    RoleAtAlike(a, b, TimestampFile);
  }

  lemma RoleAtAlike(a: Value, b: Value, kind: Kind)
    requires Alike(a, b)
    ensures ParseRole(At(a, Name(kind))) == ParseRole(At(b, Name(kind)))
  {
    AtAlike(a, b, Name(kind));
    RoleAlike(At(a, Name(kind)), At(b, Name(kind)));
  }

  lemma SignedPartAlike(env: Env, a: Value, b: Value, kind: Kind)
    requires Alike(a, b) && SignedPart(env, a, kind).Some? && Integral(b)
    ensures SignedPart(env, b, kind) == SignedPart(env, a, kind)
  {
    FieldAlike(a, b, Ascii("_type"));
    FieldAlike(a, b, Ascii("spec_version"));
    FieldAlike(a, b, Ascii("version"));
    FieldAlike(a, b, Ascii("expires"));
    ScalarsAlike(a, b);
  }

  /** Files with the same signed bytes give the same version, expiry and root. */
  lemma SignedBytesFixRoot(env: Env, x: Bytes, y: Bytes, kind: Kind, m: Metadata, n: Metadata)
    requires Strict(env) && Parse(env, x, kind) == Some(m) && Parse(env, y, kind) == Some(n)
    requires m.canonical == n.canonical
    ensures m.version == n.version && m.expires == n.expires && ParseRoot(env, m) == ParseRoot(env, n)
  {
    SignedDistinct(env, x, kind, m);
    SignedDistinct(env, y, kind, n);
    CanonicalIdentifies(m.signed, n.signed);
    AlikeFrom(m.signed, n.signed);
    SignedPartAlike(env, m.signed, n.signed, kind);
    AtAlike(m.signed, n.signed, Ascii("keys"));
    AtAlike(m.signed, n.signed, Ascii("roles"));
    KeysAlike(env, At(m.signed, Ascii("keys")), At(n.signed, Ascii("keys")));
    RolesAlike(At(m.signed, Ascii("roles")), At(n.signed, Ascii("roles")));
  }

  lemma SignedDistinct(env: Env, x: Bytes, kind: Kind, m: Metadata)
    requires Strict(env) && Parse(env, x, kind) == Some(m)
    ensures DistinctKeys(m.signed) && Integral(m.signed) && m.canonical == Canonical(m.signed)
    ensures SignedPart(env, m.signed, kind) == Some((m.version, m.expires))
  {
    var file := env.json(x).value;
    if Get(file, Ascii("signed")).Some? {
      var i := LookupIn(file.entries, Ascii("signed"));
    }
  }
}
