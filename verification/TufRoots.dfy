/** Sigstore's TUF root chain and the trust update it authorises. */
module TufRoots {
  import opened Basics
  import opened CanonicalJson

  // ------------------------------------------------------- reading JSON values

  function Lookup(entries: seq<Entry>, key: Bytes): Option<Value> {
    if entries == [] then None
    else if entries[0].key == key then Some(entries[0].value)
    else Lookup(entries[1..], key)
  }

  /** `value.get(key)`. */
  function Get(v: Value, key: Bytes): Option<Value> {
    if v.Object? then Lookup(v.entries, key) else None
  }

  /** `value[key]`, which reads a missing member as null. */
  function At(v: Value, key: Bytes): Value {
    if Get(v, key).Some? then Get(v, key).value else Null
  }

  function AsText(v: Value): Option<Bytes> {
    if v.Text? then Some(v.text) else None
  }

  function AsU64(v: Value): Option<nat> {
    if v.Integer? && 0 <= v.number < 0x1_0000_0000_0000_0000 then Some(v.number) else None
  }

  predicate TextIs(v: Value, s: string) {
    AsText(v) == Some(Ascii(s))
  }

  // -------------------------------------------------------------- environment

  /** Primitives the verifier calls: times, hexadecimal, PEM, signatures, digests, key lists. */
  datatype Env = Env(
    time: Bytes -> Option<int>,
    unhex: Bytes -> Option<Bytes>,
    pem: Bytes -> Option<Bytes>,
    valid: (Bytes, Bytes, Bytes) -> bool,
    sha256: Bytes -> Bytes,
    sha512: Bytes -> Bytes,
    json: Bytes -> Option<Value>,
    complete: Bytes -> Option<Bytes>)

  /** The JSON parser rejects repeated keys. */
  ghost predicate Strict(env: Env) {
    forall bytes: Bytes :: env.json(bytes).Some? ==> DistinctKeys(env.json(bytes).value)
  }

  // ----------------------------------------------------------------- metadata

  /** The types of TUF metadata, each signed by the role of its name. */
  datatype Kind = RootFile | TargetsFile | SnapshotFile | TimestampFile

  function Name(kind: Kind): Bytes {
    match kind
    case RootFile => Ascii("root")
    case TargetsFile => Ascii("targets")
    case SnapshotFile => Ascii("snapshot")
    case TimestampFile => Ascii("timestamp")
  }

  datatype Metadata = Metadata(
    signed: Value, version: nat, expires: int, canonical: Bytes, signatures: map<Bytes, Bytes>)

  /** Signatures by key ID; a malformed entry or a repeated key ID rejects the file. */
  function Signatures(env: Env, entries: seq<Value>): Option<map<Bytes, Bytes>> {
    if entries == [] then Some(map[])
    else
      var last := entries[|entries| - 1];
      var front := Signatures(env, entries[..|entries| - 1]);
      var keyId, sig := AsText(At(last, Ascii("keyid"))), AsText(At(last, Ascii("sig")));
      if front.None? || keyId.None? || sig.None? || env.unhex(sig.value).None? || keyId.value in front.value then None
      else Some(front.value[keyId.value := env.unhex(sig.value).value])
  }

  predicate StartsWith(text: Bytes, prefix: Bytes) {
    prefix <= text
  }

  /** The signed part, once its type, specification, version, expiry and form are accepted. */
  function SignedPart(env: Env, signed: Value, kind: Kind): Option<(nat, int)> {
    var spec := AsText(At(signed, Ascii("spec_version")));
    var version := AsU64(At(signed, Ascii("version")));
    var expires := AsText(At(signed, Ascii("expires")));
    if !signed.Object? || AsText(At(signed, Ascii("_type"))) != Some(Name(kind)) then None
    else if spec.None? || !StartsWith(spec.value, Ascii("1.")) then None
    else if version.None? || version.value == 0 then None
    else if expires.None? || env.time(expires.value).None? || !Integral(signed) then None
    else Some((version.value, env.time(expires.value).value))
  }

  /** `Metadata::parse`. */
  function Parse(env: Env, bytes: Bytes, kind: Kind): Option<Metadata> {
    var file := env.json(bytes);
    if file.None? then None
    else
      var signed := At(file.value, Ascii("signed"));
      var list := At(file.value, Ascii("signatures"));
      var part := SignedPart(env, signed, kind);
      if part.None? || !list.Array? then None
      else
        var signatures := Signatures(env, list.items);
        if signatures.None? then None
        else Some(Metadata(signed, part.value.0, part.value.1, Canonical(signed), signatures.value))
  }

  // -------------------------------------------------------------------- roots

  datatype RoleKeys = RoleKeys(keyIds: seq<Bytes>, threshold: nat)

  /** The four roles every root must define. */
  datatype Roles = Roles(root: RoleKeys, targets: RoleKeys, snapshot: RoleKeys, timestamp: RoleKeys)

  datatype Root = Root(version: nat, expires: int, keys: map<Bytes, Bytes>, roles: Roles)

  function RoleOf(root: Root, kind: Kind): RoleKeys {
    match kind
    case RootFile => root.roles.root
    case TargetsFile => root.roles.targets
    case SnapshotFile => root.roles.snapshot
    case TimestampFile => root.roles.timestamp
  }

  predicate Supported(key: Value) {
    TextIs(At(key, Ascii("keytype")), "ecdsa") && TextIs(At(key, Ascii("scheme")), "ecdsa-sha2-nistp256")
  }

  function PublicKey(env: Env, key: Value): Option<Bytes> {
    var text := AsText(At(At(key, Ascii("keyval")), Ascii("public")));
    if text.None? then None else env.pem(text.value)
  }

  function SupportedIds(keys: Value): set<Bytes>
    requires keys.Object?
  {
    set e | e in keys.entries && Supported(At(keys, e.key)) :: e.key
  }

  /** The supported keys of the `keys` object; a supported key that does not parse rejects it. */
  function ParseKeys(env: Env, keys: Value): Option<map<Bytes, Bytes>> {
    if !keys.Object? then None
    else
      var ids := SupportedIds(keys);
      if exists id :: id in ids && PublicKey(env, At(keys, id)).None? then None
      else Some(map id | id in ids :: PublicKey(env, At(keys, id)).value)
  }

  function Texts(items: seq<Value>): Option<seq<Bytes>> {
    if exists i :: 0 <= i < |items| && !items[i].Text? then None
    else Some(seq(|items|, i requires 0 <= i < |items| => items[i].text))
  }

  predicate Repeats(ids: seq<Bytes>) {
    exists i, j :: 0 <= i < j < |ids| && ids[i] == ids[j]
  }

  function ParseRole(role: Value): Option<RoleKeys> {
    var list := At(role, Ascii("keyids"));
    var threshold := AsU64(At(role, Ascii("threshold")));
    if !list.Array? || Texts(list.items).None? || Repeats(Texts(list.items).value) then None
    else if threshold.None? || threshold.value == 0 then None
    else Some(RoleKeys(Texts(list.items).value, threshold.value))
  }

  function ParseRoles(roles: Value): Option<Roles> {
    var root := ParseRole(At(roles, Name(RootFile)));
    var targets := ParseRole(At(roles, Name(TargetsFile)));
    var snapshot := ParseRole(At(roles, Name(SnapshotFile)));
    var timestamp := ParseRole(At(roles, Name(TimestampFile)));
    if root.None? || targets.None? || snapshot.None? || timestamp.None? then None
    else Some(Roles(root.value, targets.value, snapshot.value, timestamp.value))
  }

  /** `Root::parse`. */
  function ParseRoot(env: Env, m: Metadata): Option<Root> {
    var keys := ParseKeys(env, At(m.signed, Ascii("keys")));
    var roles := ParseRoles(At(m.signed, Ascii("roles")));
    if keys.None? || roles.None? then None else Some(Root(m.version, m.expires, keys.value, roles.value))
  }

  /** This key ID names a key of the root, and that key's signature is on the metadata. */
  predicate SignsBy(env: Env, root: Root, m: Metadata, id: Bytes) {
    id in root.keys && id in m.signatures && env.valid(root.keys[id], m.canonical, m.signatures[id])
  }

  /** The distinct public keys of a role that signed the metadata. */
  function Signers(env: Env, root: Root, m: Metadata, ids: seq<Bytes>): set<Bytes> {
    set id | id in ids && SignsBy(env, root, m, id) :: root.keys[id]
  }

  /** A threshold of the role's distinct public keys signed the metadata. */
  predicate Authorised(env: Env, root: Root, m: Metadata, kind: Kind) {
    |Signers(env, root, m, RoleOf(root, kind).keyIds)| >= RoleOf(root, kind).threshold
  }

  /** `Root::verify`. */
  method Verify(env: Env, root: Root, m: Metadata, kind: Kind) returns (ok: bool)
    ensures ok <==> Authorised(env, root, m, kind)
  {
    var role := RoleOf(root, kind);
    var signers: set<Bytes> := {};
    for i := 0 to |role.keyIds|
      invariant signers == Signers(env, root, m, role.keyIds[..i])
    {
      var id := role.keyIds[i];
      assert role.keyIds[..i + 1] == role.keyIds[..i] + [id];
      if SignsBy(env, root, m, id) {
        signers := signers + {root.keys[id]};
      }
    }
    assert role.keyIds[..|role.keyIds|] == role.keyIds;
    return |signers| >= role.threshold;
  }

  // -------------------------------------------------------------- root chains

  /** The root that follows `current`, if this file is its successor. */
  function Next(env: Env, current: Root, file: Bytes): Option<Root> {
    var m := Parse(env, file, RootFile);
    if m.None? || m.value.version != current.version + 1 || !Authorised(env, current, m.value, RootFile) then None
    else
      var next := ParseRoot(env, m.value);
      if next.None? || !Authorised(env, next.value, m.value, RootFile) then None else next
  }

  function Follow(env: Env, trusted: Root, files: seq<Bytes>): Option<Root>
    decreases files
  {
    if files == [] then Some(trusted)
    else
      var next := Next(env, trusted, files[0]);
      if next.None? then None else Follow(env, next.value, files[1..])
  }

  /** `newest_root`. */
  method NewestRoot(env: Env, trusted: Root, files: seq<Bytes>) returns (r: Option<Root>)
    ensures r == Follow(env, trusted, files)
  {
    var current := trusted;
    for i := 0 to |files|
      invariant Follow(env, current, files[i..]) == Follow(env, trusted, files)
    {
      assert files[i..][1..] == files[i + 1..];
      var m := Parse(env, files[i], RootFile);
      if m.None? {
        return None;
      }
      if m.value.version != current.version + 1 {
        return None;
      }
      var prior := Verify(env, current, m.value, RootFile);
      if !prior {
        return None;
      }
      var next := ParseRoot(env, m.value);
      if next.None? {
        return None;
      }
      var own := Verify(env, next.value, m.value, RootFile);
      if !own {
        return None;
      }
      current := next.value;
    }
    return Some(current);
  }

  /** Handing over the list in parts changes nothing. */
  lemma {:induction false} FollowSplits(env: Env, trusted: Root, a: seq<Bytes>, b: seq<Bytes>)
    ensures Follow(env, trusted, a + b)
      == (if Follow(env, trusted, a).None? then None else Follow(env, Follow(env, trusted, a).value, b))
    decreases a
  {
    hide Next;
    if a == [] {
      assert a + b == b;
    } else {
      assert (a + b)[1..] == a[1..] + b;
      if Next(env, trusted, a[0]).Some? {
        FollowSplits(env, Next(env, trusted, a[0]).value, a[1..], b);
      }
    }
  }

  lemma {:induction false} FollowCounts(env: Env, trusted: Root, files: seq<Bytes>)
    requires Follow(env, trusted, files).Some?
    ensures Follow(env, trusted, files).value.version == trusted.version + |files|
    decreases files
  {
    hide Authorised, ParseRoles, ParseKeys, Parse;
    if files != [] {
      FollowCounts(env, Next(env, trusted, files[0]).value, files[1..]);
    }
  }

  /** A threshold of a role's own distinct public keys, each with a valid signature. */
  ghost predicate Endorsed(env: Env, root: Root, m: Metadata, kind: Kind, signers: set<Bytes>) {
    && |signers| >= RoleOf(root, kind).threshold
    && forall key :: key in signers ==> HasSigned(env, root, m, kind, key)
  }

  ghost predicate HasSigned(env: Env, root: Root, m: Metadata, kind: Kind, key: Bytes) {
    exists id :: id in RoleOf(root, kind).keyIds && SignsBy(env, root, m, id) && root.keys[id] == key
  }

  lemma AuthorisedMeans(env: Env, root: Root, m: Metadata, kind: Kind) returns (signers: set<Bytes>)
    requires Authorised(env, root, m, kind)
    ensures Endorsed(env, root, m, kind, signers)
  {
    signers := Signers(env, root, m, RoleOf(root, kind).keyIds);
  }

  /** The count is of distinct public keys: no smaller evidence passes, and none this large fails. */
  lemma AuthorisedExactly(env: Env, root: Root, m: Metadata, kind: Kind)
    ensures Authorised(env, root, m, kind) <==> exists signers :: Endorsed(env, root, m, kind, signers)
  {
    if Authorised(env, root, m, kind) {
      var signers := AuthorisedMeans(env, root, m, kind);
    }
    if signers :| Endorsed(env, root, m, kind, signers) {
      var all := Signers(env, root, m, RoleOf(root, kind).keyIds);
      assert signers <= all;
      SubsetSize(signers, all);
    }
  }

  /** Every file of an accepted list is a successor that the old root and the new one both signed. */
  lemma EveryHopEndorsed(env: Env, trusted: Root, files: seq<Bytes>, i: nat)
    returns (before: Root, m: Metadata, after: Root, prior: set<Bytes>, own: set<Bytes>)
    requires Follow(env, trusted, files).Some? && i < |files|
    ensures Follow(env, trusted, files[..i]) == Some(before)
    ensures Parse(env, files[i], RootFile) == Some(m) && ParseRoot(env, m) == Some(after)
    ensures before.version == trusted.version + i && after.version == before.version + 1
    ensures Endorsed(env, before, m, RootFile, prior) && Endorsed(env, after, m, RootFile, own)
    ensures Follow(env, after, files[i + 1..]) == Follow(env, trusted, files)
  {
    hide Authorised, ParseRoles, ParseKeys, Parse;
    assert files == files[..i] + files[i..];
    FollowSplits(env, trusted, files[..i], files[i..]);
    before := Follow(env, trusted, files[..i]).value;
    FollowCounts(env, trusted, files[..i]);
    m := Parse(env, files[i], RootFile).value;
    after := Next(env, before, files[i]).value;
    assert files[i..][1..] == files[i + 1..];
    prior := AuthorisedMeans(env, before, m, RootFile);
    own := AuthorisedMeans(env, after, m, RootFile);
  }

  // -------------------------------------------- the skipping that is documented

  /** A root file of a version that the trusted root has or has passed. */
  predicate Old(env: Env, trusted: Root, file: Bytes) {
    var m := Parse(env, file, RootFile);
    m.Some? && m.value.version <= trusted.version
  }

  /** The list without the old root files it starts with. */
  function Skipped(env: Env, trusted: Root, files: seq<Bytes>): seq<Bytes> {
    if files != [] && Old(env, trusted, files[0]) then Skipped(env, trusted, files[1..]) else files
  }

  /** What the documentation promises: old versions are skipped, the rest is followed. */
  function Documented(env: Env, trusted: Root, files: seq<Bytes>): Option<Root> {
    Follow(env, trusted, Skipped(env, trusted, files))
  }

  lemma OldHasNoNext(env: Env, trusted: Root, file: Bytes)
    requires Old(env, trusted, file)
    ensures Next(env, trusted, file) == None
  {
    hide Authorised, ParseRoot, Parse;
  }

  lemma NextIsOld(env: Env, trusted: Root, file: Bytes, later: Root)
    requires Next(env, trusted, file).Some? && trusted.version < later.version
    ensures Next(env, trusted, file).value.version == trusted.version + 1 && Old(env, later, file)
  {
    hide Authorised, ParseKeys, ParseRoles, Parse;
  }

  lemma {:induction false} SkippedShortens(env: Env, trusted: Root, files: seq<Bytes>)
    ensures |Skipped(env, trusted, files)| <= |files|
    ensures Skipped(env, trusted, files) == files <==> files == [] || !Old(env, trusted, files[0])
  {
    hide Old;
    if files != [] && Old(env, trusted, files[0]) {
      SkippedShortens(env, trusted, files[1..]);
    }
  }

  /** The code keeps the promise exactly for the lists that hold nothing to skip. */
  lemma SkippingExactly(env: Env, trusted: Root, files: seq<Bytes>)
    ensures Follow(env, trusted, files).Some?
       <==> Documented(env, trusted, files).Some? && Skipped(env, trusted, files) == files
    ensures Follow(env, trusted, files) != Documented(env, trusted, files)
       <==> files != [] && Old(env, trusted, files[0]) && Documented(env, trusted, files).Some?
  {
    hide Next, Old;
    SkippedShortens(env, trusted, files);
    if files != [] && Old(env, trusted, files[0]) {
      OldHasNoNext(env, trusted, files[0]);
    }
  }

  /** The root files on the way to a root are old to a verifier compiled with that root. */
  lemma {:induction false} FollowedIsOld(env: Env, trusted: Root, a: seq<Bytes>, later: Root, b: seq<Bytes>)
    requires Follow(env, trusted, a).Some? && trusted.version + |a| <= later.version
    ensures Skipped(env, later, a + b) == Skipped(env, later, b)
    decreases a
  {
    hide Next, Old;
    if a == [] {
      assert a + b == b;
    } else {
      NextIsOld(env, trusted, a[0], later);
      assert (a + b)[1..] == a[1..] + b;
      FollowedIsOld(env, Next(env, trusted, a[0]).value, a[1..], later, b);
    }
  }

  /**
   * Where the promise fails: the list that brings one verifier to a later root, and on, ought to
   * serve a verifier compiled with that later root. It is refused there.
   */
  lemma LaterVerifierRefuses(env: Env, trusted: Root, later: Root, a: seq<Bytes>, b: seq<Bytes>)
    requires a != [] && Follow(env, trusted, a) == Some(later) && Follow(env, trusted, a + b).Some?
    ensures Documented(env, later, a + b) == Follow(env, trusted, a + b)
    ensures Follow(env, later, a + b) == None
  {
    hide Next, Old;
    FollowCounts(env, trusted, a);
    FollowSplits(env, trusted, a, b);
    FollowedIsOld(env, trusted, a, later, b);
    SkippingExactly(env, later, b);
    NextIsOld(env, trusted, a[0], later);
    SkippingExactly(env, later, a + b);
  }

  /** One non-empty list serves verifiers of one compiled version only. */
  lemma OneListOneVersion(env: Env, a: Root, b: Root, files: seq<Bytes>)
    requires files != [] && Follow(env, a, files).Some? && Follow(env, b, files).Some?
    ensures a.version == b.version && Follow(env, a, files) == Follow(env, b, files)
  {
    hide Authorised, ParseRoles, ParseKeys, Parse;
    assert Next(env, a, files[0]) == Next(env, b, files[0]);
  }
}
