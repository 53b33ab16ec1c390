/** A concrete repository of roots, and a list that the documentation accepts and the code refuses. */
module TufExample {
  import opened Basics
  import opened CanonicalJson
  import opened TufRoots
  import opened TufBinding

  // ------------------------------------------------------------ the documents

  function Pair(name: string, value: Value): Entry {
    Entry(Ascii(name), value)
  }

  const PUBLIC_KEY: string := "-----BEGIN PUBLIC KEY-----\nAQ==\n-----END PUBLIC KEY-----\n"
  const EXPIRES: string := "2040-01-01T00:00:00Z"

  /** The same moment in seconds. */
  const EXPIRY: int := 2_208_988_800

  function KeyId(): Bytes { Ascii("07") }

  function Key(): Value {
    Object([Pair("keytype", Text(Ascii("ecdsa"))), Pair("scheme", Text(Ascii("ecdsa-sha2-nistp256"))),
            Pair("keyval", Object([Pair("public", Text(Ascii(PUBLIC_KEY)))]))])
  }

  function Keys(): Value {
    Object([Entry(KeyId(), Key())])
  }

  function OtherId(): Bytes { Ascii("08") }

  /** The four roles have different keys and thresholds. */
  function RoleKeysOf(kind: Kind): RoleKeys {
    match kind
    case RootFile => RoleKeys([KeyId()], 1)
    case TargetsFile => RoleKeys([KeyId(), OtherId()], 2)
    case SnapshotFile => RoleKeys([OtherId()], 1)
    case TimestampFile => RoleKeys([OtherId(), KeyId()], 1)
  }

  function Role(r: RoleKeys): Value {
    Object([Pair("keyids", Array(Each(id => Text(id), r.keyIds))), Pair("threshold", Integer(r.threshold))])
  }

  function RolesOf(): Value {
    Object([Pair("root", Role(RoleKeysOf(RootFile))), Pair("targets", Role(RoleKeysOf(TargetsFile))),
            Pair("snapshot", Role(RoleKeysOf(SnapshotFile))), Pair("timestamp", Role(RoleKeysOf(TimestampFile)))])
  }

  /** The signed part of root `version`; every version has the same key and roles. */
  function Signed(version: nat): Value {
    Object([Pair("_type", Text(Ascii("root"))), Pair("spec_version", Text(Ascii("1.0"))),
            Pair("version", Integer(version)), Pair("expires", Text(Ascii(EXPIRES))),
            Pair("keys", Keys()), Pair("roles", RolesOf())])
  }

  /** The signature of each of the two versions, in hexadecimal and in bytes. */
  function Hex(version: nat): Bytes {
    if version == 2 then Ascii("02") else Ascii("03")
  }

  function SignatureOf(version: nat): Bytes {
    if version == 2 then [2] else [3]
  }

  function Signature(version: nat): Value {
    Object([Pair("keyid", Text(KeyId())), Pair("sig", Text(Hex(version)))])
  }

  function Document(version: nat): Value {
    Object([Pair("signed", Signed(version)), Pair("signatures", Array([Signature(version)]))])
  }

  /** The file of a root: its document, written out. */
  function File(version: nat): Bytes {
    Canonical(Document(version))
  }

  /** The key signed this version's signed part, with this signature. */
  predicate Signs(message: Bytes, signature: Bytes, version: nat) {
    message == Canonical(Signed(version)) && signature == SignatureOf(version)
  }

  /** Two files, one key and its two signatures; nothing else parses or is valid. */
  function Repository(): Env {
    Env(b => if b == Ascii(EXPIRES) then Some(EXPIRY) else None,
        b => if b == Hex(2) then Some(SignatureOf(2)) else if b == Hex(3) then Some(SignatureOf(3)) else None,
        b => if b == Ascii(PUBLIC_KEY) then Some([1]) else None,
        (key, message, signature) => key == [1] && (Signs(message, signature, 2) || Signs(message, signature, 3)),
        b => b, b => b,
        b => if b == File(2) then Some(Document(2)) else if b == File(3) then Some(Document(3)) else None,
        b => Some(b))
  }

  function RootOf(version: nat): Root {
    Root(version, EXPIRY, map[KeyId() := [1]],
         Roles(RoleKeysOf(RootFile), RoleKeysOf(TargetsFile), RoleKeysOf(SnapshotFile), RoleKeysOf(TimestampFile)))
  }

  // ------------------------------------------------------------ reading them

  lemma NamesDiffer(a: string, b: string, i: nat)
    requires i < |a| && i < |b| && a[i] as int % 256 != b[i] as int % 256
    ensures Ascii(a) != Ascii(b)
  {
    assert Ascii(a)[i] != Ascii(b)[i];
  }

  lemma KeyFields()
    ensures At(Key(), Ascii("keytype")) == Text(Ascii("ecdsa"))
    ensures At(Key(), Ascii("scheme")) == Text(Ascii("ecdsa-sha2-nistp256"))
    ensures At(At(Key(), Ascii("keyval")), Ascii("public")) == Text(Ascii(PUBLIC_KEY))
  {
    var entries := Key().entries;
    NamesDiffer("scheme", "keyval", 0);
    assert KeysDiffer(entries);
    LookupFinds(entries, 0);
    LookupFinds(entries, 1);
    LookupFinds(entries, 2);
    LookupFinds(entries[2].value.entries, 0);
  }

  lemma ReadPem(env: Env)
    requires env == Repository()
    ensures env.pem(Ascii(PUBLIC_KEY)) == Some([1])
  {
  }

  lemma ReadKey(env: Env)
    requires env == Repository()
    ensures Supported(Key()) && PublicKey(env, Key()) == Some([1])
  {
    hide Key, At, Repository;
    KeyFields();
    ReadPem(env);
  }

  lemma ReadKeys(env: Env)
    requires env == Repository()
    ensures ParseKeys(env, Keys()) == Some(map[KeyId() := [1]])
  {
    hide Key, KeyId, PublicKey, Supported, Repository;
    ReadKey(env);
    LookupFinds(Keys().entries, 0);
    assert SupportedIds(Keys()) == {KeyId()} by {
      assert Keys().entries[0] in Keys().entries;
    }
    assert ParseKeys(env, Keys()).value == map[KeyId() := [1]];
  }

  lemma ReadRole(r: RoleKeys)
    requires r.threshold == 1 || r.threshold == 2
    requires forall i, j :: 0 <= i < j < |r.keyIds| ==> r.keyIds[i] != r.keyIds[j]
    ensures ParseRole(Role(r)) == Some(r)
  {
    var entries := Role(r).entries;
    LookupFinds(entries, 0);
    LookupFinds(entries, 1);
    assert Texts(entries[0].value.items).value == r.keyIds;
  }

  lemma ReadRoles()
    ensures ParseRoles(RolesOf()) == Some(RootOf(0).roles)
  {
    hide Role, ParseRole, KeyId, OtherId;
    IdsDiffer();
    ReadRole(RoleKeysOf(RootFile));
    ReadRole(RoleKeysOf(TargetsFile));
    ReadRole(RoleKeysOf(SnapshotFile));
    ReadRole(RoleKeysOf(TimestampFile));
    var entries := RolesOf().entries;
    LookupFinds(entries, 0);
    LookupFinds(entries, 1);
    LookupFinds(entries, 2);
    LookupFinds(entries, 3);
  }

  lemma IdsDiffer()
    ensures KeyId() != OtherId()
  {
    NamesDiffer("07", "08", 1);
  }

  lemma SignedKeysDiffer(version: nat)
    ensures KeysDiffer(Signed(version).entries)
  {
    NamesDiffer("version", "expires", 0);
    NamesDiffer("_type", "roles", 0);
  }

  lemma SignedFields(version: nat)
    ensures At(Signed(version), Ascii("_type")) == Text(Ascii("root"))
    ensures At(Signed(version), Ascii("spec_version")) == Text(Ascii("1.0"))
    ensures At(Signed(version), Ascii("version")) == Integer(version)
    ensures At(Signed(version), Ascii("expires")) == Text(Ascii(EXPIRES))
    ensures At(Signed(version), Ascii("keys")) == Keys()
    ensures At(Signed(version), Ascii("roles")) == RolesOf()
  {
    hide Keys, RolesOf;
    var entries := Signed(version).entries;
    SignedKeysDiffer(version);
    LookupFinds(entries, 0);
    LookupFinds(entries, 1);
    LookupFinds(entries, 2);
    LookupFinds(entries, 3);
    LookupFinds(entries, 4);
    LookupFinds(entries, 5);
  }

  lemma ReadExpiry(env: Env)
    requires env == Repository()
    ensures env.time(Ascii(EXPIRES)) == Some(EXPIRY)
  {
  }

  lemma ReadSigned(env: Env, version: nat)
    requires env == Repository() && 0 < version < 0x1_0000_0000_0000_0000
    ensures SignedPart(env, Signed(version), RootFile) == Some((version, EXPIRY))
  {
    hide Keys, RolesOf, At, Repository, Integral;
    SignedFields(version);
    assert Ascii("1.") == Ascii("1.0")[..2];
    SignedIntegral(version);
    ReadExpiry(env);
  }

  lemma RolePlain(r: RoleKeys)
    ensures Integral(Role(r)) && DistinctKeys(Role(r))
  {
  }

  lemma RolesPlain()
    ensures Integral(RolesOf()) && DistinctKeys(RolesOf())
  {
    hide Role;
    RolePlain(RoleKeysOf(RootFile));
    RolePlain(RoleKeysOf(TargetsFile));
    RolePlain(RoleKeysOf(SnapshotFile));
    RolePlain(RoleKeysOf(TimestampFile));
  }

  lemma SignedIntegral(version: nat)
    ensures Integral(Signed(version))
  {
    hide RolesOf;
    RolesPlain();
    assert Integral(Keys());
  }

  lemma ReadHex(env: Env, version: nat)
    requires env == Repository() && (version == 2 || version == 3)
    ensures env.unhex(Hex(version)) == Some(SignatureOf(version))
  {
    NamesDiffer("02", "03", 1);
  }

  lemma ReadSignatures(env: Env, version: nat)
    requires env == Repository() && (version == 2 || version == 3)
    ensures Signatures(env, [Signature(version)]) == Some(map[KeyId() := SignatureOf(version)])
  {
    hide KeyId, Hex, SignatureOf, Repository;
    var entries := Signature(version).entries;
    LookupFinds(entries, 0);
    LookupFinds(entries, 1);
    ReadHex(env, version);
    assert [Signature(version)][..0] == [];
    assert Signatures(env, []) == Some(map[]);
  }

  // --------------------------------------------------------- telling them apart

  lemma KeysRepeatNothing()
    ensures DistinctKeys(Keys())
  {
    hide KeyId;
    NamesDiffer("scheme", "keyval", 0);
    assert DistinctKeys(Key().entries[2].value);
    assert DistinctKeys(Key());
  }

  lemma SignedRepeatsNothing(version: nat)
    ensures DistinctKeys(Signed(version))
  {
    hide Keys, RolesOf;
    KeysRepeatNothing();
    SignedKeysDiffer(version);
    RolesPlain();
  }

  lemma DocumentRepeatsNothing(version: nat)
    ensures DistinctKeys(Document(version)) && Integral(Document(version))
  {
    hide Signed, KeyId, Hex;
    SignedRepeatsNothing(version);
    SignedIntegral(version);
    assert DistinctKeys(Signature(version)) && Integral(Signature(version));
    assert DistinctKeys(Array([Signature(version)])) && Integral(Array([Signature(version)]));
  }

  lemma DocumentFields(version: nat)
    ensures At(Document(version), Ascii("signed")) == Signed(version)
    ensures At(Document(version), Ascii("signatures")) == Array([Signature(version)])
  {
    hide Signed, Signature;
    LookupFinds(Document(version).entries, 0);
    LookupFinds(Document(version).entries, 1);
  }

  /** The two files differ, since they hold different documents. */
  lemma FilesDiffer()
    ensures File(2) != File(3)
  {
    hide Document, Signed, Canonical, At;
    DocumentRepeatsNothing(2);
    DocumentRepeatsNothing(3);
    CanonicalIdentifies(Document(2), Document(3));
    if File(2) == File(3) {
      AlikeFrom(Document(2), Document(3));
      DocumentFields(2);
      DocumentFields(3);
      AtAlike(Document(2), Document(3), Ascii("signed"));
      SignedFields(2);
      SignedFields(3);
      AtAlike(Signed(2), Signed(3), Ascii("version"));
      ScalarsAlike(Integer(2), Integer(3));
    }
  }

  // ------------------------------------------------------------- following them

  function MetadataOf(version: nat): Metadata {
    Metadata(Signed(version), version, EXPIRY, Canonical(Signed(version)), map[KeyId() := SignatureOf(version)])
  }

  lemma ReadDocument(env: Env, version: nat)
    requires env == Repository() && (version == 2 || version == 3)
    ensures Parse(env, File(version), RootFile) == Some(MetadataOf(version))
    ensures ParseRoot(env, MetadataOf(version)) == Some(RootOf(version))
  {
    hide Signed, Signature, Document, File, Canonical, ParseKeys, ParseRoles, SignedPart, Signatures, At, Keys, RolesOf,
      KeyId;
    FilesDiffer();
    DocumentFields(version);
    SignedFields(version);
    ReadSigned(env, version);
    ReadSignatures(env, version);
    ReadKeys(env);
    ReadRoles();
  }

  lemma SignedByKey(env: Env, root: Root, version: nat)
    requires env == Repository() && (version == 2 || version == 3)
    requires root.keys == map[KeyId() := [1]] && root.roles.root == RoleKeys([KeyId()], 1)
    ensures Authorised(env, root, MetadataOf(version), RootFile)
  {
    hide Signed, Canonical, KeyId, SignatureOf;
    var m := MetadataOf(version);
    assert Signs(m.canonical, m.signatures[KeyId()], version);
    assert KeyId() in root.roles.root.keyIds && SignsBy(env, root, m, KeyId());
    assert Signers(env, root, m, root.roles.root.keyIds) == {[1]};
  }

  lemma Succeeds(env: Env, version: nat)
    requires env == Repository() && (version == 2 || version == 3)
    ensures Next(env, RootOf(version - 1), File(version)) == Some(RootOf(version))
  {
    hide Parse, ParseRoot, Authorised, File, Signed, Canonical, KeyId, SignatureOf, Repository;
    ReadDocument(env, version);
    SignedByKey(env, RootOf(version - 1), version);
    SignedByKey(env, RootOf(version), version);
  }

  /**
   * The files of versions 2 and 3 bring a verifier compiled with version 1 to version 3. By the
   * documentation they do so for one compiled with version 2; the code refuses them there.
   */
  lemma SkippingFails()
    ensures Follow(Repository(), RootOf(1), [File(2), File(3)]) == Some(RootOf(3))
    ensures Documented(Repository(), RootOf(2), [File(2), File(3)]) == Some(RootOf(3))
    ensures Follow(Repository(), RootOf(2), [File(2), File(3)]) == None
  {
    hide Next, Documented, Repository, RootOf, File;
    var env, second, third := Repository(), File(2), File(3);
    Succeeds(env, 2);
    Succeeds(env, 3);
    assert [second][1..] == [] && [third][1..] == [];
    assert Follow(env, RootOf(1), [second]) == Some(RootOf(2));
    assert Follow(env, RootOf(2), [third]) == Some(RootOf(3));
    assert [second] + [third] == [second, third];
    FollowSplits(env, RootOf(1), [second], [third]);
    LaterVerifierRefuses(env, RootOf(1), RootOf(2), [second], [third]);
  }
}
