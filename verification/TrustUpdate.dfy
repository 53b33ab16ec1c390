/** The Sigstore keys a chain of roots and a targets file authorise, for clients and publishers. */
module TrustUpdate {
  import opened Basics
  import opened CanonicalJson
  import opened TufRoots
  import opened TufBinding

  datatype Update = Update(trustedRoot: Bytes, rootVersion: nat, targetsVersion: nat)

  // ------------------------------------------------------------- listed files

  function HexDigit(n: nat): byte
    requires n < 16
  {
    (if n < 10 then 48 + n else 87 + n) as byte
  }

  /** Lower-case hexadecimal, as the listings write digests. */
  function Hex(bytes: Bytes): Bytes {
    if bytes == [] then []
    else [HexDigit(bytes[0] as nat / 16), HexDigit(bytes[0] as nat % 16)] + Hex(bytes[1..])
  }

  lemma {:induction false} HexUnique(x: Bytes, y: Bytes)
    requires Hex(x) == Hex(y)
    ensures x == y
  {
    if x != [] && y != [] {
      assert Hex(x)[0] == Hex(y)[0] && Hex(x)[1] == Hex(y)[1];
      assert x[0] as nat / 16 == y[0] as nat / 16 && x[0] as nat % 16 == y[0] as nat % 16;
      assert Hex(x)[2..] == Hex(x[1..]) && Hex(y)[2..] == Hex(y[1..]);
      HexUnique(x[1..], y[1..]);
      assert x == [x[0]] + x[1..] && y == [y[0]] + y[1..];
    }
  }

  /** One listed digest; an unknown algorithm never matches. */
  predicate DigestMatches(env: Env, e: Entry, file: Bytes) {
    e.value.Text? && (
      (e.key == Ascii("sha256") && e.value.text == Hex(env.sha256(file))) ||
      (e.key == Ascii("sha512") && e.value.text == Hex(env.sha512(file))))
  }

  /** `check_file`: what the listing says of length and digests holds of the file. */
  predicate Matches(env: Env, entry: Value, file: Bytes) {
    var length, hashes := Get(entry, Ascii("length")), Get(entry, Ascii("hashes"));
    && (length.Some? ==> AsU64(length.value) == Some(|file|))
    && (hashes.Some? ==> HashesMatch(env, hashes.value, file))
  }

  predicate HashesMatch(env: Env, hashes: Value, file: Bytes) {
    && hashes.Object?
    && hashes.entries != []
    && forall i :: 0 <= i < |hashes.entries| ==> DigestMatches(env, hashes.entries[i], file)
  }

  /** `listed_file`: the version under which newer metadata lists this file. */
  function Listed(env: Env, m: Metadata, name: string, file: Bytes): Option<nat> {
    var entry := Get(At(m.signed, Ascii("meta")), Ascii(name));
    if entry.None? || !Matches(env, entry.value, file) then None
    else AsU64(At(entry.value, Ascii("version")))
  }

  /** `verify_targets`. */
  function Targets(env: Env, root: Root, targets: Bytes, trustedRoot: Bytes): Option<(Metadata, Bytes)> {
    var m := Parse(env, targets, TargetsFile);
    if m.None? || !Authorised(env, root, m.value, TargetsFile) then None
    else
      var entry := Get(At(m.value.signed, Ascii("targets")), Ascii("trusted_root.json"));
      if entry.None? || Get(entry.value, Ascii("length")).None? then None
      else if Get(At(entry.value, Ascii("hashes")), Ascii("sha256")).None? then None
      else if !Matches(env, entry.value, trustedRoot) || env.complete(trustedRoot).None? then None
      else Some((m.value, env.complete(trustedRoot).value))
  }

  // ----------------------------------------------------- clients and publishers

  /** `verify_trust_update`: what a client accepts, without a clock. */
  function Accept(env: Env, compiled: Root, roots: seq<Bytes>, targets: Bytes, trustedRoot: Bytes): Option<Update> {
    var root := Follow(env, compiled, roots);
    if root.None? then None
    else
      var t := Targets(env, root.value, targets, trustedRoot);
      if t.None? then None else Some(Update(t.value.1, root.value.version, t.value.0.version))
  }

  /** Milliseconds to whole seconds, rounding down. */
  function Seconds(nowMs: int): int {
    nowMs / 1000
  }

  /** The metadata file is signed by its role and has not expired. */
  function Current(env: Env, root: Root, file: Bytes, kind: Kind, now: int): Option<Metadata> {
    var m := Parse(env, file, kind);
    if m.None? || !Authorised(env, root, m.value, kind) || m.value.expires <= now then None else m
  }

  /** `verify_current`. */
  function Publishable(env: Env, root: Root, targets: Bytes, trustedRoot: Bytes, snapshot: Bytes, timestamp: Bytes,
      nowMs: int): Option<Update>
  {
    var now := Seconds(nowMs);
    if root.expires <= now then None
    else
      var t := Current(env, root, timestamp, TimestampFile, now);
      if t.None? then None
      else
        var listedSnapshot := Listed(env, t.value, "snapshot.json", snapshot);
        var s := Current(env, root, snapshot, SnapshotFile, now);
        if listedSnapshot.None? || s.None? || s.value.version != listedSnapshot.value then None
        else
          var listedTargets := Listed(env, s.value, "targets.json", targets);
          var r := Targets(env, root, targets, trustedRoot);
          if listedTargets.None? || r.None? then None
          else if r.value.0.expires <= now || r.value.0.version != listedTargets.value then None
          else Some(Update(r.value.1, root.version, r.value.0.version))
  }

  /** `verify_current_trust_update`: what a publisher accepts at a given time. */
  function Publish(env: Env, compiled: Root, roots: seq<Bytes>, targets: Bytes, trustedRoot: Bytes, snapshot: Bytes,
      timestamp: Bytes, nowMs: int): Option<Update>
  {
    var root := Follow(env, compiled, roots);
    if root.None? then None else Publishable(env, root.value, targets, trustedRoot, snapshot, timestamp, nowMs)
  }

  /** What a publisher accepts, every client with the same compiled root accepts, with the same result. */
  lemma PublishedIsAccepted(env: Env, compiled: Root, roots: seq<Bytes>, targets: Bytes, trustedRoot: Bytes,
      snapshot: Bytes, timestamp: Bytes, nowMs: int)
    requires Publish(env, compiled, roots, targets, trustedRoot, snapshot, timestamp, nowMs).Some?
    ensures Accept(env, compiled, roots, targets, trustedRoot)
      == Publish(env, compiled, roots, targets, trustedRoot, snapshot, timestamp, nowMs)
  {
    hide Targets, Current, Listed;
  }

  /**
   * What a publisher asks beyond a client: signed timestamp and snapshot, each file the version
   * the newer one lists, and nothing expired at this millisecond.
   */
  predicate Fresh(env: Env, root: Root, targets: Bytes, snapshot: Bytes, timestamp: Bytes, nowMs: int) {
    var t, s, m := Parse(env, timestamp, TimestampFile), Parse(env, snapshot, SnapshotFile),
      Parse(env, targets, TargetsFile);
    && t.Some? && Authorised(env, root, t.value, TimestampFile)
    && s.Some? && Authorised(env, root, s.value, SnapshotFile)
    && m.Some?
    && Listed(env, t.value, "snapshot.json", snapshot) == Some(s.value.version)
    && Listed(env, s.value, "targets.json", targets) == Some(m.value.version)
    && nowMs < 1000 * root.expires
    && nowMs < 1000 * t.value.expires
    && nowMs < 1000 * s.value.expires
    && nowMs < 1000 * m.value.expires
  }

  /** A publisher accepts exactly what a client accepts and is fresh. */
  lemma PublishedExactly(env: Env, compiled: Root, roots: seq<Bytes>, targets: Bytes, trustedRoot: Bytes,
      snapshot: Bytes, timestamp: Bytes, nowMs: int)
    ensures var root, accepted := Follow(env, compiled, roots), Accept(env, compiled, roots, targets, trustedRoot);
      Publish(env, compiled, roots, targets, trustedRoot, snapshot, timestamp, nowMs).Some? <==>
        accepted.Some? && Fresh(env, root.value, targets, snapshot, timestamp, nowMs)
  {
    hide Follow, Authorised, Parse, Listed, Matches;
    if Follow(env, compiled, roots).Some? {
      var root := Follow(env, compiled, roots).value;
      assert root.expires <= Seconds(nowMs) <==> 1000 * root.expires <= nowMs;
    }
  }

  // ---------------------------------------------------- what the digest pins

  /** An accepted key list has the length and SHA-256 that the signed targets file names. */
  lemma AcceptedFileIsListed(env: Env, compiled: Root, roots: seq<Bytes>, targets: Bytes, file: Bytes)
    returns (root: Root, m: Metadata, length: Value, digest: Value)
    requires Accept(env, compiled, roots, targets, file).Some?
    ensures Follow(env, compiled, roots) == Some(root)
    ensures Parse(env, targets, TargetsFile) == Some(m) && Authorised(env, root, m, TargetsFile)
    ensures ListedDigest(m) == (length, digest)
    ensures AsU64(length) == Some(|file|)
    ensures digest == Text(Hex(env.sha256(file)))
  {
    hide Authorised, Parse, Follow;
    root := Follow(env, compiled, roots).value;
    m := Parse(env, targets, TargetsFile).value;
    var entry := At(At(m.signed, Ascii("targets")), Ascii("trusted_root.json"));
    var hashes := At(entry, Ascii("hashes"));
    length, digest := At(entry, Ascii("length")), At(hashes, Ascii("sha256"));
    var i := LookupIn(hashes.entries, Ascii("sha256"));
    Sha256Differs();
  }

  /** The length and SHA-256 that a targets file lists for the key list. */
  function ListedDigest(m: Metadata): (Value, Value) {
    var entry := At(At(m.signed, Ascii("targets")), Ascii("trusted_root.json"));
    (At(entry, Ascii("length")), At(At(entry, Ascii("hashes")), Ascii("sha256")))
  }

  lemma Sha256Differs()
    ensures Ascii("sha256") != Ascii("sha512")
  {
    assert Ascii("sha256")[3] == 50 && Ascii("sha512")[3] == 53;
  }

  /** Two key lists accepted under one targets file are equal, or collide under SHA-256. */
  lemma TargetsFixTrustedRoot(env: Env, compiled: Root, roots: seq<Bytes>, targets: Bytes, x: Bytes, y: Bytes)
    requires Accept(env, compiled, roots, targets, x).Some? && Accept(env, compiled, roots, targets, y).Some?
    ensures |x| == |y| && env.sha256(x) == env.sha256(y)
  {
    var r, m, l, d := AcceptedFileIsListed(env, compiled, roots, targets, x);
    var r', m', l', d' := AcceptedFileIsListed(env, compiled, roots, targets, y);
    HexUnique(env.sha256(x), env.sha256(y));
  }
}
