/** Evidence refreshes: a snapshot that reuses earlier checks against one that repeats them all. */
module EvidenceCache {
  import opened Basics
  import A = Approvals
  import V = VendorCollateral

  // ------------------------------------------------------- authenticated times

  /** The times a release proof carries, in seconds: RFC 3161 tokens, log time, certificate window. */
  datatype Times = Times(timestamps: seq<int>, integrated: int, notBefore: int, notAfter: int)

  function Earliest(timestamps: seq<int>): int
    requires timestamps != []
  {
    var last := timestamps[|timestamps| - 1];
    if |timestamps| == 1 then last
    else
      var rest := Earliest(timestamps[..|timestamps| - 1]);
      if rest < last then rest else last
  }

  /** The signing time that counts: the earliest token, or the log's own time. */
  function SigningTime(t: Times): int {
    if t.timestamps == [] then t.integrated else Earliest(t.timestamps)
  }

  predicate Plausible(t: Times, time: int) {
    time > 0 && t.notBefore <= time <= t.notAfter
  }

  /** The clock may lag what others signed by a minute. */
  predicate InPast(time: int, nowMs: int) {
    time <= nowMs / 1000 + 60
  }

  predicate TimesHold(t: Times, nowMs: int) {
    && (forall i :: 0 <= i < |t.timestamps| ==> InPast(t.timestamps[i], nowMs))
    && Plausible(t, SigningTime(t))
    && InPast(SigningTime(t), nowMs)
    && Plausible(t, t.integrated)
    && InPast(t.integrated, nowMs)
  }

  /** `tsa::verify_all` over tokens that are individually valid. */
  method VerifyTimestamps(timestamps: seq<int>, nowMs: int) returns (ok: bool, earliest: Option<int>)
    ensures ok <==> forall i :: 0 <= i < |timestamps| ==> InPast(timestamps[i], nowMs)
    ensures ok ==> earliest == (if timestamps == [] then None else Some(Earliest(timestamps)))
  {
    earliest := None;
    for i := 0 to |timestamps|
      invariant forall k :: 0 <= k < i ==> InPast(timestamps[k], nowMs)
      invariant earliest == if i == 0 then None else Some(Earliest(timestamps[..i]))
    {
      if timestamps[i] > nowMs / 1000 + 60 {
        return false, earliest;
      }
      assert timestamps[..i + 1][..i] == timestamps[..i];
      var current := timestamps[i];
      earliest := Some(if earliest.Some? && earliest.value < current then earliest.value else current);
    }
    assert timestamps[..|timestamps|] == timestamps;
    return true, earliest;
  }

  /** What was acceptable once stays acceptable. */
  lemma TimesKeepHolding(t: Times, before: int, now: int)
    requires TimesHold(t, before) && before <= now
    ensures TimesHold(t, now)
  {
  }

  // ------------------------------------------------------------------ releases

  datatype Kind = Gateway | Catalog

  /** A listed release: its document names it; the whole includes its proof. */
  datatype Release = Release(document: Bytes, whole: Bytes)

  datatype Verified = Verified(sequence: nat, minimum: nat)

  /** A proof whose signatures, chains and bindings hold, before its times meet the clock. */
  datatype Proof = Proof(times: Times, value: Verified)

  datatype Trust = Trust(keys: Bytes)

  /** A verified approval manifest: the decision and the releases it lists. */
  datatype Manifest = Manifest(decision: A.Decision, gateways: seq<Release>, catalogs: seq<Release>)

  /** An evidence document, as far as it parses. */
  datatype Parts = Parts(sigstore: Bytes, keys: Bytes, vendor: Bytes, approvals: Option<Bytes>)

  /** The checks a refresh calls; none of them looks at earlier results. */
  datatype Env = Env(
    sha: Bytes -> Bytes,
    parse: Bytes -> Option<Parts>,
    sigstore: Bytes -> Option<Trust>,
    keys: (Bytes, Trust, int) -> Option<A.Keys>,
    manifest: (A.Keys, Bytes, Bytes, Trust, int) -> Option<Manifest>,
    proof: (Kind, Trust, Bytes) -> Option<Proof>,
    hardware: Manifest -> bool,
    vendor: V.Vendor)

  /** `verify_gateway` and `verify_catalog`: the full check of one release. */
  function Verify(env: Env, kind: Kind, trust: Trust, whole: Bytes, nowMs: int): Option<Verified> {
    var proof := env.proof(kind, trust, whole);
    if proof.None? || !TimesHold(proof.value.times, nowMs) then None else Some(proof.value.value)
  }

  // --------------------------------------------------------------------- cache

  /** A kept result. `source` is the listed release it was computed from. */
  datatype Entry = Entry(source: Release, digest: Bytes, verifiedAt: int, value: Verified)

  /** `cached`: reuse an entry with the same digest, unless the clock has gone back. */
  function Check(env: Env, kind: Kind, trust: Trust, prior: Option<Entry>, r: Release, nowMs: int): Option<Entry> {
    if prior.Some? && prior.value.digest == env.sha(r.whole) && nowMs >= prior.value.verifiedAt then
      Some(prior.value)
    else
      var value := Verify(env, kind, trust, r.whole, nowMs);
      if value.None? then None else Some(Entry(r, env.sha(r.whole), nowMs, value.value))
  }

  function Find(entries: map<Bytes, Entry>, id: Bytes): Option<Entry> {
    if id in entries then Some(entries[id]) else None
  }

  /** The map a release list verifies to, in list order; any failure fails the list. */
  function Collect(env: Env, kind: Kind, trust: Trust, prior: map<Bytes, Entry>, releases: seq<Release>,
      nowMs: int): Option<map<Bytes, Entry>>
  {
    if releases == [] then Some(map[])
    else
      var r := releases[|releases| - 1];
      var front := Collect(env, kind, trust, prior, releases[..|releases| - 1], nowMs);
      var id := env.sha(r.document);
      var entry := Check(env, kind, trust, Find(prior, id), r, nowMs);
      if front.None? || entry.None? then None else Some(front.value[id := entry.value])
  }

  /** One of the loops of `verify_snapshot`. */
  method VerifyReleases(env: Env, kind: Kind, trust: Trust, prior: map<Bytes, Entry>, releases: seq<Release>,
      nowMs: int) returns (r: Option<map<Bytes, Entry>>)
    ensures r == Collect(env, kind, trust, prior, releases, nowMs)
  {
    var entries: map<Bytes, Entry> := map[];
    for i := 0 to |releases|
      invariant Collect(env, kind, trust, prior, releases[..i], nowMs) == Some(entries)
    {
      assert releases[..i + 1][..i] == releases[..i];
      var id := env.sha(releases[i].document);
      var entry := Check(env, kind, trust, Find(prior, id), releases[i], nowMs);
      if entry.None? {
        CollectFails(env, kind, trust, prior, releases, i + 1, nowMs);
        return None;
      }
      entries := entries[id := entry.value];
    }
    assert releases[..|releases|] == releases;
    return Some(entries);
  }

  lemma {:induction false} CollectFails(env: Env, kind: Kind, trust: Trust, prior: map<Bytes, Entry>,
      releases: seq<Release>, n: nat, nowMs: int)
    requires n <= |releases| && Collect(env, kind, trust, prior, releases[..n], nowMs).None?
    ensures Collect(env, kind, trust, prior, releases, nowMs).None?
    decreases |releases| - n
  {
    if n < |releases| {
      assert releases[..n + 1][..n] == releases[..n];
      CollectFails(env, kind, trust, prior, releases, n + 1, nowMs);
    } else {
      assert releases[..n] == releases;
    }
  }

  // ------------------------------------------------------------------- refresh

  datatype Snapshot = Snapshot(
    sigstore: Bytes, trust: Trust, decision: A.Decision, gateways: map<Bytes, Entry>, catalogs: map<Bytes, Entry>,
    platforms: map<Bytes, V.Kept>)

  /** `revoked` is shared with every snapshot. */
  datatype State = State(approvals: A.State, revoked: V.Revoked, current: Option<Snapshot>)

  /** The Sigstore keys of the files, and whether they are the current snapshot's own. */
  function Sigstore(env: Env, current: Option<Snapshot>, files: Bytes): (Option<Trust>, bool) {
    if current.Some? && env.sha(current.value.sigstore) == env.sha(files) then (Some(current.value.trust), true)
    else (env.sigstore(files), false)
  }

  /**
   * `verify_snapshot` for an approved candidate. Release results are reused under the same keys
   * only, verified certificate chains under any.
   */
  function Build(env: Env, prior: Option<Snapshot>, p: Approved, nowMs: int): Option<Snapshot> {
    var m, usable := p.manifest, p.shared && prior.Some?;
    var oldGateways := if usable then prior.value.gateways else map[];
    var oldCatalogs := if usable then prior.value.catalogs else map[];
    var oldPlatforms := if prior.Some? then prior.value.platforms else map[];
    var gateways := Collect(env, Gateway, p.trust, oldGateways, m.gateways, nowMs);
    var catalogs := Collect(env, Catalog, p.trust, oldCatalogs, m.catalogs, nowMs);
    var platforms := V.Stored(env.vendor, oldPlatforms, p.vendor);
    if gateways.None? || catalogs.None? || !env.hardware(m) || platforms.None? then None
    else Some(Snapshot(p.files, p.trust, m.decision, gateways.value, catalogs.value, platforms.value))
  }

  /** An approved candidate: its Sigstore files and keys, whether they were reused, its manifest and vendor rows. */
  datatype Approved = Approved(files: Bytes, trust: Trust, shared: bool, manifest: Manifest, vendor: Bytes)

  /**
   * `refresh` up to the approval. The keys and the revocations it learns stay learned even if
   * another check fails, and neither waits for the other.
   */
  function Approve(env: Env, s: State, prior: Option<Snapshot>, bytes: Bytes, nowMs: int): (State, Option<Approved>) {
    var parts := env.parse(bytes);
    if parts.None? then (s, None)
    else
      var (trust, shared) := Sigstore(env, prior, parts.value.sigstore);
      var keys := if trust.None? then None else env.keys(parts.value.keys, trust.value, nowMs);
      var (learned, error) :=
        if keys.None? then (s.approvals, None) else A.Step(s.approvals, A.Observed(keys.value));
      var (revoked, known) := env.vendor.revoke(s.revoked, parts.value.vendor, nowMs);
      var t := s.(approvals := learned, revoked := revoked);
      if keys.None? || error.Some? || !known || parts.value.approvals.None? then (t, None)
      else
        var m := env.manifest(keys.value, parts.value.approvals.value, env.sha(parts.value.sigstore), trust.value,
          nowMs);
        if m.None? || A.CheckUpdate(learned, m.value.decision).Some? then (t, None)
        else (t, Some(Approved(parts.value.sigstore, trust.value, shared, m.value, parts.value.vendor)))
  }

  /** `refresh`, with what it may reuse passed in; the result says whether a snapshot was installed. */
  function Refreshed(env: Env, s: State, prior: Option<Snapshot>, bytes: Bytes, nowMs: int): (State, bool) {
    var (t, approved) := Approve(env, s, prior, bytes, nowMs);
    if approved.None? then (t, false)
    else
      var built := Build(env, prior, approved.value, nowMs);
      if built.None? then (t, false)
      else
        var (after, error) := A.Step(t.approvals, A.Accepted(approved.value.manifest.decision));
        if error.Some? then (t.(approvals := after), false) else (t.(approvals := after, current := built), true)
  }

  /** The verifier as written: it reuses what the current snapshot holds. */
  function Reuse(env: Env, s: State, bytes: Bytes, nowMs: int): (State, bool) {
    Refreshed(env, s, s.current, bytes, nowMs)
  }

  /** The reference: every check is made again. */
  function Repeat(env: Env, s: State, bytes: Bytes, nowMs: int): (State, bool) {
    Refreshed(env, s, None, bytes, nowMs)
  }

  function Initial(authority: Bytes, environment: string): State {
    State(A.Initial(authority, environment), V.Revoked([]), None)
  }

  class Verifier {
    const authoriser: A.Authoriser
    var revoked: V.Revoked
    var current: Option<Snapshot>

    function View(): State
      reads this, authoriser
    {
      State(authoriser.View(), revoked, current)
    }

    constructor (authority: Bytes, environment: string)
      ensures View() == Initial(authority, environment) && fresh(authoriser)
    {
      authoriser := new A.Authoriser(authority, environment);
      revoked := V.Revoked([]);
      current := None;
    }

    /** `verify_snapshot`. */
    method VerifySnapshot(env: Env, p: Approved, nowMs: int) returns (r: Option<Snapshot>)
      ensures r == Build(env, current, p, nowMs)
    {
      hide Collect, V.Stored;
      var usable := p.shared && current.Some?;
      var oldGateways := if usable then current.value.gateways else map[];
      var gateways := VerifyReleases(env, Gateway, p.trust, oldGateways, p.manifest.gateways, nowMs);
      if gateways.None? {
        return None;
      }
      var oldCatalogs := if usable then current.value.catalogs else map[];
      var catalogs := VerifyReleases(env, Catalog, p.trust, oldCatalogs, p.manifest.catalogs, nowMs);
      if catalogs.None? {
        return None;
      }
      if !env.hardware(p.manifest) {
        return None;
      }
      var oldPlatforms := if current.Some? then current.value.platforms else map[];
      var platforms := V.VerifyStore(env.vendor, oldPlatforms, p.vendor);
      if platforms.None? {
        return None;
      }
      return Some(Snapshot(p.files, p.trust, p.manifest.decision, gateways.value, catalogs.value, platforms.value));
    }

    /** `refresh_observed`: learn keys and revocations, check the candidate, and only then install it. */
    method Refresh(env: Env, bytes: Bytes, nowMs: int) returns (installed: bool)
      modifies this, authoriser
      ensures (View(), installed) == Reuse(env, old(View()), bytes, nowMs)
    {
      hide A.Step, A.CheckUpdate, Build;
      var parts := env.parse(bytes);
      if parts.None? {
        return false;
      }
      var files := parts.value.sigstore;
      var (trust, shared) := Sigstore(env, current, files);
      var keys := if trust.None? then None else env.keys(parts.value.keys, trust.value, nowMs);
      var error := None;
      if keys.Some? {
        error := authoriser.Observe(keys.value);
      }
      var (learned, known) := env.vendor.revoke(revoked, parts.value.vendor, nowMs);
      revoked := learned;
      if keys.None? || error.Some? || !known || parts.value.approvals.None? {
        return false;
      }
      var m := env.manifest(keys.value, parts.value.approvals.value, env.sha(files), trust.value, nowMs);
      if m.None? || A.CheckUpdate(authoriser.View(), m.value.decision).Some? {
        return false;
      }
      var built := VerifySnapshot(env, Approved(files, trust.value, shared, m.value, parts.value.vendor), nowMs);
      if built.None? {
        return false;
      }
      error := authoriser.Accept(m.value.decision);
      if error.Some? {
        return false;
      }
      current := built;
      return true;
    }
  }

  // -------------------------------------------------------------- agreement

  /** An entry is what the full check of its release gave when it was made. */
  ghost predicate Sound(env: Env, kind: Kind, trust: Trust, e: Entry) {
    e.digest == env.sha(e.source.whole) && Verify(env, kind, trust, e.source.whole, e.verifiedAt) == Some(e.value)
  }

  ghost predicate AllSound(env: Env, kind: Kind, trust: Trust, entries: map<Bytes, Entry>) {
    forall id :: id in entries ==> Sound(env, kind, trust, entries[id])
  }

  ghost predicate Valid(env: Env, s: State) {
    match s.current
    case None => s.approvals.accepted.None?
    case Some(c) =>
      && s.approvals.accepted == Some(c.decision)
      && env.sigstore(c.sigstore) == Some(c.trust)
      && AllSound(env, Gateway, c.trust, c.gateways)
      && AllSound(env, Catalog, c.trust, c.catalogs)
      && V.AllSound(env.vendor, c.platforms)
  }

  function Values(entries: map<Bytes, Entry>): map<Bytes, Verified> {
    map id | id in entries :: entries[id].value
  }

  /** What a snapshot says, without when its parts were checked. */
  datatype Contents = Contents(
    sigstore: Bytes, trust: Trust, decision: A.Decision, gateways: map<Bytes, Verified>, catalogs: map<Bytes, Verified>,
    platforms: map<Bytes, V.Platform>)

  function View(c: Option<Snapshot>): Option<Contents> {
    if c.None? then None
    else Some(Contents(c.value.sigstore, c.value.trust, c.value.decision, Values(c.value.gateways),
      Values(c.value.catalogs), V.Platforms(c.value.platforms)))
  }

  predicate NoCollision(env: Env, x: Bytes, y: Bytes) {
    env.sha(x) == env.sha(y) ==> x == y
  }

  /** No listed release shares its digest with a different release in the cache. */
  ghost predicate NoClash(env: Env, entries: map<Bytes, Entry>, releases: seq<Release>) {
    forall id, i :: id in entries && 0 <= i < |releases| ==>
      NoCollision(env, entries[id].source.whole, releases[i].whole)
  }

  /** This refresh meets no digest collision between what it checks and what is cached. */
  ghost predicate Clean(env: Env, s: State, bytes: Bytes, nowMs: int) {
    s.current.Some? && env.parse(bytes).Some? ==> CleanAgainst(env, s, s.current.value, bytes, nowMs)
  }

  ghost predicate CleanAgainst(env: Env, s: State, c: Snapshot, bytes: Bytes, nowMs: int)
    requires env.parse(bytes).Some?
  {
    var files := env.parse(bytes).value.sigstore;
    var approved := Approve(env, s, None, bytes, nowMs).1;
    && (env.sha(c.sigstore) == env.sha(files) ==> c.sigstore == files)
    && (approved.Some? ==> NoClash(env, c.gateways, approved.value.manifest.gateways))
    && (approved.Some? ==> NoClash(env, c.catalogs, approved.value.manifest.catalogs))
    && (approved.Some? ==> V.NoClash(env.vendor, c.platforms, approved.value.vendor))
  }

  /** A reused entry is what the full check gives now. */
  lemma CheckAgrees(env: Env, kind: Kind, trust: Trust, prior: Option<Entry>, r: Release, nowMs: int)
    requires prior.Some? ==> Sound(env, kind, trust, prior.value)
    requires prior.Some? && env.sha(prior.value.source.whole) == env.sha(r.whole) ==>
      prior.value.source.whole == r.whole
    ensures var kept, made := Check(env, kind, trust, prior, r, nowMs), Check(env, kind, trust, None, r, nowMs);
            (kept.Some? <==> made.Some?) &&
              (kept.Some? ==> kept.value.value == made.value.value && Sound(env, kind, trust, kept.value))
  {
    if prior.Some? && prior.value.digest == env.sha(r.whole) && nowMs >= prior.value.verifiedAt {
      TimesKeepHolding(env.proof(kind, trust, r.whole).value.times, prior.value.verifiedAt, nowMs);
    }
  }

  lemma {:induction false} CollectAgrees(env: Env, kind: Kind, trust: Trust, prior: map<Bytes, Entry>,
      releases: seq<Release>, nowMs: int)
    requires AllSound(env, kind, trust, prior) && NoClash(env, prior, releases)
    ensures var kept, made := Collect(env, kind, trust, prior, releases, nowMs),
      Collect(env, kind, trust, map[], releases, nowMs);
            (kept.Some? <==> made.Some?) &&
              (kept.Some? ==> Values(kept.value) == Values(made.value) && AllSound(env, kind, trust, kept.value))
  {
    hide Sound, Check, Values;
    if releases != [] {
      var front, r := releases[..|releases| - 1], releases[|releases| - 1];
      assert NoClash(env, prior, front);
      CollectAgrees(env, kind, trust, prior, front, nowMs);
      var id := env.sha(r.document);
      CheckAgrees(env, kind, trust, Find(prior, id), r, nowMs);
      var kept, made := Collect(env, kind, trust, prior, front, nowMs), Collect(env, kind, trust, map[], front, nowMs);
      var entry, again := Check(env, kind, trust, Find(prior, id), r, nowMs), Check(env, kind, trust, None, r, nowMs);
      if kept.Some? && entry.Some? {
        ValuesUpdate(kept.value, id, entry.value);
        ValuesUpdate(made.value, id, again.value);
      }
    }
  }

  lemma ValuesUpdate(entries: map<Bytes, Entry>, id: Bytes, e: Entry)
    ensures Values(entries[id := e]) == Values(entries)[id := e.value]
  {
  }

  lemma ApproveAgrees(env: Env, s: State, bytes: Bytes, nowMs: int)
    requires Valid(env, s) && Clean(env, s, bytes, nowMs)
    ensures var kept, made := Approve(env, s, s.current, bytes, nowMs), Approve(env, s, None, bytes, nowMs);
            kept.0 == made.0 && (kept.1.Some? <==> made.1.Some?) &&
              (kept.1.Some? ==> kept.1.value.(shared := false) == made.1.value.(shared := false))
    ensures var kept := Approve(env, s, s.current, bytes, nowMs).1;
            kept.Some? && kept.value.shared ==> s.current.Some? && kept.value.trust == s.current.value.trust
    ensures Approve(env, s, None, bytes, nowMs).1.Some? ==> !Approve(env, s, None, bytes, nowMs).1.value.shared
    ensures Approve(env, s, None, bytes, nowMs).1.Some? ==> env.parse(bytes).Some?
  {
    hide A.Step, A.CheckUpdate;
  }

  lemma BuildAgrees(env: Env, prior: Option<Snapshot>, p: Approved, nowMs: int)
    requires p.shared && prior.Some? ==>
      AllSound(env, Gateway, p.trust, prior.value.gateways) && AllSound(env, Catalog, p.trust, prior.value.catalogs)
    requires prior.Some? ==>
      && NoClash(env, prior.value.gateways, p.manifest.gateways)
      && NoClash(env, prior.value.catalogs, p.manifest.catalogs)
    requires prior.Some? ==>
      V.AllSound(env.vendor, prior.value.platforms) && V.NoClash(env.vendor, prior.value.platforms, p.vendor)
    ensures var kept, made := Build(env, prior, p, nowMs), Build(env, None, p.(shared := false), nowMs);
            (kept.Some? <==> made.Some?) && View(kept) == View(made) &&
              (kept.Some? ==> BuiltFrom(env, kept.value, p))
  {
    hide Sound, NoClash, AllSound, V.Stored, V.AllSound, V.NoClash, Collect, Values, V.Platforms;
    var m, usable := p.manifest, p.shared && prior.Some?;
    NothingClashes(env, p);
    CollectAgrees(env, Gateway, p.trust, if usable then prior.value.gateways else map[], m.gateways, nowMs);
    CollectAgrees(env, Catalog, p.trust, if usable then prior.value.catalogs else map[], m.catalogs, nowMs);
    V.StoreAgrees(env.vendor, if prior.Some? then prior.value.platforms else map[], p.vendor);
  }

  /** An empty cache is sound and clashes with nothing. */
  lemma NothingClashes(env: Env, p: Approved)
    ensures AllSound(env, Gateway, p.trust, map[]) && AllSound(env, Catalog, p.trust, map[])
    ensures NoClash(env, map[], p.manifest.gateways) && NoClash(env, map[], p.manifest.catalogs)
    ensures V.AllSound(env.vendor, map[]) && V.NoClash(env.vendor, map[], p.vendor)
  {
  }

  ghost predicate BuiltFrom(env: Env, c: Snapshot, p: Approved) {
    && c.sigstore == p.files
    && c.trust == p.trust
    && c.decision == p.manifest.decision
    && AllSound(env, Gateway, p.trust, c.gateways)
    && AllSound(env, Catalog, p.trust, c.catalogs)
    && V.AllSound(env.vendor, c.platforms)
  }

  /** Approval looks at what was learned and at what it may reuse, and leaves the snapshot alone. */
  lemma ApproveKeeps(env: Env, s: State, r: State, bytes: Bytes, nowMs: int)
    requires r.approvals == s.approvals && r.revoked == s.revoked
    ensures var made, other := Approve(env, s, None, bytes, nowMs), Approve(env, r, None, bytes, nowMs);
            made.1 == other.1 && made.0.approvals == other.0.approvals && made.0.revoked == other.0.revoked &&
              made.0.current == s.current && other.0.current == r.current
    ensures Approve(env, s, None, bytes, nowMs).0.approvals.accepted == s.approvals.accepted
    ensures var made := Approve(env, s, None, bytes, nowMs).1;
            made.Some? ==> env.sigstore(made.value.files) == Some(made.value.trust)
  {
    hide A.CheckUpdate;
  }

  lemma AcceptInstalls(s: A.State, d: A.Decision)
    ensures A.Step(s, A.Accepted(d)).0.accepted == (if A.Step(s, A.Accepted(d)).1.None? then Some(d) else s.accepted)
  {
  }

  /** The two verifiers know the same and show the same. */
  predicate Agree(s: State, r: State) {
    r.approvals == s.approvals && r.revoked == s.revoked && View(r.current) == View(s.current)
  }

  /** One refresh: the same verdict, the same approvals and revocations, the same contents. */
  lemma RefreshAgrees(env: Env, s: State, r: State, bytes: Bytes, nowMs: int)
    requires Valid(env, s) && Clean(env, s, bytes, nowMs) && Agree(s, r)
    ensures var kept, made := Reuse(env, s, bytes, nowMs), Repeat(env, r, bytes, nowMs);
            kept.1 == made.1 && Agree(kept.0, made.0)
    ensures Valid(env, Reuse(env, s, bytes, nowMs).0)
  {
    hide A.Step, A.CheckUpdate, Build, Approve, View, AllSound, NoClash, V.AllSound, V.NoClash;
    ApproveAgrees(env, s, bytes, nowMs);
    ApproveKeeps(env, s, r, bytes, nowMs);
    var (t, approved) := Approve(env, s, s.current, bytes, nowMs);
    if approved.Some? {
      BuildAgrees(env, s.current, approved.value, nowMs);
      AcceptInstalls(t.approvals, approved.value.manifest.decision);
    }
  }

  // --------------------------------------------------------------- whole runs

  /** An evidence document and the clock reading it arrives at; the clock may go back. */
  datatype Arrival = Arrival(bytes: Bytes, nowMs: int)

  function Run(env: Env, s: State, arrivals: seq<Arrival>): State {
    if arrivals == [] then s
    else
      var last := arrivals[|arrivals| - 1];
      Reuse(env, Run(env, s, arrivals[..|arrivals| - 1]), last.bytes, last.nowMs).0
  }

  function RunRepeating(env: Env, s: State, arrivals: seq<Arrival>): State {
    if arrivals == [] then s
    else
      var last := arrivals[|arrivals| - 1];
      Repeat(env, RunRepeating(env, s, arrivals[..|arrivals| - 1]), last.bytes, last.nowMs).0
  }

  ghost predicate CleanRun(env: Env, s: State, arrivals: seq<Arrival>) {
    arrivals != [] ==>
      var before, last := arrivals[..|arrivals| - 1], arrivals[|arrivals| - 1];
      CleanRun(env, s, before) && Clean(env, Run(env, s, before), last.bytes, last.nowMs)
  }

  /** Over any run without a digest collision, the cache never shows. */
  lemma {:induction false} CacheNeverShows(env: Env, authority: Bytes, environment: string, arrivals: seq<Arrival>)
    requires CleanRun(env, Initial(authority, environment), arrivals)
    ensures var kept, made := Run(env, Initial(authority, environment), arrivals),
      RunRepeating(env, Initial(authority, environment), arrivals);
            Valid(env, kept) && Agree(kept, made)
  {
    hide Reuse, Repeat, View, Clean;
    var start := Initial(authority, environment);
    if arrivals != [] {
      var before, last := arrivals[..|arrivals| - 1], arrivals[|arrivals| - 1];
      CacheNeverShows(env, authority, environment, before);
      RefreshAgrees(env, Run(env, start, before), RunRepeating(env, start, before), last.bytes, last.nowMs);
    }
  }

  /** The next document is installed exactly if full verification would install it. */
  lemma SameVerdict(env: Env, authority: Bytes, environment: string, arrivals: seq<Arrival>, next: Arrival)
    requires CleanRun(env, Initial(authority, environment), arrivals + [next])
    ensures var start := Initial(authority, environment);
            Reuse(env, Run(env, start, arrivals), next.bytes, next.nowMs).1
              == Repeat(env, RunRepeating(env, start, arrivals), next.bytes, next.nowMs).1
  {
    var start := Initial(authority, environment);
    assert (arrivals + [next])[..|arrivals|] == arrivals;
    CacheNeverShows(env, authority, environment, arrivals);
    RefreshAgrees(env, Run(env, start, arrivals), RunRepeating(env, start, arrivals), next.bytes, next.nowMs);
  }

  /** The revocations in the documents that parse, and nothing else. */
  function RevocationsIn(env: Env, arrivals: seq<Arrival>): V.Revoked {
    if arrivals == [] then V.Revoked([])
    else
      var before, last := RevocationsIn(env, arrivals[..|arrivals| - 1]), arrivals[|arrivals| - 1];
      var parts := env.parse(last.bytes);
      if parts.None? then before else env.vendor.revoke(before, parts.value.vendor, last.nowMs).0
  }

  lemma RefreshRevokes(env: Env, s: State, bytes: Bytes, nowMs: int)
    ensures Reuse(env, s, bytes, nowMs).0.revoked
      == (if env.parse(bytes).None? then s.revoked
          else env.vendor.revoke(s.revoked, env.parse(bytes).value.vendor, nowMs).0)
  {
    hide A.Step, A.CheckUpdate, Build;
  }

  /** No failure of keys, approvals, releases or collateral hides a revocation, in any run. */
  lemma {:induction false} RevocationsRetained(env: Env, authority: Bytes, environment: string, arrivals: seq<Arrival>)
    ensures Run(env, Initial(authority, environment), arrivals).revoked == RevocationsIn(env, arrivals)
  {
    hide Reuse;
    if arrivals != [] {
      var before, last := arrivals[..|arrivals| - 1], arrivals[|arrivals| - 1];
      RevocationsRetained(env, authority, environment, before);
      RefreshRevokes(env, Run(env, Initial(authority, environment), before), last.bytes, last.nowMs);
    }
  }

  // ------------------------------------------------------------- what is reused

  /** A listed release with this entry in the cache, unless the clock has gone back since. */
  predicate Known(env: Env, entries: map<Bytes, Entry>, r: Release, nowMs: int) {
    var id := env.sha(r.document);
    id in entries && entries[id].digest == env.sha(r.whole) && entries[id].verifiedAt <= nowMs
  }

  predicate AllKnown(env: Env, entries: map<Bytes, Entry>, releases: seq<Release>, nowMs: int) {
    forall i :: 0 <= i < |releases| ==> Known(env, entries, releases[i], nowMs)
  }

  lemma {:induction false} KnownIsKept(env: Env, kind: Kind, trust: Trust, entries: map<Bytes, Entry>,
      releases: seq<Release>, nowMs: int)
    requires AllKnown(env, entries, releases, nowMs)
    ensures var kept := Collect(env, kind, trust, entries, releases, nowMs);
      kept.Some? && forall id :: id in kept.value ==> id in entries && kept.value[id] == entries[id]
  {
    if releases != [] {
      var n := |releases| - 1;
      assert forall i :: 0 <= i < n ==> releases[..n][i] == releases[i];
      KnownIsKept(env, kind, trust, entries, releases[..n], nowMs);
      assert Known(env, entries, releases[n], nowMs);
    }
  }

  /**
   * Under Sigstore files with the current digest, releases that are known are not checked again:
   * whatever their proofs would give, the new snapshot holds the entries of the old one.
   */
  lemma KnownIsReused(env: Env, s: State, bytes: Bytes, nowMs: int)
    requires s.current.Some? && Reuse(env, s, bytes, nowMs).1
    requires env.parse(bytes).Some? && env.sha(env.parse(bytes).value.sigstore) == env.sha(s.current.value.sigstore)
    requires var m := Approve(env, s, s.current, bytes, nowMs).1;
      m.Some? ==> AllKnown(env, s.current.value.gateways, m.value.manifest.gateways, nowMs)
    ensures var after := Reuse(env, s, bytes, nowMs).0.current;
      after.Some? && forall id :: id in after.value.gateways ==>
        id in s.current.value.gateways && after.value.gateways[id] == s.current.value.gateways[id]
  {
    hide A.Step, A.CheckUpdate, Collect, V.Stored;
    var p := Approve(env, s, s.current, bytes, nowMs).1.value;
    KnownIsKept(env, Gateway, p.trust, s.current.value.gateways, p.manifest.gateways, nowMs);
  }

  /** The installed snapshot's decision is the accepted one: the two move together. */
  predicate InStep(s: State) {
    s.approvals.accepted == (if s.current.None? then None else Some(s.current.value.decision))
  }

  lemma RefreshInStep(env: Env, s: State, bytes: Bytes, nowMs: int)
    requires InStep(s)
    ensures InStep(Reuse(env, s, bytes, nowMs).0)
    ensures !Reuse(env, s, bytes, nowMs).1 ==> Reuse(env, s, bytes, nowMs).0.current == s.current
  {
    hide Collect, A.CheckUpdate;
    var (t, approved) := Approve(env, s, s.current, bytes, nowMs);
    if approved.Some? {
      AcceptInstalls(t.approvals, approved.value.manifest.decision);
      AcceptedIsPlain(t.approvals, approved.value.manifest.decision);
    }
  }

  /** An approved decision that is then accepted never fails half way. */
  lemma AcceptedIsPlain(s: A.State, d: A.Decision)
    ensures A.Step(s, A.Accepted(d)).1.None? <==> A.CheckUpdate(s, d).None?
  {
  }

  lemma {:induction false} InstalledIsAccepted(env: Env, authority: Bytes, environment: string, arrivals: seq<Arrival>)
    ensures InStep(Run(env, Initial(authority, environment), arrivals))
  {
    hide Reuse;
    if arrivals != [] {
      var before, last := arrivals[..|arrivals| - 1], arrivals[|arrivals| - 1];
      InstalledIsAccepted(env, authority, environment, before);
      RefreshInStep(env, Run(env, Initial(authority, environment), before), last.bytes, last.nowMs);
    }
  }

  // ------------------------------------------------------------ catalog choice

  /** The catalog reads this gateway and the gateway reads this catalog. */
  predicate Compatible(gateway: Verified, catalog: Verified) {
    catalog.minimum <= gateway.sequence && catalog.sequence >= gateway.minimum
  }

  /** A catalog of the snapshot that goes with this gateway. */
  predicate Fits(c: Snapshot, gateway: Verified, id: Bytes) {
    && id in c.catalogs
    && gateway.sequence >= c.catalogs[id].value.minimum && c.catalogs[id].value.sequence >= gateway.minimum
  }

  /** `compatible_catalog`: nothing without current keys or for a gateway that is not approved. */
  method CompatibleCatalog(c: Snapshot, learned: Option<A.Learned>, gatewayId: Bytes) returns (best: Option<Bytes>)
    ensures best.Some? ==> A.RequireCurrent(learned, c.decision.keys).None? && gatewayId in c.gateways
    ensures best.Some? ==> Fits(c, c.gateways[gatewayId].value, best.value)
    ensures best.Some? ==> forall id :: Fits(c, c.gateways[gatewayId].value, id) ==>
      c.catalogs[id].value.sequence <= c.catalogs[best.value].value.sequence
    ensures best.None? && A.RequireCurrent(learned, c.decision.keys).None? && gatewayId in c.gateways ==>
      forall id :: id in c.catalogs ==> !Fits(c, c.gateways[gatewayId].value, id)
  {
    best := None;
    if A.RequireCurrent(learned, c.decision.keys).Some? || gatewayId !in c.gateways {
      return;
    }
    var gateway := c.gateways[gatewayId].value;
    var left := c.catalogs.Keys;
    while left != {}
      invariant left <= c.catalogs.Keys
      invariant best.None? ==> forall id :: id in c.catalogs && id !in left ==> !Fits(c, gateway, id)
      invariant best.Some? ==> Fits(c, gateway, best.value)
      invariant best.Some? ==> forall id :: id in c.catalogs && id !in left && Fits(c, gateway, id) ==>
        c.catalogs[id].value.sequence <= c.catalogs[best.value].value.sequence
      decreases |left|
    {
      var id :| id in left;
      left := left - {id};
      var catalog := c.catalogs[id].value;
      if Compatible(gateway, catalog) && (best.None? || catalog.sequence >= c.catalogs[best.value].value.sequence) {
        best := Some(id);
      }
    }
  }
}
