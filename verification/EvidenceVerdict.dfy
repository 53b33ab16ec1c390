/** What it means that an evidence document is installed, said of the document and not of the order of checks. */
module EvidenceVerdict {
  import opened Basics
  import opened EvidenceCache
  import A = Approvals
  import V = VendorCollateral

  // ------------------------------------------------------------------- times

  lemma {:induction false} EarliestIsLeast(timestamps: seq<int>)
    requires timestamps != []
    ensures Earliest(timestamps) in timestamps
    ensures forall i :: 0 <= i < |timestamps| ==> Earliest(timestamps) <= timestamps[i]
  {
    var n := |timestamps| - 1;
    if n > 0 {
      EarliestIsLeast(timestamps[..n]);
      assert forall i :: 0 <= i < n ==> timestamps[..n][i] == timestamps[i];
    }
  }

  /** At most a minute ahead of the clock, in milliseconds. */
  predicate NotAhead(time: int, nowMs: int) {
    1000 * time <= nowMs + 60_000
  }

  predicate InWindow(t: Times, time: int) {
    0 < time && t.notBefore <= time && time <= t.notAfter
  }

  predicate First(t: Times, i: nat)
    requires i < |t.timestamps|
  {
    forall j :: 0 <= j < |t.timestamps| ==> t.timestamps[i] <= t.timestamps[j]
  }

  /**
   * The times of a release hold exactly if no token and not the log is ahead of the clock, and the
   * log's time and the earliest token, if there is one, lie in the certificate's window.
   */
  lemma TimesMean(t: Times, nowMs: int)
    ensures TimesHold(t, nowMs) <==>
      && NotAhead(t.integrated, nowMs) && InWindow(t, t.integrated)
      && (forall i :: 0 <= i < |t.timestamps| ==> NotAhead(t.timestamps[i], nowMs))
      && (t.timestamps != [] ==> exists i :: 0 <= i < |t.timestamps| && First(t, i) && InWindow(t, t.timestamps[i]))
  {
    if t.timestamps != [] {
      EarliestIsLeast(t.timestamps);
      var i :| 0 <= i < |t.timestamps| && t.timestamps[i] == Earliest(t.timestamps);
    }
  }

  // ---------------------------------------------------------------- releases

  predicate Proven(env: Env, kind: Kind, trust: Trust, r: Release, nowMs: int) {
    env.proof(kind, trust, r.whole).Some? && TimesHold(env.proof(kind, trust, r.whole).value.times, nowMs)
  }

  predicate AllProven(env: Env, kind: Kind, trust: Trust, releases: seq<Release>, nowMs: int) {
    forall i :: 0 <= i < |releases| ==> Proven(env, kind, trust, releases[i], nowMs)
  }

  /** Among releases whose documents share a digest, the last one counts. */
  predicate LastOf(env: Env, releases: seq<Release>, i: nat)
    requires i < |releases|
  {
    forall j :: i < j < |releases| ==> env.sha(releases[j].document) != env.sha(releases[i].document)
  }

  function Digests(env: Env, releases: seq<Release>): set<Bytes> {
    set r | r in releases :: env.sha(r.document)
  }

  lemma DigestsSnoc(env: Env, releases: seq<Release>, r: Release)
    ensures Digests(env, releases + [r]) == Digests(env, releases) + {env.sha(r.document)}
  {
    assert forall x :: x in releases + [r] <==> x in releases || x == r;
  }

  /** The map holds the listed releases by the digests of their documents, each with its own proof's value. */
  ghost predicate Holds(env: Env, kind: Kind, trust: Trust, releases: seq<Release>, values: map<Bytes, Verified>) {
    && values.Keys == Digests(env, releases)
    && forall i :: 0 <= i < |releases| && LastOf(env, releases, i) ==>
         && env.sha(releases[i].document) in values
         && env.proof(kind, trust, releases[i].whole).Some?
         && values[env.sha(releases[i].document)] == env.proof(kind, trust, releases[i].whole).value.value
  }

  lemma {:induction false} CollectMeans(env: Env, kind: Kind, trust: Trust, releases: seq<Release>, nowMs: int)
    ensures var made := Collect(env, kind, trust, map[], releases, nowMs);
      && (made.Some? <==> AllProven(env, kind, trust, releases, nowMs))
      && (made.Some? ==> Holds(env, kind, trust, releases, Values(made.value)))
  {
    hide TimesHold;
    if releases != [] {
      var n := |releases| - 1;
      var front, r := releases[..n], releases[n];
      assert releases == front + [r];
      CollectMeans(env, kind, trust, front, nowMs);
      CollectProves(env, kind, trust, releases, nowMs);
      if AllProven(env, kind, trust, releases, nowMs) {
        CollectHolds(env, kind, trust, releases, nowMs);
      }
    }
  }

  lemma CollectProves(env: Env, kind: Kind, trust: Trust, releases: seq<Release>, nowMs: int)
    requires releases != []
    requires var front := releases[..|releases| - 1];
      Collect(env, kind, trust, map[], front, nowMs).Some? <==> AllProven(env, kind, trust, front, nowMs)
    ensures Collect(env, kind, trust, map[], releases, nowMs).Some? <==> AllProven(env, kind, trust, releases, nowMs)
  {
    hide TimesHold;
    var n := |releases| - 1;
    assert forall i :: 0 <= i < n ==> releases[..n][i] == releases[i];
  }

  lemma HoldsMore(env: Env, kind: Kind, trust: Trust, front: seq<Release>, values: map<Bytes, Verified>, r: Release)
    requires Holds(env, kind, trust, front, values) && env.proof(kind, trust, r.whole).Some?
    ensures Holds(env, kind, trust, front + [r],
      values[env.sha(r.document) := env.proof(kind, trust, r.whole).value.value])
  {
    var releases, id := front + [r], env.sha(r.document);
    var more := values[id := env.proof(kind, trust, r.whole).value.value];
    hide Digests;
    DigestsSnoc(env, front, r);
    forall i | 0 <= i < |releases| && LastOf(env, releases, i)
      ensures env.sha(releases[i].document) in more && env.proof(kind, trust, releases[i].whole).Some?
      ensures more[env.sha(releases[i].document)] == env.proof(kind, trust, releases[i].whole).value.value
    {
      if i < |front| {
        assert front[i] == releases[i] && releases[|front|] == r;
        assert LastOf(env, front, i) by {
          assert forall j :: i < j < |front| ==> front[j] == releases[j];
        }
      }
    }
  }

  lemma CollectHolds(env: Env, kind: Kind, trust: Trust, releases: seq<Release>, nowMs: int)
    requires releases != []
    requires var front := releases[..|releases| - 1]; var made := Collect(env, kind, trust, map[], front, nowMs);
      made.Some? && Holds(env, kind, trust, front, Values(made.value))
    requires Collect(env, kind, trust, map[], releases, nowMs).Some?
    ensures Holds(env, kind, trust, releases, Values(Collect(env, kind, trust, map[], releases, nowMs).value))
  {
    hide TimesHold, Holds, Values;
    var n := |releases| - 1;
    var front, r := releases[..n], releases[n];
    var before := Collect(env, kind, trust, map[], front, nowMs).value;
    ValuesUpdate(before, env.sha(r.document), Check(env, kind, trust, None, r, nowMs).value);
    HoldsMore(env, kind, trust, front, Values(before), r);
    assert releases == front + [r];
  }

  // ------------------------------------------------------------------ chains

  function Names(listings: seq<V.Listing>): set<Bytes> {
    set l | l in listings :: l.id
  }

  lemma NamesSnoc(listings: seq<V.Listing>, l: V.Listing)
    ensures Names(listings + [l]) == Names(listings) + {l.id}
  {
    assert forall x :: x in listings + [l] <==> x in listings || x == l;
  }

  predicate LastNamed(listings: seq<V.Listing>, i: nat)
    requires i < |listings|
  {
    forall j :: i < j < |listings| ==> listings[j].id != listings[i].id
  }

  /** The map holds the listed platforms, each with what its own chain establishes. */
  ghost predicate HoldsChains(v: V.Vendor, listings: seq<V.Listing>, platforms: map<Bytes, V.Platform>) {
    && platforms.Keys == Names(listings)
    && forall i :: 0 <= i < |listings| && LastNamed(listings, i) ==>
         listings[i].id in platforms && v.chain(listings[i]) == Some(platforms[listings[i].id])
  }

  lemma {:induction false} ChainsMean(v: V.Vendor, listings: seq<V.Listing>)
    ensures var made := V.Collect(v, map[], listings);
      && (made.Some? <==> forall i :: 0 <= i < |listings| ==> v.chain(listings[i]).Some?)
      && (made.Some? ==> HoldsChains(v, listings, V.Platforms(made.value)))
  {
    if listings != [] {
      var n := |listings| - 1;
      var front, l := listings[..n], listings[n];
      assert listings == front + [l];
      ChainsMean(v, front);
      assert V.Check(v, map[], l).Some? <==> v.chain(l).Some?;
      assert (forall i :: 0 <= i < |listings| ==> v.chain(listings[i]).Some?) <==>
        (forall i :: 0 <= i < |front| ==> v.chain(front[i]).Some?) && v.chain(l).Some?;
      if V.Collect(v, map[], listings).Some? {
        ChainsHold(v, listings);
      }
    }
  }

  lemma ChainsMore(v: V.Vendor, front: seq<V.Listing>, platforms: map<Bytes, V.Platform>, l: V.Listing)
    requires HoldsChains(v, front, platforms) && v.chain(l).Some?
    ensures HoldsChains(v, front + [l], platforms[l.id := v.chain(l).value])
  {
    hide Names;
    var listings, more := front + [l], platforms[l.id := v.chain(l).value];
    NamesSnoc(front, l);
    forall i | 0 <= i < |listings| && LastNamed(listings, i)
      ensures listings[i].id in more && v.chain(listings[i]) == Some(more[listings[i].id])
    {
      if i < |front| {
        assert front[i] == listings[i] && listings[|front|] == l;
        assert LastNamed(front, i) by {
          assert forall j :: i < j < |front| ==> front[j] == listings[j];
        }
      }
    }
  }

  lemma ChainsHold(v: V.Vendor, listings: seq<V.Listing>)
    requires listings != [] && V.Collect(v, map[], listings).Some?
    requires var made := V.Collect(v, map[], listings[..|listings| - 1]);
      made.Some? && HoldsChains(v, listings[..|listings| - 1], V.Platforms(made.value))
    ensures HoldsChains(v, listings, V.Platforms(V.Collect(v, map[], listings).value))
  {
    hide HoldsChains, V.Platforms;
    var n := |listings| - 1;
    var front, l := listings[..n], listings[n];
    var before := V.Collect(v, map[], front).value;
    V.PlatformsUpdate(before, l.id, V.Check(v, map[], l).value);
    ChainsMore(v, front, V.Platforms(before), l);
    assert listings == front + [l];
  }

  predicate AllChained(v: V.Vendor, rows: Bytes) {
    && v.listings(rows).Some?
    && forall i :: 0 <= i < |v.listings(rows).value| ==> v.chain(v.listings(rows).value[i]).Some?
  }

  // ----------------------------------------------------------------- verdict

  /** The keys a document brings, under the Sigstore keys it brings. */
  function KeysOf(env: Env, p: Parts, nowMs: int): Option<(Trust, A.Keys)> {
    if env.sigstore(p.sigstore).None? then None
    else
      var trust := env.sigstore(p.sigstore).value;
      if env.keys(p.keys, trust, nowMs).None? then None else Some((trust, env.keys(p.keys, trust, nowMs).value))
  }

  /** The manifest a document brings, under its own keys. */
  function ManifestOf(env: Env, p: Parts, nowMs: int): Option<Manifest> {
    if KeysOf(env, p, nowMs).None? || p.approvals.None? then None
    else
      var (trust, keys) := KeysOf(env, p, nowMs).value;
      env.manifest(keys, p.approvals.value, env.sha(p.sigstore), trust, nowMs)
  }

  /** What the verifier knows once it has learned the keys. */
  function Knowing(s: A.State, keys: A.Keys): A.State {
    s.(learned := Some(A.Learned(keys, false)))
  }

  /** Every check that a document has to pass, whatever order they are made in. */
  predicate Verifies(env: Env, s: State, bytes: Bytes, nowMs: int) {
    && env.parse(bytes).Some?
    && var p := env.parse(bytes).value;
       && KeysOf(env, p, nowMs).Some?
       && ManifestOf(env, p, nowMs).Some?
       && env.vendor.revoke(s.revoked, p.vendor, nowMs).1
       && var trust, keys, m := KeysOf(env, p, nowMs).value.0, KeysOf(env, p, nowMs).value.1,
            ManifestOf(env, p, nowMs).value;
          && A.KeysStand(s.approvals.learned, keys)
          && A.Acceptable(Knowing(s.approvals, keys), m.decision)
          && AllProven(env, Gateway, trust, m.gateways, nowMs)
          && AllProven(env, Catalog, trust, m.catalogs, nowMs)
          && env.hardware(m)
          && AllChained(env.vendor, p.vendor)
  }

  /** The snapshot holds what the document lists, and nothing else. */
  ghost predicate ShowsDocument(env: Env, c: Contents, bytes: Bytes, nowMs: int) {
    && env.parse(bytes).Some?
    && var p := env.parse(bytes).value;
       && KeysOf(env, p, nowMs).Some? && ManifestOf(env, p, nowMs).Some? && env.vendor.listings(p.vendor).Some?
       && var trust, m := KeysOf(env, p, nowMs).value.0, ManifestOf(env, p, nowMs).value;
          && c.sigstore == p.sigstore && c.trust == trust && c.decision == m.decision
          && Holds(env, Gateway, trust, m.gateways, c.gateways)
          && Holds(env, Catalog, trust, m.catalogs, c.catalogs)
          && HoldsChains(env.vendor, env.vendor.listings(p.vendor).value, c.platforms)
  }

  lemma LearnedExactly(s: A.State, keys: A.Keys)
    ensures A.Step(s, A.Observed(keys)).1.None? <==> A.KeysStand(s.learned, keys)
    ensures A.Step(s, A.Observed(keys)).1.None? ==> A.Step(s, A.Observed(keys)).0 == Knowing(s, keys)
  {
  }

  /** Decisions accepted so far are recorded, as in every reachable state. */
  predicate Recorded(s: State) {
    s.approvals.accepted.Some? ==> A.Recorded(s.approvals, s.approvals.accepted.value)
  }

  lemma KnowingKeepsRecord(s: State, keys: A.Keys)
    requires Recorded(s) && A.KeysStand(s.approvals.learned, keys)
    ensures Recorded(s.(approvals := Knowing(s.approvals, keys)))
  {
  }

  lemma UpdateExactly(s: A.State, c: A.Decision)
    requires s.accepted.Some? ==> A.Recorded(s, s.accepted.value)
    ensures A.CheckUpdate(s, c).None? <==> A.Acceptable(s, c)
  {
    A.AcceptedExactly(s, c);
    AcceptedIsPlain(s, c);
  }

  lemma ApprovedExactly(env: Env, s: State, bytes: Bytes, nowMs: int)
    requires Recorded(s)
    ensures var approved := Approve(env, s, None, bytes, nowMs).1;
      approved.Some? <==>
        && env.parse(bytes).Some?
        && var p := env.parse(bytes).value;
           && KeysOf(env, p, nowMs).Some? && ManifestOf(env, p, nowMs).Some?
           && env.vendor.revoke(s.revoked, p.vendor, nowMs).1
           && A.KeysStand(s.approvals.learned, KeysOf(env, p, nowMs).value.1)
           && var known := Knowing(s.approvals, KeysOf(env, p, nowMs).value.1);
              A.Acceptable(known, ManifestOf(env, p, nowMs).value.decision)
    ensures var (t, approved) := Approve(env, s, None, bytes, nowMs);
      approved.Some? ==>
        var p := env.parse(bytes).value;
        && approved.value == Approved(p.sigstore, KeysOf(env, p, nowMs).value.0, false, ManifestOf(env, p, nowMs).value,
             p.vendor)
        && t.approvals == Knowing(s.approvals, KeysOf(env, p, nowMs).value.1)
  {
    hide A.Step, A.CheckUpdate, A.KeysStand, A.Acceptable, Recorded, Knowing;
    if env.parse(bytes).Some? && KeysOf(env, env.parse(bytes).value, nowMs).Some? {
      var p := env.parse(bytes).value;
      var keys := KeysOf(env, p, nowMs).value.1;
      LearnedExactly(s.approvals, keys);
      if A.KeysStand(s.approvals.learned, keys) && ManifestOf(env, p, nowMs).Some? {
        KnowingKeepsRecord(s, keys);
        RecordedMeans(s.(approvals := Knowing(s.approvals, keys)));
        UpdateExactly(Knowing(s.approvals, keys), ManifestOf(env, p, nowMs).value.decision);
      }
    }
  }

  lemma RecordedMeans(s: State)
    requires Recorded(s)
    ensures s.approvals.accepted.Some? ==> A.Recorded(s.approvals, s.approvals.accepted.value)
  {
  }

  lemma BuildMeans(env: Env, p: Approved, nowMs: int)
    ensures var built := Build(env, None, p, nowMs);
      built.Some? <==>
        && AllProven(env, Gateway, p.trust, p.manifest.gateways, nowMs)
        && AllProven(env, Catalog, p.trust, p.manifest.catalogs, nowMs)
        && env.hardware(p.manifest)
        && AllChained(env.vendor, p.vendor)
    ensures var built := Build(env, None, p, nowMs);
      built.Some? ==>
        && env.vendor.listings(p.vendor).Some?
        && var c := View(built).value;
           && c.sigstore == p.files && c.trust == p.trust && c.decision == p.manifest.decision
           && Holds(env, Gateway, p.trust, p.manifest.gateways, c.gateways)
           && Holds(env, Catalog, p.trust, p.manifest.catalogs, c.catalogs)
           && HoldsChains(env.vendor, env.vendor.listings(p.vendor).value, c.platforms)
  {
    hide Collect, V.Collect, Holds, HoldsChains, AllProven, Values, V.Platforms;
    CollectMeans(env, Gateway, p.trust, p.manifest.gateways, nowMs);
    CollectMeans(env, Catalog, p.trust, p.manifest.catalogs, nowMs);
    if env.vendor.listings(p.vendor).Some? {
      ChainsMean(env.vendor, env.vendor.listings(p.vendor).value);
    }
  }

  /** A verifier that repeats every check installs a document exactly if it verifies, and then shows what it lists. */
  lemma RepeatExactly(env: Env, s: State, bytes: Bytes, nowMs: int)
    requires Recorded(s)
    ensures Repeat(env, s, bytes, nowMs).1 <==> Verifies(env, s, bytes, nowMs)
    ensures Repeat(env, s, bytes, nowMs).1 ==>
      var c := View(Repeat(env, s, bytes, nowMs).0.current); c.Some? && ShowsDocument(env, c.value, bytes, nowMs)
  {
    hide A.Step, A.CheckUpdate, A.KeysStand, A.Acceptable, Recorded, Knowing, Approve, Build, Holds, HoldsChains,
      AllProven, AllChained, Values, V.Platforms;
    ApprovedExactly(env, s, bytes, nowMs);
    var (t, approved) := Approve(env, s, None, bytes, nowMs);
    if approved.Some? {
      var p := env.parse(bytes).value;
      BuildMeans(env, approved.value, nowMs);
      KnowingKeepsRecord(s, KeysOf(env, p, nowMs).value.1);
      RecordedMeans(s.(approvals := Knowing(s.approvals, KeysOf(env, p, nowMs).value.1)));
      A.AcceptedExactly(t.approvals, approved.value.manifest.decision);
    }
  }

  lemma RefreshRecords(env: Env, s: State, bytes: Bytes, nowMs: int)
    requires Recorded(s)
    ensures Recorded(Reuse(env, s, bytes, nowMs).0)
  {
    hide Build, A.CheckUpdate;
    var (t, approved) := Approve(env, s, s.current, bytes, nowMs);
    ApproveRecords(env, s, s.current, bytes, nowMs);
    if approved.Some? {
      AcceptKeepsRecord(t, approved.value.manifest.decision);
    }
  }

  lemma ApproveRecords(env: Env, s: State, prior: Option<Snapshot>, bytes: Bytes, nowMs: int)
    requires Recorded(s)
    ensures Recorded(Approve(env, s, prior, bytes, nowMs).0)
  {
    hide A.CheckUpdate;
    if s.approvals.accepted.Some? && env.parse(bytes).Some? {
      var p := env.parse(bytes).value;
      var trust := Sigstore(env, prior, p.sigstore).0;
      if trust.Some? && env.keys(p.keys, trust.value, nowMs).Some? {
        var keys := env.keys(p.keys, trust.value, nowMs).value;
        A.StepKeepsRecord(s.approvals, A.Observed(keys), s.approvals.accepted.value);
      }
    }
  }

  lemma AcceptKeepsRecord(s: State, d: A.Decision)
    requires Recorded(s)
    ensures Recorded(s.(approvals := A.Step(s.approvals, A.Accepted(d)).0))
  {
    if A.Step(s.approvals, A.Accepted(d)).1.None? {
      A.AcceptRecords(s.approvals, d);
    } else if s.approvals.accepted.Some? {
      A.StepKeepsRecord(s.approvals, A.Accepted(d), s.approvals.accepted.value);
    }
  }

  lemma {:induction false} RunRecords(env: Env, authority: Bytes, environment: string, arrivals: seq<Arrival>)
    ensures Recorded(Run(env, Initial(authority, environment), arrivals))
  {
    hide Reuse, Recorded;
    if arrivals == [] {
      FreshRecords(authority, environment);
    } else {
      var before, last := arrivals[..|arrivals| - 1], arrivals[|arrivals| - 1];
      RunRecords(env, authority, environment, before);
      RefreshRecords(env, Run(env, Initial(authority, environment), before), last.bytes, last.nowMs);
    }
  }

  lemma FreshRecords(authority: Bytes, environment: string)
    ensures Recorded(Initial(authority, environment))
  {
  }

  /**
   * After any run without a digest collision, the verifier with its cache installs the next
   * document exactly if every check passes at that clock reading, and then shows what it lists.
   */
  lemma InstalledExactly(env: Env, authority: Bytes, environment: string, arrivals: seq<Arrival>, next: Arrival)
    requires CleanRun(env, Initial(authority, environment), arrivals + [next])
    ensures var s := Run(env, Initial(authority, environment), arrivals);
      var (t, installed) := Reuse(env, s, next.bytes, next.nowMs);
      && (installed <==> Verifies(env, s, next.bytes, next.nowMs))
      && (installed ==> View(t.current).Some? && ShowsDocument(env, View(t.current).value, next.bytes, next.nowMs))
  {
    hide Reuse, Repeat, View, Clean, Verifies, ShowsDocument, Recorded, Valid;
    var start := Initial(authority, environment);
    assert (arrivals + [next])[..|arrivals|] == arrivals;
    var s := Run(env, start, arrivals);
    CacheNeverShows(env, authority, environment, arrivals);
    RunRecords(env, authority, environment, arrivals);
    RefreshAgrees(env, s, s, next.bytes, next.nowMs);
    RepeatExactly(env, s, next.bytes, next.nowMs);
  }
}
