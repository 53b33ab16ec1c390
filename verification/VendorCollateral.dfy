/** The vendor's certificates behind a snapshot: a store that reuses the chains it has verified before. */
module VendorCollateral {
  import opened Basics

  /** One platform's endorsement key and the certificates of its product. */
  datatype Listing = Listing(id: Bytes, ark: Bytes, ask: Bytes, vek: Bytes)

  /** What a verified chain establishes of its platform. */
  datatype Platform = Platform(facts: Bytes)

  /** The revocations learned so far. */
  datatype Revoked = Revoked(lists: Bytes)

  /**
   * The checks of the vendor's part: a digest, the complete listings of a bundle's rows, the
   * certificate chain of one platform, and the revocation lists in the rows.
   */
  datatype Vendor = Vendor(
    sha: Bytes -> Bytes,
    listings: Bytes -> Option<seq<Listing>>,
    chain: Listing -> Option<Platform>,
    revoke: (Revoked, Bytes, int) -> (Revoked, bool))

  /** A verified platform. Its digest is that of its three certificates, each of one length. */
  datatype Kept = Kept(source: Listing, digest: (Bytes, Bytes, Bytes), platform: Platform)

  function Digest(v: Vendor, l: Listing): (Bytes, Bytes, Bytes) {
    (v.sha(l.ark), v.sha(l.ask), v.sha(l.vek))
  }

  /** Reuse the platform's entry if its certificates have the same digests. */
  function Check(v: Vendor, prior: map<Bytes, Kept>, l: Listing): Option<Kept> {
    if l.id in prior && prior[l.id].digest == Digest(v, l) then Some(prior[l.id])
    else if v.chain(l).None? then None
    else Some(Kept(l, Digest(v, l), v.chain(l).value))
  }

  function Collect(v: Vendor, prior: map<Bytes, Kept>, listings: seq<Listing>): Option<map<Bytes, Kept>> {
    if listings == [] then Some(map[])
    else
      var l := listings[|listings| - 1];
      var front, kept := Collect(v, prior, listings[..|listings| - 1]), Check(v, prior, l);
      if front.None? || kept.None? then None else Some(front.value[l.id := kept.value])
  }

  /** The store of a bundle's rows. */
  function Stored(v: Vendor, prior: map<Bytes, Kept>, rows: Bytes): Option<map<Bytes, Kept>> {
    var listings := v.listings(rows);
    if listings.None? then None else Collect(v, prior, listings.value)
  }

  /** `Store::verify`. */
  method VerifyStore(v: Vendor, prior: map<Bytes, Kept>, rows: Bytes) returns (r: Option<map<Bytes, Kept>>)
    ensures r == Stored(v, prior, rows)
  {
    var listings := v.listings(rows);
    if listings.None? {
      return None;
    }
    var platforms: map<Bytes, Kept> := map[];
    for i := 0 to |listings.value|
      invariant Collect(v, prior, listings.value[..i]) == Some(platforms)
    {
      assert listings.value[..i + 1][..i] == listings.value[..i];
      var kept := Check(v, prior, listings.value[i]);
      if kept.None? {
        CollectFails(v, prior, listings.value, i + 1);
        return None;
      }
      platforms := platforms[listings.value[i].id := kept.value];
    }
    assert listings.value[..|listings.value|] == listings.value;
    return Some(platforms);
  }

  lemma {:induction false} CollectFails(v: Vendor, prior: map<Bytes, Kept>, listings: seq<Listing>, n: nat)
    requires n <= |listings| && Collect(v, prior, listings[..n]).None?
    ensures Collect(v, prior, listings).None?
    decreases |listings| - n
  {
    if n < |listings| {
      assert listings[..n + 1][..n] == listings[..n];
      CollectFails(v, prior, listings, n + 1);
    } else {
      assert listings[..n] == listings;
    }
  }

  // ------------------------------------------------------------------ agreement

  ghost predicate Sound(v: Vendor, id: Bytes, e: Kept) {
    e.source.id == id && e.digest == Digest(v, e.source) && v.chain(e.source) == Some(e.platform)
  }

  ghost predicate AllSound(v: Vendor, platforms: map<Bytes, Kept>) {
    forall id :: id in platforms ==> Sound(v, id, platforms[id])
  }

  /** A listing whose certificates have the digests of a kept one has its certificates. */
  ghost predicate NoClash(v: Vendor, platforms: map<Bytes, Kept>, rows: Bytes) {
    v.listings(rows).Some? ==> NoneClash(v, platforms, v.listings(rows).value)
  }

  ghost predicate NoneClash(v: Vendor, platforms: map<Bytes, Kept>, listings: seq<Listing>) {
    forall i :: 0 <= i < |listings| ==> Unmistaken(v, platforms, listings[i])
  }

  predicate Unmistaken(v: Vendor, platforms: map<Bytes, Kept>, l: Listing) {
    l.id in platforms && Digest(v, platforms[l.id].source) == Digest(v, l) ==>
      platforms[l.id].source.(id := l.id) == l
  }

  function Platforms(kept: map<Bytes, Kept>): map<Bytes, Platform> {
    map id | id in kept :: kept[id].platform
  }

  lemma CheckAgrees(v: Vendor, prior: map<Bytes, Kept>, l: Listing)
    requires AllSound(v, prior) && Unmistaken(v, prior, l)
    ensures var kept, made := Check(v, prior, l), Check(v, map[], l);
      && (kept.Some? <==> made.Some?)
      && (kept.Some? ==> kept.value.platform == made.value.platform && Sound(v, l.id, kept.value))
  {
    if l.id in prior {
      assert Sound(v, l.id, prior[l.id]);
    }
  }

  lemma PlatformsUpdate(kept: map<Bytes, Kept>, id: Bytes, e: Kept)
    ensures Platforms(kept[id := e]) == Platforms(kept)[id := e.platform]
  {
  }

  lemma SoundUpdate(v: Vendor, kept: map<Bytes, Kept>, id: Bytes, e: Kept)
    requires AllSound(v, kept) && Sound(v, id, e)
    ensures AllSound(v, kept[id := e])
  {
  }

  lemma {:induction false} CollectAgrees(v: Vendor, prior: map<Bytes, Kept>, listings: seq<Listing>)
    requires AllSound(v, prior) && NoneClash(v, prior, listings)
    ensures var kept, made := Collect(v, prior, listings), Collect(v, map[], listings);
      && (kept.Some? <==> made.Some?)
      && (kept.Some? ==> Platforms(kept.value) == Platforms(made.value) && AllSound(v, kept.value))
  {
    hide Sound, Check, Platforms, Unmistaken;
    if listings != [] {
      var front, l := listings[..|listings| - 1], listings[|listings| - 1];
      assert NoneClash(v, prior, front);
      CollectAgrees(v, prior, front);
      CheckAgrees(v, prior, l);
      var kept, made := Collect(v, prior, front), Collect(v, map[], front);
      var entry, again := Check(v, prior, l), Check(v, map[], l);
      if kept.Some? && entry.Some? {
        PlatformsUpdate(kept.value, l.id, entry.value);
        PlatformsUpdate(made.value, l.id, again.value);
        SoundUpdate(v, kept.value, l.id, entry.value);
      }
    }
  }

  /** A store that reuses verified chains holds what one that verifies every chain holds. */
  lemma StoreAgrees(v: Vendor, prior: map<Bytes, Kept>, rows: Bytes)
    requires AllSound(v, prior) && NoClash(v, prior, rows)
    ensures var kept, made := Stored(v, prior, rows), Stored(v, map[], rows);
      && (kept.Some? <==> made.Some?)
      && (kept.Some? ==> Platforms(kept.value) == Platforms(made.value) && AllSound(v, kept.value))
  {
    if v.listings(rows).Some? {
      CollectAgrees(v, prior, v.listings(rows).value);
    }
  }
}
