/** What the registry sink guarantees about outcomes and about a committed tag. */
module RegistryFacts {
  import opened Oci
  import opened ImageDirs
  import opened ImageDirFacts
  import opened Registry
  import opened RegistrySink
  import opened Sinks

  // ── conservation ──

  lemma {:induction false} ContentMembers(image: ImageDir, k: nat, g: string)
    requires k <= |image.referenced|
    ensures g in ContentList(image, k) <==> g in Digests(image.referenced[..k]) && !IsManifest(image, g)
  {
    if k > 0 {
      ContentMembers(image, k - 1, g);
      assert image.referenced[..k] == image.referenced[..k - 1] + [image.referenced[k - 1]];
    }
  }

  predicate DigestsDistinct(ds: seq<Descriptor>) { forall i, j :: 0 <= i < j < |ds| ==> ds[i].digest != ds[j].digest }

  lemma NotBefore(ds: seq<Descriptor>, k: nat)
    requires DigestsDistinct(ds) && k < |ds|
    ensures ds[k].digest !in Digests(ds[..k])
  {
  }

  lemma {:induction false} ContentOnce(image: ImageDir, k: nat, g: string)
    requires k <= |image.referenced| && DigestsDistinct(image.referenced)
    ensures multiset(ContentList(image, k))[g] <= 1
  {
    if k > 0 {
      var d, before := image.referenced[k - 1].digest, ContentList(image, k - 1);
      ContentOnce(image, k - 1, g);
      NotBefore(image.referenced, k - 1);
      ContentMembers(image, k - 1, d);
      if !IsManifest(image, d) { OnceMore(before, d, g); } else { assert before + [] == before; }
    }
  }

  lemma OnceMore(ds: seq<string>, d: string, g: string)
    requires d !in ds && multiset(ds)[g] <= 1
    ensures multiset(ds + [d])[g] <= 1
  {
    assert multiset(ds + [d]) == multiset(ds) + multiset{d};
  }

  /** What `ImageDir::open` guarantees and the sink relies on. */
  ghost predicate Validated(image: ImageDir)
  {
    && Named(image) && DigestsDistinct(image.referenced)
    && image.primary.digest in Digests(image.referenced) && Digests(image.referrers) <= Digests(image.referenced)
    && image.primary.digest !in Digests(image.referrers)
  }

  lemma OpenValidates(c: Codec, dir: Files)
    requires WellFormed(c, dir)
    ensures Validated(View(c, dir))
  {
    var p, rs, v := PrimaryEntry(c, dir), ReferrerEntries(c, dir), View(c, dir);
    var all := Body(p, rs) + [p.desc];
    ClosureNames(p, rs);
    LoadedCoherent(c, dir);
    EntriesComplete(c, dir);
    FirstOccurrences(all);
    forall i, j | 0 <= i < j < |v.referenced| ensures v.referenced[i].digest != v.referenced[j].digest {
      assert FirstIndex(all, v.referenced[i].digest) < FirstIndex(all, v.referenced[j].digest);
    }
    forall i | 0 <= i < |rs| ensures Addressable(v.referrers[i].digest) && v.referrers[i].digest != p.desc.digest {
      assert Present(dir, rs[i].desc.digest);
    }
  }

  lemma ReferrerMembers(image: ImageDir, g: string)
    ensures g in Referrers(image) <==> g in Digests(image.referrers)
  {
    if g in Digests(image.referrers) {
      var i :| 0 <= i < |image.referrers| && image.referrers[i].digest == g;
      assert Referrers(image)[i] == g;
    }
  }

  /** Pushed and skipped digests together are exactly the referenced ones, whatever was replied. */
  lemma OutcomeConserves(image: ImageDir, data: Content, o: PublishOutcome, g: string)
    requires Validated(image) && Accounts(data, PushOrder(image), o)
    ensures g in o.pushed || g in o.skipped <==> g in Digests(image.referenced)
  {
    var n := |image.referenced|;
    assert image.referenced[..n] == image.referenced;
    ContentMembers(image, n, g);
    ReferrerMembers(image, g);
    assert g in o.pushed || g in o.skipped <==> g in multiset(o.pushed) + multiset(o.skipped);
    assert g in PushOrder(image) <==> g in multiset(PushOrder(image));
  }

  predicate Disjoint(o: PublishOutcome) { forall g :: g in o.pushed ==> g !in o.skipped }

  /** Without a repeated referrer the two lists are disjoint and duplicate-free, whatever was replied. */
  lemma OutcomeDisjoint(image: ImageDir, data: Content, o: PublishOutcome)
    requires Validated(image) && DigestsDistinct(image.referrers) && Accounts(data, PushOrder(image), o)
    ensures Disjoint(o) && forall g :: multiset(o.pushed)[g] + multiset(o.skipped)[g] <= 1
  {
    forall g ensures multiset(o.pushed)[g] + multiset(o.skipped)[g] <= 1 {
      PushedOnce(image, g);
      assert (multiset(o.pushed) + multiset(o.skipped))[g] == multiset(PushOrder(image))[g];
    }
    forall g | g in o.pushed ensures g !in o.skipped {
      assert g in multiset(o.pushed) && (g in o.skipped ==> g in multiset(o.skipped));
    }
  }

  lemma PushedOnce(image: ImageDir, g: string)
    requires Validated(image) && DigestsDistinct(image.referrers)
    ensures multiset(PushOrder(image))[g] <= 1
  {
    var n := |image.referenced|;
    assert image.referenced[..n] == image.referenced;
    ContentMembers(image, n, g);
    ContentOnce(image, n, g);
    ReferrerMembers(image, g);
    DistinctOnce(Referrers(image), g);
    assert multiset(PushOrder(image)) ==
      multiset(AllContent(image)) + multiset(Referrers(image)) + multiset{image.primary.digest};
  }

  lemma {:induction false} DistinctOnce(ds: seq<string>, g: string)
    requires forall i, j :: 0 <= i < j < |ds| ==> ds[i] != ds[j]
    ensures multiset(ds)[g] <= 1
  {
    if ds != [] {
      var n := |ds| - 1;
      assert ds == ds[..n] + [ds[n]];
      DistinctOnce(ds[..n], g);
      assert ds[n] !in ds[..n];
    }
  }

  lemma {:induction false} TallyMembers(data: Content, has: set<string>, ds: seq<string>, o: PublishOutcome, g: string)
    ensures var t := Tally(data, has, ds, o);
      && (g in t.pushed <==> g in o.pushed || (g in ds && g !in has))
      && (g in t.skipped <==> g in o.skipped || (g in ds && g in has) || multiset(ds)[g] > 1)
  {
    if ds != [] {
      var n := |ds| - 1;
      assert ds == ds[..n] + [ds[n]];
      TallyMembers(data, has, ds[..n], o, g);
      assert g in ds[..n] <==> multiset(ds[..n])[g] > 0;
    }
  }

  /**
   * Against a fault-free registry the lists are disjoint exactly when no referrer that the
   * registry lacked is listed twice.
   */
  lemma DisjointExactly(image: ImageDir, data: Content, s: Store)
    requires Validated(image)
    ensures Disjoint(PublishedOutcome(image, data, s)) <==>
      forall g :: multiset(Referrers(image))[g] > 1 ==> g in s.manifests
  {
    var content := Tally(data, s.blobs.Keys, AllContent(image), EMPTY_OUTCOME);
    var o := PublishedOutcome(image, data, s);
    var n, p := |image.referenced|, image.primary.digest;
    assert image.referenced[..n] == image.referenced;
    forall g ensures g in o.pushed && g in o.skipped <==> multiset(Referrers(image))[g] > 1 && g !in s.manifests {
      TallyMembers(data, s.blobs.Keys, AllContent(image), EMPTY_OUTCOME, g);
      TallyMembers(data, s.manifests.Keys, Referrers(image), content, g);
      ContentMembers(image, n, g);
      ContentOnce(image, n, g);
      ReferrerMembers(image, g);
      assert g in Referrers(image) <==> multiset(Referrers(image))[g] > 0;
      assert g in o.pushed <==> g in Tally(data, s.manifests.Keys, Referrers(image), content).pushed || g == p;
    }
  }

  // ── what a committed tag means ──

  /** The manifests, and everything they name, are in the registry. */
  ghost predicate EntriesThere(p: Entry, rs: seq<Entry>, s: Store)
  {
    && p.desc.digest in s.manifests && ChildDigests(p.manifest) <= s.blobs.Keys
    && (forall e <- rs :: e.desc.digest in s.manifests && ChildDigests(e.manifest) <= s.blobs.Keys)
  }

  lemma ContentThereCloses(image: ImageDir, p: Entry, rs: seq<Entry>, s: Store)
    requires image.primary == p.desc && image.referrers == Descs(rs) && ManifestsNotContent(p, rs)
    requires ContentDigests(p, rs) <= Digests(image.referenced)
    requires ContentThere(image, s) && p.desc.digest in s.manifests
    ensures EntriesThere(p, rs, s)
  {
    forall g | g in ContentDigests(p, rs) ensures g in s.blobs { ContentIsPushed(image, p, rs, g); }
    forall e | e in rs ensures e.desc.digest in s.manifests && ChildDigests(e.manifest) <= s.blobs.Keys {
      var i :| 0 <= i < |rs| && rs[i] == e;
      assert image.referrers[i] == e.desc;
      ReferrerMembers(image, e.desc.digest);
    }
  }

  /**
   * In every state of a publication the tag is as it was, or it names the primary and the
   * primary, every referrer and all their configs and layers are in the registry.
   */
  lemma CommitIsClosed(c: Codec, dir: Files, tag: string, before: Store, s: Store)
    requires WellFormed(c, dir) && ManifestsNotContent(PrimaryEntry(c, dir), ReferrerEntries(c, dir))
    requires Committed(View(c, dir), tag, before, s)
    ensures
      || s.tags == before.tags
      || (s.tags == before.tags[tag := View(c, dir).primary.digest]
        && EntriesThere(PrimaryEntry(c, dir), ReferrerEntries(c, dir), s))
  {
    if s.tags != before.tags {
      ContentReferenced(c, dir);
      ContentThereCloses(View(c, dir), PrimaryEntry(c, dir), ReferrerEntries(c, dir), s);
    }
  }

  lemma ContentReferenced(c: Codec, dir: Files)
    requires WellFormed(c, dir)
    ensures ContentDigests(PrimaryEntry(c, dir), ReferrerEntries(c, dir)) <= Digests(View(c, dir).referenced)
  {
    var rs := ReferrerEntries(c, dir);
    ClosureReferenced(c, dir);
    forall e | e in rs ensures ChildDigests(e.manifest) <= Digests(View(c, dir).referenced) {
      var i :| 0 <= i < |rs| && rs[i] == e;
    }
  }

  /** Content that is no manifest is pushed as a blob. */
  lemma ContentIsPushed(image: ImageDir, p: Entry, rs: seq<Entry>, g: string)
    requires image.primary == p.desc && image.referrers == Descs(rs) && ManifestsNotContent(p, rs)
    requires ContentDigests(p, rs) <= Digests(image.referenced) && g in ContentDigests(p, rs)
    ensures g in AllContent(image)
  {
    var n := |image.referenced|;
    assert image.referenced[..n] == image.referenced;
    assert g !in ManifestDigests(p, rs);
    ContentMembers(image, n, g);
  }
}
