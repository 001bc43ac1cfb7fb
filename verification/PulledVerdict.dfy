/** Verifying an image that was published and pulled back gives the verdict on the original. */
module PulledVerdict {
  import opened Wrappers
  import opened Json
  import opened Oci
  import opened ImageDirs
  import opened ImageDirFacts
  import opened VerifyEngine
  import opened RoundTrip

  // ── the order of referrers ──

  /** Two payloads that claim the same slot. */
  predicate SameSlot(x: Carried, y: Carried)
  {
    x.Something? && y.Something? && Classify(x.artifactType) == Classify(y.artifactType)
      && Classify(x.artifactType) != Unknown
  }

  /** Nothing placed after it took its slot. */
  predicate Stays(x: Carried, s: Slots) { Place(x, s) == s }

  /** Whether two payloads may change places. */
  lemma OrderMattersExactly(x: Carried, y: Carried, s: Slots)
    ensures Place(x, Place(y, s)) == Place(y, Place(x, s)) <==> (SameSlot(x, y) ==> Place(x, s) == Place(y, s))
  {
  }

  /** Of each class the list has the payload of one digest. */
  ghost predicate OneEach(read: Reader, ds: seq<Descriptor>)
  {
    forall d, e :: d in ds && e in ds && read(d).Ok? && read(e).Ok? && SameSlot(read(d).value, read(e).value) ==>
      d.digest == e.digest
  }

  /** Descriptors of one digest read the same in both lists. */
  ghost predicate Agree(read: Reader, ds: seq<Descriptor>, read': Reader, ds': seq<Descriptor>)
  {
    forall d, e :: d in ds && e in ds' && d.digest == e.digest ==> read(d) == read'(e)
  }

  ghost predicate Readable(read: Reader, ds: seq<Descriptor>) { forall d <- ds :: read(d).Ok? }

  lemma {:induction false} WalkReads(read: Reader, ds: seq<Descriptor>, s: Slots)
    ensures Walk(read, ds, s).Ok? <==> Readable(read, ds)
  {
    if ds != [] {
      var n := |ds| - 1;
      assert ds == ds[..n] + [ds[n]];
      WalkReads(read, ds[..n], s);
    }
  }

  /** What a list carries stays in its slot when no class is claimed by two payloads. */
  ghost predicate Single(read: Reader, ds: seq<Descriptor>)
  {
    forall d, e :: d in ds && e in ds && read(d).Ok? && read(e).Ok? && SameSlot(read(d).value, read(e).value) ==>
      read(d) == read(e)
  }

  lemma {:induction false} WalkHolds(read: Reader, ds: seq<Descriptor>, s: Slots, d: Descriptor)
    requires Readable(read, ds) && Single(read, ds) && d in ds && Walk(read, ds, s).Ok?
    ensures Stays(read(d).value, Walk(read, ds, s).value)
  {
    var n := |ds| - 1;
    assert ds == ds[..n] + [ds[n]];
    WalkReads(read, ds[..n], s);
    var x, y, before := read(d).value, read(ds[n]).value, Walk(read, ds[..n], s).value;
    if d in ds[..n] {
      WalkHolds(read, ds[..n], s, d);
      if SameSlot(x, y) { assert x == y; }
    }
    StaysPlaced(x, y, before);
  }

  lemma StaysPlaced(x: Carried, y: Carried, s: Slots)
    requires x == y || (Stays(x, s) && !SameSlot(x, y))
    ensures Stays(x, Place(y, s))
  {
  }

  /** The payload that fills a slot. */
  predicate Fills(x: Carried, class_: ArtifactClass, s: Slots)
  {
    x.Something? && Classify(x.artifactType) == class_ && Stays(x, s)
  }

  predicate Empty(class_: ArtifactClass, s: Slots)
  {
    match class_
    case Slsa => s.slsa.None?
    case Sbom => s.sbom.None?
    case Sig => s.sig.None?
    case Unknown => true
  }

  /** A filled slot was filled by something in the list. */
  lemma {:induction false} WalkFrom(read: Reader, ds: seq<Descriptor>, class_: ArtifactClass) returns (d: Descriptor)
    requires Walk(read, ds, NO_SLOTS).Ok? && !Empty(class_, Walk(read, ds, NO_SLOTS).value)
    ensures d in ds && read(d).Ok? && Fills(read(d).value, class_, Walk(read, ds, NO_SLOTS).value)
  {
    var n := |ds| - 1;
    assert ds == ds[..n] + [ds[n]];
    var x := read(ds[n]).value;
    if x.Something? && Classify(x.artifactType) == class_ {
      d := ds[n];
    } else {
      d := WalkFrom(read, ds[..n], class_);
    }
  }

  lemma SlotCarried(read: Reader, ds: seq<Descriptor>, read': Reader, ds': seq<Descriptor>, class_: ArtifactClass)
    requires Agree(read, ds, read', ds') && Digests(ds) == Digests(ds') && Readable(read', ds') && Single(read', ds')
    requires Walk(read, ds, NO_SLOTS).Ok? && Walk(read', ds', NO_SLOTS).Ok?
    requires !Empty(class_, Walk(read, ds, NO_SLOTS).value)
    ensures exists x ::
      Fills(x, class_, Walk(read, ds, NO_SLOTS).value) && Fills(x, class_, Walk(read', ds', NO_SLOTS).value)
  {
    var d := WalkFrom(read, ds, class_);
    assert d.digest in Digests(ds');
    var e :| e in ds' && e.digest == d.digest;
    WalkHolds(read', ds', NO_SLOTS, e);
    assert Fills(read(d).value, class_, Walk(read', ds', NO_SLOTS).value);
  }

  /** Two outcomes whose filled slots are filled by the same payloads are the same. */
  lemma SlotsSame(s: Slots, t: Slots)
    requires forall class_ :: !Empty(class_, s) ==> exists x :: Fills(x, class_, s) && Fills(x, class_, t)
    requires forall class_ :: !Empty(class_, t) ==> exists x :: Fills(x, class_, t) && Fills(x, class_, s)
    ensures s == t
  {
    OneSlot(s, t, Slsa);
    OneSlot(s, t, Sbom);
    OneSlot(s, t, Sig);
  }

  predicate SlotEqual(class_: ArtifactClass, s: Slots, t: Slots)
  {
    match class_
    case Slsa => s.slsa == t.slsa
    case Sbom => s.sbom == t.sbom
    case Sig => s.sig == t.sig
    case Unknown => true
  }

  lemma OneSlot(s: Slots, t: Slots, class_: ArtifactClass)
    requires !Empty(class_, s) ==> exists x :: Fills(x, class_, s) && Fills(x, class_, t)
    requires !Empty(class_, t) ==> exists x :: Fills(x, class_, t) && Fills(x, class_, s)
    ensures SlotEqual(class_, s, t)
  {
    if !Empty(class_, s) {
      var x :| Fills(x, class_, s) && Fills(x, class_, t);
    }
  }

  lemma OneEachSingle(read: Reader, ds: seq<Descriptor>, read': Reader, ds': seq<Descriptor>)
    requires OneEach(read, ds) && Agree(read, ds, read', ds') && Digests(ds) == Digests(ds')
    ensures Single(read, ds) && Single(read', ds')
  {
    forall d, e | d in ds && e in ds && read(d).Ok? && read(e).Ok? && SameSlot(read(d).value, read(e).value)
      ensures read(d) == read(e)
    {
      var d' := Partner(ds, ds', d);
      assert read(d) == read'(d') == read(e);
    }
    forall d, e | d in ds' && e in ds' && read'(d).Ok? && read'(e).Ok? && SameSlot(read'(d).value, read'(e).value)
      ensures read'(d) == read'(e)
    {
      var d' := Partner(ds', ds, d);
      var e' := Partner(ds', ds, e);
      assert read(d') == read'(d) && read(e') == read'(e);
      assert d'.digest == e'.digest && read(d') == read'(e);
    }
  }

  lemma Partner(ds: seq<Descriptor>, ds': seq<Descriptor>, d: Descriptor) returns (e: Descriptor)
    requires Digests(ds) == Digests(ds') && d in ds
    ensures e in ds' && e.digest == d.digest
  {
    assert d.digest in Digests(ds');
    e :| e in ds' && e.digest == d.digest;
  }

  /**
   * Two lists of the same digests, read alike, with at most one referrer of each class: in
   * whatever order they are walked, both walks fail or both fill the same slots.
   */
  lemma WalksAgree(read: Reader, ds: seq<Descriptor>, read': Reader, ds': seq<Descriptor>)
    requires OneEach(read, ds) && Agree(read, ds, read', ds') && Digests(ds) == Digests(ds')
    ensures Walk(read', ds', NO_SLOTS).Ok? <==> Walk(read, ds, NO_SLOTS).Ok?
    ensures Walk(read, ds, NO_SLOTS).Ok? ==> Walk(read', ds', NO_SLOTS) == Walk(read, ds, NO_SLOTS)
  {
    WalkReads(read, ds, NO_SLOTS);
    WalkReads(read', ds', NO_SLOTS);
    BothReadable(read, ds, read', ds');
    OneEachSingle(read, ds, read', ds');
    if Readable(read, ds) {
      forall class_ | !Empty(class_, Walk(read, ds, NO_SLOTS).value)
        ensures exists x ::
          Fills(x, class_, Walk(read, ds, NO_SLOTS).value) && Fills(x, class_, Walk(read', ds', NO_SLOTS).value) {
        SlotCarried(read, ds, read', ds', class_);
      }
      forall class_ | !Empty(class_, Walk(read', ds', NO_SLOTS).value)
        ensures exists x ::
          Fills(x, class_, Walk(read', ds', NO_SLOTS).value) && Fills(x, class_, Walk(read, ds, NO_SLOTS).value) {
        AgreeBack(read, ds, read', ds');
        SlotCarried(read', ds', read, ds, class_);
      }
      SlotsSame(Walk(read, ds, NO_SLOTS).value, Walk(read', ds', NO_SLOTS).value);
    }
  }

  lemma AgreeBack(read: Reader, ds: seq<Descriptor>, read': Reader, ds': seq<Descriptor>)
    requires Agree(read, ds, read', ds')
    ensures Agree(read', ds', read, ds)
  {
  }

  lemma BothReadable(read: Reader, ds: seq<Descriptor>, read': Reader, ds': seq<Descriptor>)
    requires Agree(read, ds, read', ds') && Digests(ds) == Digests(ds')
    ensures Readable(read, ds) <==> Readable(read', ds')
  {
    forall d | d in ds
      ensures exists e :: e in ds' && read'(e) == read(d)
    {
      var e := Partner(ds, ds', d);
      assert read'(e) == read(d);
    }
    forall d | d in ds'
      ensures exists e :: e in ds && read(e) == read'(d)
    {
      var e := Partner(ds', ds, d);
      assert read(e) == read'(d);
    }
  }

  // ── the same image is read alike ──

  /** The referrer manifest states its artifact type itself. */
  predicate StatesType(c: Codec, dir: Files, digest: string)
  {
    var b := BlobBytes(dir, digest);
    var j := if b.Some? then c.parse(b.value) else None;
    var m := if j.Some? then DecodeRefManifest(j.value) else None;
    m.Some? && m.value.artifactType.Some?
  }

  /** Where a manifest leaves its type to its descriptor, the two lists describe it alike. */
  ghost predicate TypesAgree(c: Codec, dir: Files, ds: seq<Descriptor>, ds': seq<Descriptor>)
  {
    forall d, e :: d in ds && e in ds' && d.digest == e.digest ==>
      StatesType(c, dir, d.digest) || e.artifactType == d.artifactType
  }

  /** The layer a verifier reads is a layer of the manifest the layout reader read. */
  lemma FirstLayerNamed(j: Json)
    requires DecodeManifest(j).Some? && DecodeRefManifest(j).Some? && DecodeRefManifest(j).value.layers != []
    ensures DecodeRefManifest(j).value.layers[0].1 in Digests(DecodeManifest(j).value.layers)
  {
    var a := Field(j, "layers").value.a;
    var ls, rs := DecodeManifest(j).value.layers, DecodeRefManifest(j).value.layers;
    assert DecodeDescriptor(a[0]) == Some(ls[0]) && DecodeLayer(a[0]) == Some(rs[0]);
    assert ls[0] in ls;
  }

  lemma ReadAlike(c: Codec, dir: Files, f: Files, d: Descriptor, e: Descriptor)
    requires d.digest == e.digest && (StatesType(c, dir, d.digest) || e.artifactType == d.artifactType)
    requires SameBlob(dir, f, d.digest) && StoredManifest(c, dir, d.digest).Some?
    requires forall g <- Digests(StoredManifest(c, dir, d.digest).value.layers) :: SameBlob(dir, f, g)
    ensures Reads(c, f)(e) == Reads(c, dir)(d)
  {
    var j := c.parse(BlobBytes(dir, d.digest).value);
    if DecodeRefManifest(j.value).Some? && DecodeRefManifest(j.value).value.layers != [] { FirstLayerNamed(j.value); }
  }

  /** Everything a referrer of the image names is the same in both directories. */
  lemma ReferrerSame(c: Codec, dir: Files, f: Files, e: Entry)
    requires WellFormed(c, dir) && e in ReferrerEntries(c, dir)
    requires forall g <- Digests(View(c, dir).referenced) :: SameBlob(dir, f, g)
    ensures StoredManifest(c, dir, e.desc.digest) == Some(e.manifest) && SameBlob(dir, f, e.desc.digest)
    ensures forall g <- Digests(e.manifest.layers) :: SameBlob(dir, f, g)
  {
    ReferencedAre(c, dir);
    EntryDigests(PrimaryEntry(c, dir), ReferrerEntries(c, dir), e);
  }

  lemma EntryDigests(p: Entry, rs: seq<Entry>, e: Entry)
    requires e in rs
    ensures e.desc.digest in ManifestDigests(p, rs) && Digests(e.manifest.layers) <= ContentDigests(p, rs)
  {
    var i :| 0 <= i < |rs| && rs[i] == e;
    assert Descs(rs)[i] == e.desc;
    assert ChildDigests(e.manifest) <= ContentDigests(p, rs);
  }

  lemma ImagesAgree(c: Codec, dir: Files, f: Files)
    requires WellFormed(c, dir) && CameBack(c, dir, f)
    requires TypesAgree(c, dir, View(c, dir).referrers, View(c, f).referrers)
    ensures Agree(Reads(c, dir), View(c, dir).referrers, Reads(c, f), View(c, f).referrers)
  {
    var ds, es, rs := View(c, dir).referrers, View(c, f).referrers, ReferrerEntries(c, dir);
    forall d, e | d in ds && e in es && d.digest == e.digest ensures Reads(c, dir)(d) == Reads(c, f)(e) {
      var i :| 0 <= i < |rs| && ds[i] == d;
      ReferrerSame(c, dir, f, rs[i]);
      ReadAlike(c, dir, f, d, e);
    }
  }

  /**
   * Verification of a directory that came back from a registry: with at most one referrer of
   * each class, and types listed as they were, it fails to read a referrer exactly when the
   * original does, and otherwise gives the verdict on the original, under every policy.
   */
  lemma VerdictComesBack(c: Codec, dir: Files, f: Files, check: CosignVerify, policy: Option<Policy>)
    requires WellFormed(c, dir) && CameBack(c, dir, f)
    requires TypesAgree(c, dir, View(c, dir).referrers, View(c, f).referrers)
    requires OneEach(Reads(c, dir), View(c, dir).referrers)
    ensures Walk(Reads(c, f), View(c, f).referrers, NO_SLOTS).Ok? <==>
      Walk(Reads(c, dir), View(c, dir).referrers, NO_SLOTS).Ok?
    ensures Walk(Reads(c, dir), View(c, dir).referrers, NO_SLOTS).Ok? ==>
      Verdict(c, check, Reads(c, f), View(c, f), policy) == Verdict(c, check, Reads(c, dir), View(c, dir), policy)
  {
    ImagesAgree(c, dir, f);
    WalksAgree(Reads(c, dir), View(c, dir).referrers, Reads(c, f), View(c, f).referrers);
    VerdictOfWalk(c, check, policy, Reads(c, dir), Reads(c, f), View(c, dir), View(c, f));
  }

  lemma VerdictOfWalk(c: Codec, check: CosignVerify, policy: Option<Policy>, read: Reader, read': Reader, u: ImageDir,
      v: ImageDir)
    requires v.primary.digest == u.primary.digest
    ensures Walk(read', v.referrers, NO_SLOTS) == Walk(read, u.referrers, NO_SLOTS) ==>
      Verdict(c, check, read', v, policy) == Verdict(c, check, read, u, policy)
  {
  }
}
