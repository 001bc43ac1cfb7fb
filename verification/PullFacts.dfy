/** What a successful pull leaves behind, and when `ImageDir::open` accepts it. */
module PullFacts {
  import opened Wrappers
  import opened Json
  import opened Oci
  import opened ImageDirs
  import opened FileSystems
  import opened Staging
  import opened Wire
  import opened RefParser
  import opened Pull

  // ── what was fetched, and its closure ──

  /** The `i`-th of these referrers is `g`, and was unseen when its turn came. */
  ghost predicate NewAt(kids: Kids, fetched: map<string, Bytes>, first: set<string>, ds: seq<Descriptor>, i: nat,
      g: string)
  {
    i < |ds| && ds[i].digest == g && g !in SeenAfter(kids, fetched, first, ds[..i])
  }

  lemma {:induction false} NewExactly(kids: Kids, fetched: map<string, Bytes>, first: set<string>, ds: seq<Descriptor>,
      g: string)
    ensures g in NewAtTurn(kids, fetched, first, ds) <==> exists i: nat :: NewAt(kids, fetched, first, ds, i, g)
  {
    if ds != [] {
      var n := |ds| - 1;
      NewExactly(kids, fetched, first, ds[..n], g);
      forall i: nat | i < n
        ensures NewAt(kids, fetched, first, ds[..n], i, g) <==> NewAt(kids, fetched, first, ds, i, g)
      {
        assert ds[..n][..i] == ds[..i];
      }
      assert NewAt(kids, fetched, first, ds, n, g) <==>
        ds[n].digest == g && g !in SeenAfter(kids, fetched, first, ds[..n]);
      assert forall i: nat :: NewAt(kids, fetched, first, ds, i, g) ==> i < n || i == n;
    }
  }

  /** A digest is fetched exactly when it is the primary's or was unseen at a turn of its own. */
  lemma FetchedExactly(c: Codec, b: Base, f: Files, target: RefTarget, rep: Report, g: string)
    requires Pulled(c, b, f, target, rep)
    ensures var p := c.DigestOf(rep.primary);
      g in rep.fetched <==>
        g == p ||
        exists i: nat :: NewAt(KidsOf(c), rep.fetched, {p} + WireChildren(c, rep.primary), rep.listed, i, g)
  {
    var p := c.DigestOf(rep.primary);
    NewExactly(KidsOf(c), rep.fetched, {p} + WireChildren(c, rep.primary), rep.listed, g);
  }

  /** The manifest was fetched, and it and its children are on disk. */
  ghost predicate ClosedOnDisk(c: Codec, f: Files, rep: Report, g: string)
  {
    && Present(f, g) && g in rep.fetched && c.DigestOf(rep.fetched[g]) == g
    && ParseWireManifest(c, rep.fetched[g]).Some? && AllPresent(f, WireChildren(c, rep.fetched[g]))
  }

  /**
   * Closure: every digest in the written index is on disk, and whatever was fetched is there
   * with its config and its layers.
   */
  lemma PullCloses(c: Codec, b: Base, f: Files, target: RefTarget, rep: Report)
    requires Pulled(c, b, f, target, rep)
    ensures forall d <- PulledEntries(c, rep.primary, rep.listed) :: Present(f, d.digest)
    ensures forall d <- PulledEntries(c, rep.primary, rep.listed) ::
      ClosedOnDisk(c, f, rep, d.digest) <==> d.digest in rep.fetched
  {
    forall d | d in PulledEntries(c, rep.primary, rep.listed)
      ensures Present(f, d.digest) && (d.digest in rep.fetched ==> ClosedOnDisk(c, f, rep, d.digest))
    {
      if d.digest in rep.fetched {
        assert FetchedOk(c, f, d.digest, rep.fetched[d.digest]);
      } else {
        assert d in rep.listed && d.digest in Digests(rep.listed);
      }
    }
  }

  /** No listed referrer is also a config or a layer of a manifest that was fetched. */
  ghost predicate ListedNotContent(c: Codec, rep: Report)
  {
    forall d <- rep.listed :: !NamedBy(KidsOf(c), rep.fetched, d.digest)
  }

  ghost predicate AllFetched(rep: Report) { forall d <- rep.listed :: d.digest in rep.fetched }

  lemma NotContentFetched(c: Codec, b: Base, f: Files, target: RefTarget, rep: Report)
    requires Pulled(c, b, f, target, rep) && ListedNotContent(c, rep)
    ensures AllFetched(rep)
  {
  }

  // ── the index that was written ──

  lemma IndexReadsBack(c: Codec, f: Files, ds: seq<Descriptor>)
    requires c.Lawful() && INDEX_FILE in f && f[INDEX_FILE] == c.pretty(IndexJson(ds)) && forall d <- ds :: Fits(d)
    ensures IndexEntries(c, f) == Some(ds)
  {
    assert c.parse(c.pretty(IndexJson(ds))) == Some(IndexJson(ds));
    DescriptorsRoundTrip(ds);
    assert Field(IndexJson(ds), "manifests") == Some(JArr(DescriptorsJson(ds)));
  }

  /** The written marker is valid; an old one is as valid as it was. */
  lemma MarkerReads(c: Codec, b: Base, f: Files)
    requires c.Lawful() && MarkerThere(c, b, f)
    ensures LayoutValid(c, f) <==> (LAYOUT_FILE in b.files ==> LayoutValid(c, b.files))
  {
    var j := JObj(map["imageLayoutVersion" := JStr(LAYOUT_VERSION)]);
    assert c.parse(c.compact(j)) == Some(j);
    assert StrField(j, "imageLayoutVersion") == Some(LAYOUT_VERSION);
  }

  // ── buckets of an index that starts with its primary ──

  lemma {:induction false} BucketCons(load: Loader, x: Descriptor, rest: seq<Descriptor>, referrer: bool)
    requires AllLoadable(load, rest) && Loadable(load, x)
    ensures AllLoadable(load, [x] + rest)
    ensures Bucket(load, [x] + rest, referrer) ==
      (if load(x.digest).value.subject.Some? == referrer then [EntryOf(load, x)] else []) + Bucket(load, rest, referrer)
  {
    var ds := [x] + rest;
    if rest == [] {
      assert ds[..0] == [] && ds == [x];
    } else {
      var n := |rest| - 1;
      BucketCons(load, x, rest[..n], referrer);
      assert ds[..|ds| - 1] == [x] + rest[..n] && ds[|ds| - 1] == rest[n];
    }
  }

  lemma {:induction false} AllReferrers(load: Loader, ds: seq<Descriptor>)
    requires AllLoadable(load, ds) && forall d <- ds :: load(d.digest).value.subject.Some?
    ensures Bucket(load, ds, false) == [] && Descs(Bucket(load, ds, true)) == ds
  {
    if ds != [] {
      var n := |ds| - 1;
      assert ds[n] in ds && ds == ds[..n] + [ds[n]];
      AllReferrers(load, ds[..n]);
    }
  }

  /** The first entry is the primary and every other a referrer of it. */
  ghost predicate Shaped(load: Loader, x: Descriptor, rest: seq<Descriptor>)
  {
    && Loadable(load, x) && load(x.digest).value.subject.None?
    && forall d <- rest :: Refers(load, d, x.digest)
  }

  predicate Refers(load: Loader, d: Descriptor, primary: string)
  {
    && Loadable(load, d) && load(d.digest).value.subject.Some?
    && load(d.digest).value.subject.value.digest == primary
  }

  /** One primary, which is the first entry, and only referrers of it besides. */
  ghost predicate Sorted(load: Loader, ds: seq<Descriptor>, primary: string)
  {
    && AllLoadable(load, ds) && |Bucket(load, ds, false)| == 1 && Bucket(load, ds, false)[0].desc.digest == primary
    && forall e <- Bucket(load, ds, true) :: e.manifest.subject.value.digest == primary
  }

  lemma ShapedSorted(load: Loader, x: Descriptor, rest: seq<Descriptor>)
    requires Shaped(load, x, rest)
    ensures Sorted(load, [x] + rest, x.digest)
    ensures Bucket(load, [x] + rest, false) == [EntryOf(load, x)] && Descs(Bucket(load, [x] + rest, true)) == rest
  {
    RestLoads(load, rest, x.digest);
    AllReferrers(load, rest);
    BucketCons(load, x, rest, true);
    BucketCons(load, x, rest, false);
    RestRefers(load, rest, x.digest);
    assert [] + Bucket(load, rest, true) == Bucket(load, rest, true);
  }

  lemma RestLoads(load: Loader, rest: seq<Descriptor>, primary: string)
    requires forall d <- rest :: Refers(load, d, primary)
    ensures AllLoadable(load, rest) && forall d <- rest :: load(d.digest).value.subject.Some?
  {
    forall i | 0 <= i < |rest| ensures Loadable(load, rest[i]) { assert Refers(load, rest[i], primary); }
    forall d | d in rest ensures load(d.digest).value.subject.Some? { assert Refers(load, d, primary); }
  }

  lemma RestRefers(load: Loader, rest: seq<Descriptor>, primary: string)
    requires AllLoadable(load, rest) && forall d <- rest :: Refers(load, d, primary)
    requires Descs(Bucket(load, rest, true)) == rest
    ensures forall e <- Bucket(load, rest, true) :: e.manifest.subject.value.digest == primary
  {
    var rs := Bucket(load, rest, true);
    forall e | e in rs ensures e.manifest.subject.value.digest == primary {
      var i :| 0 <= i < |rs| && rs[i] == e;
      assert Descs(rs)[i] in rest;
      assert Refers(load, rs[i].desc, primary);
    }
  }

  lemma SortedShaped(load: Loader, x: Descriptor, rest: seq<Descriptor>)
    requires Sorted(load, [x] + rest, x.digest)
    ensures Shaped(load, x, rest)
  {
    var ds := [x] + rest;
    assert ds[0] == x;
    forall i | 0 <= i < |rest| ensures Loadable(load, rest[i]) { assert ds[i + 1] == rest[i]; }
    BucketCons(load, x, rest, false);
    BucketCons(load, x, rest, true);
    var p := Bucket(load, ds, false)[0];
    assert p == EntryOf(load, p.desc) && p.manifest.subject.None?;
    assert load(x.digest).value.subject.None?;
    assert Bucket(load, rest, false) == [];
    forall d | d in rest ensures Refers(load, d, x.digest) {
      BucketMembers(load, rest, false, d);
      BucketMembers(load, rest, true, d);
      var rs := Bucket(load, rest, true);
      var i :| 0 <= i < |rs| && Descs(rs)[i] == d;
      assert rs[i] in Bucket(load, ds, true) && rs[i] == EntryOf(load, d);
    }
  }

  // ── when the reader accepts the result ──

  /** No blob on disk shares its digest with a fetched manifest of other bytes. */
  ghost predicate NoClash(f: Files, rep: Report)
  {
    forall d <- rep.fetched :: BlobBytes(f, d) == Some(rep.fetched[d])
  }

  /** The manifests as they were fetched. */
  function Fetched(c: Codec, rep: Report): Loader
  {
    (d: string) => if d in rep.fetched then ParseManifest(c, rep.fetched[d]) else None
  }

  lemma ShapedAgree(f: Loader, g: Loader, x: Descriptor, rest: seq<Descriptor>)
    requires f(x.digest) == g(x.digest) && forall d <- rest :: f(d.digest) == g(d.digest)
    ensures Shaped(f, x, rest) <==> Shaped(g, x, rest)
  {
    assert Loadable(f, x) <==> Loadable(g, x);
    forall d | d in rest ensures Refers(f, d, x.digest) <==> Refers(g, d, x.digest) { }
  }

  lemma ChildrenStored(c: Codec, f: Files, digest: string, data: Bytes)
    requires BlobBytes(f, digest) == Some(data) && AllPresent(f, WireChildren(c, data))
    requires StoredManifest(c, f, digest).Some?
    ensures ChildrenPresent(f, StoredManifest(c, f, digest).value)
  {
    var m := StoredManifest(c, f, digest).value;
    var wire := ParseWireManifest(c, data);
    assert wire == Some((m.config, m.layers));
    assert m.config.digest in WireChildren(c, data);
    forall i | 0 <= i < |m.layers|
      ensures Present(f, m.layers[i].digest)
    {
      assert m.layers[i].digest in WireChildren(c, data);
    }
  }

  /** With the closure on disk, an index is well formed around `primary` as soon as it is sorted. */
  lemma SortedOpens(c: Codec, f: Files, ds: seq<Descriptor>, primary: string)
    requires IndexEntries(c, f) == Some(ds)
    requires forall d <- ds :: Stored(c, f)(d.digest).Some? ==> ChildrenPresent(f, Stored(c, f)(d.digest).value)
    ensures WellFormed(c, f) && View(c, f).primary.digest == primary <==>
      LayoutValid(c, f) && Sorted(Stored(c, f), ds, primary)
  {
    var load := Stored(c, f);
    if AllLoadable(load, ds) {
      var ps, rs := Bucket(load, ds, false), Bucket(load, ds, true);
      forall i | 0 <= i < |rs| ensures ChildrenPresent(f, rs[i].manifest) {
        assert Descs(rs)[i] == rs[i].desc;
        BucketMembers(load, ds, true, rs[i].desc);
      }
      forall i | 0 <= i < |ps| ensures ChildrenPresent(f, ps[i].manifest) {
        assert Descs(ps)[i] == ps[i].desc;
        BucketMembers(load, ds, false, ps[i].desc);
      }
      if WellFormed(c, f) && ps[0].desc.digest == primary {
        forall e | e in rs ensures e.manifest.subject.value.digest == primary {
          var i :| 0 <= i < |rs| && rs[i] == e;
          assert RefersTo(f, rs[i], primary);
        }
      }
      if LayoutValid(c, f) && Sorted(load, ds, primary) {
        forall i | 0 <= i < |rs| ensures RefersTo(f, rs[i], primary) { assert rs[i] in rs; }
      }
    }
  }

  /** What was fetched is what the reader loads, with its children. */
  lemma FetchedStored(c: Codec, f: Files, rep: Report, g: string)
    requires NoClash(f, rep) && ClosedOnDisk(c, f, rep, g)
    ensures Stored(c, f)(g) == Fetched(c, rep)(g)
    ensures Stored(c, f)(g).Some? ==> ChildrenPresent(f, Stored(c, f)(g).value)
  {
    assert BlobBytes(f, g) == Some(rep.fetched[g]);
    if Stored(c, f)(g).Some? { ChildrenStored(c, f, g, rep.fetched[g]); }
  }

  /** The referrers that were listed but not fetched, as content seen before, have their own content there too. */
  ghost predicate SeenClosed(c: Codec, f: Files, rep: Report)
  {
    forall d {:trigger ChildrenThere(c, f, d)} :: d in rep.listed && d.digest !in rep.fetched ==> ChildrenThere(c, f, d)
  }

  ghost predicate AllThere(c: Codec, f: Files, ds: seq<Descriptor>)
  {
    forall d {:trigger ChildrenThere(c, f, d)} :: d in ds ==> ChildrenThere(c, f, d)
  }

  ghost predicate ChildrenThere(c: Codec, f: Files, d: Descriptor)
  {
    Stored(c, f)(d.digest).Some? ==> ChildrenPresent(f, Stored(c, f)(d.digest).value)
  }

  /**
   * `ImageDir::open` accepts the result of a pull, with the pulled manifest as its primary,
   * exactly when a marker that was there before is valid, every descriptor and manifest is of
   * the OCI manifest type, the primary has no subject, every referrer names it as its own, and
   * the referrers that were not fetched happen to have their content there.
   */
  lemma PullOpens(c: Codec, b: Base, f: Files, target: RefTarget, rep: Report)
    requires c.Lawful() && Pulled(c, b, f, target, rep) && NoClash(f, rep) && |rep.primary| < U64_LIMIT
    ensures var x := PulledEntries(c, rep.primary, [])[0];
      && ((WellFormed(c, f) && View(c, f).primary.digest == x.digest) <==>
            ((LAYOUT_FILE in b.files ==> LayoutValid(c, b.files)) && Shaped(Stored(c, f), x, rep.listed)
              && SeenClosed(c, f, rep)))
      && (WellFormed(c, f) && View(c, f).primary.digest == x.digest ==>
            View(c, f).primary == x && View(c, f).referrers == rep.listed)
  {
    var x := PulledEntries(c, rep.primary, [])[0];
    MarkerReads(c, b, f);
    PulledIndex(c, b, f, target, rep);
    if WellFormed(c, f) { EveryChildThere(c, f); }
    PulledChildren(c, b, f, target, rep);
    if SeenClosed(c, f, rep) { LoadsOpen(c, f, x, rep.listed); }
  }

  /**
   * A pull that listed no referrers, as from a registry without the referrers API: the index has
   * the primary only, and the result opens, without referrers, exactly when the marker is right
   * and the primary is an image manifest without a subject.
   */
  lemma LegacyOpens(c: Codec, b: Base, f: Files, target: RefTarget, rep: Report)
    requires c.Lawful() && Pulled(c, b, f, target, rep) && NoClash(f, rep) && |rep.primary| < U64_LIMIT
    requires rep.listed == []
    ensures var x := Descriptor(MANIFEST_TYPE, c.DigestOf(rep.primary), |rep.primary|, None);
      && IndexEntries(c, f) == Some([x])
      && ((WellFormed(c, f) && View(c, f).primary.digest == x.digest) <==>
            ((LAYOUT_FILE in b.files ==> LayoutValid(c, b.files)) && Shaped(Stored(c, f), x, [])))
      && (WellFormed(c, f) && View(c, f).primary.digest == x.digest ==> View(c, f).referrers == [])
  {
    PullOpens(c, b, f, target, rep);
    PulledIndex(c, b, f, target, rep);
    assert [PulledEntries(c, rep.primary, [])[0]] + [] == [PulledEntries(c, rep.primary, [])[0]];
  }

  lemma PulledIndex(c: Codec, b: Base, f: Files, target: RefTarget, rep: Report)
    requires c.Lawful() && Pulled(c, b, f, target, rep) && |rep.primary| < U64_LIMIT
    ensures IndexEntries(c, f) == Some([PulledEntries(c, rep.primary, [])[0]] + rep.listed)
  {
    assert PulledEntries(c, rep.primary, rep.listed) == [PulledEntries(c, rep.primary, [])[0]] + rep.listed;
    IndexReadsBack(c, f, PulledEntries(c, rep.primary, rep.listed));
  }

  /** An accepted layout has the children of every entry. */
  lemma EveryChildThere(c: Codec, f: Files)
    requires WellFormed(c, f)
    ensures AllThere(c, f, IndexEntries(c, f).value)
  {
    var load, ds := Stored(c, f), IndexEntries(c, f).value;
    forall d | d in ds ensures ChildrenThere(c, f, d) { ClosedChildren(load, ds, f, d); }
  }

  /** What a pull lists has its children there exactly when what it did not fetch has. */
  lemma PulledChildren(c: Codec, b: Base, f: Files, target: RefTarget, rep: Report)
    requires Pulled(c, b, f, target, rep) && NoClash(f, rep)
    ensures SeenClosed(c, f, rep) <==> AllThere(c, f, [PulledEntries(c, rep.primary, [])[0]] + rep.listed)
  {
    var x := PulledEntries(c, rep.primary, [])[0];
    forall d | d in [x] + rep.listed && d.digest in rep.fetched ensures ChildrenThere(c, f, d) {
      FetchedThere(c, b, f, target, rep, d);
    }
    assert forall d :: d in [x] + rep.listed <==> d == x || d in rep.listed;
  }

  lemma FetchedThere(c: Codec, b: Base, f: Files, target: RefTarget, rep: Report, d: Descriptor)
    requires Pulled(c, b, f, target, rep) && NoClash(f, rep)
    requires d.digest in rep.fetched
    ensures ChildrenThere(c, f, d) && Stored(c, f)(d.digest) == Fetched(c, rep)(d.digest)
  {
    assert FetchedOk(c, f, d.digest, rep.fetched[d.digest]);
    FetchedStored(c, f, rep, d.digest);
  }

  /** When every listed referrer was fetched, all that matters can be read off what was fetched. */
  lemma FetchedOpens(c: Codec, b: Base, f: Files, target: RefTarget, rep: Report)
    requires c.Lawful() && Pulled(c, b, f, target, rep) && NoClash(f, rep) && |rep.primary| < U64_LIMIT
    requires AllFetched(rep)
    ensures var x := PulledEntries(c, rep.primary, [])[0];
      && ((WellFormed(c, f) && View(c, f).primary.digest == x.digest) <==>
            ((LAYOUT_FILE in b.files ==> LayoutValid(c, b.files)) && Shaped(Fetched(c, rep), x, rep.listed)))
      && (WellFormed(c, f) && View(c, f).primary.digest == x.digest ==>
            View(c, f).primary == x && View(c, f).referrers == rep.listed)
  {
    PullOpens(c, b, f, target, rep);
    AllLoad(c, b, f, target, rep);
    ShapedAgree(Stored(c, f), Fetched(c, rep), PulledEntries(c, rep.primary, [])[0], rep.listed);
  }

  lemma AllLoad(c: Codec, b: Base, f: Files, target: RefTarget, rep: Report)
    requires Pulled(c, b, f, target, rep) && NoClash(f, rep) && AllFetched(rep)
    ensures var x := PulledEntries(c, rep.primary, [])[0]; Stored(c, f)(x.digest) == Fetched(c, rep)(x.digest)
    ensures forall d <- rep.listed :: Stored(c, f)(d.digest) == Fetched(c, rep)(d.digest)
  {
    FetchedThere(c, b, f, target, rep, PulledEntries(c, rep.primary, [])[0]);
    forall d | d in rep.listed ensures Stored(c, f)(d.digest) == Fetched(c, rep)(d.digest) {
      FetchedThere(c, b, f, target, rep, d);
    }
  }

  /** With every child on disk, an index opens around its first entry exactly when it has the shape. */
  lemma LoadsOpen(c: Codec, f: Files, x: Descriptor, listed: seq<Descriptor>)
    requires IndexEntries(c, f) == Some([x] + listed)
    requires AllThere(c, f, [x] + listed)
    ensures WellFormed(c, f) && View(c, f).primary.digest == x.digest <==>
      LayoutValid(c, f) && Shaped(Stored(c, f), x, listed)
    ensures WellFormed(c, f) && View(c, f).primary.digest == x.digest ==>
      View(c, f).primary == x && View(c, f).referrers == listed
  {
    var load := Stored(c, f);
    forall d | d in [x] + listed ensures load(d.digest).Some? ==> ChildrenPresent(f, load(d.digest).value) {
      assert ChildrenThere(c, f, d);
    }
    SortedOpens(c, f, [x] + listed, x.digest);
    if Sorted(load, [x] + listed, x.digest) { SortedShaped(load, x, listed); }
    if Shaped(load, x, listed) { ShapedSorted(load, x, listed); }
  }

  // ── a crash while the marker is written ──

  /** No proper prefix of the marker document is a JSON text. */
  ghost predicate CutsRefused(c: Codec) { forall m: Bytes :: m < MarkerBytes(c) ==> c.parse(m).None? }

  /**
   * A state a pull into a directory without a marker may leave behind has the marker, none, or an
   * invalid part of it.
   */
  lemma MarkerAfterCrash(c: Codec, b: Base, f: Files)
    requires c.Lawful() && CutsRefused(c) && StoreKept(c, b, f) && LAYOUT_FILE !in b.files
    ensures (LAYOUT_FILE in f ==> LayoutValid(c, f)) <==> (LAYOUT_FILE in f ==> f[LAYOUT_FILE] == MarkerBytes(c))
  {
    if LAYOUT_FILE in f {
      var j := JObj(map["imageLayoutVersion" := JStr(LAYOUT_VERSION)]);
      assert c.parse(MarkerBytes(c)) == Some(j);
      assert StrField(j, "imageLayoutVersion") == Some(LAYOUT_VERSION);
      assert MarkerStarted(c, b, f);
    }
  }

  /** What the pull brought is an image, apart from the marker. */
  ghost predicate Proper(c: Codec, f: Files, rep: Report)
  {
    Shaped(Stored(c, f), PulledEntries(c, rep.primary, [])[0], rep.listed) && SeenClosed(c, f, rep)
  }

  /**
   * A pull that succeeds after an earlier one crashed, at whatever point, opens exactly when it
   * brought an image and the crash left no marker or a whole one: a part of one is kept as it is.
   */
  lemma RerunRecovers(c: Codec, crashed: Base, b: Base, f: Files, target: RefTarget, rep: Report)
    requires c.Lawful() && CutsRefused(c) && LAYOUT_FILE !in crashed.files && StoreKept(c, crashed, b.files)
    requires Pulled(c, b, f, target, rep) && NoClash(f, rep) && |rep.primary| < U64_LIMIT
    ensures
      (WellFormed(c, f) && View(c, f).primary.digest == c.DigestOf(rep.primary)) <==>
        (LAYOUT_FILE in b.files ==> b.files[LAYOUT_FILE] == MarkerBytes(c)) && Proper(c, f, rep)
    ensures LAYOUT_FILE in b.files ==> f[LAYOUT_FILE] == b.files[LAYOUT_FILE]
  {
    MarkerAfterCrash(c, crashed, b.files);
    PullOpens(c, b, f, target, rep);
  }

  // ── a referrer that is also content ──

  /** A layer of the offered image is also its one listed referrer, and names `x`, which nobody has. */
  ghost predicate SeenReferrer(c: Codec, up: Upstream, target: RefTarget, required: bool, d: Descriptor, x: string)
  {
    && OffersImage(c, up, target, required, [d])
    && d.digest in WireChildren(c, up.serve(ManifestAt(target.Reference())).body.data)
    && x in WireChildren(c, up.serve(BlobAt(d.digest)).body.data) && forall data :: c.DigestOf(data) != x
  }

  /**
   * The closure needs its condition: an offered image whose layer is also listed as a
   * referrer is pulled with success, that referrer's own children are not fetched, and the
   * result is refused by `ImageDir::open`.
   */
  method ListedButNotClosed(c: Codec, client: Client, fs: Fs, target: RefTarget, required: bool, d: Descriptor,
      x: string, ghost up: Upstream)
    returns (r: Result<(), PullError>, ghost rep: Report)
    requires fs.files == map[] && fs.Reliable() && client.tokens == 0
    requires Delivers(client.server, up) && Faithful(c, up) && up.ready(client.Now())
    requires SeenReferrer(c, up, target, required, d, x)
    modifies client, fs
    ensures r.Ok? && rep.listed == [d] && INDEX_FILE in fs.files
    ensures fs.files[INDEX_FILE] == IndexBytes(c, rep.primary, [d])
    ensures Present(fs.files, d.digest) && !Present(fs.files, x)
    ensures c.Lawful() && |rep.primary| < U64_LIMIT ==> !WellFormed(c, fs.files)
  {
    ghost var b := Base(fs.files, |fs.history|, Some(up.store));
    OffersObtainable(c, b, up, target, required, [d]);
    r, rep := ExecutePull(c, client, fs, true, target, required, b, Some(up));
    ListedPresent(c, b, fs.files, target, rep, d);
    NobodyHas(c, fs.files, x);
    LayerServed(c, up, target, required, d);
    if c.Lawful() && |rep.primary| < U64_LIMIT {
      StoredServed(c, b, fs.files, up, d.digest);
      PulledIndex(c, b, fs.files, target, rep);
      ChildMissing(c, fs.files, d, up.serve(BlobAt(d.digest)).body.data, x);
    }
  }

  /** The layer is offered as a blob. */
  lemma LayerServed(c: Codec, up: Upstream, target: RefTarget, required: bool, d: Descriptor)
    requires OffersImage(c, up, target, required, [d])
    requires d.digest in WireChildren(c, up.serve(ManifestAt(target.Reference())).body.data)
    ensures BlobOffered(c, up, d.digest)
  {
  }

  /** A blob that was pulled into an empty directory is the one that was served. */
  lemma StoredServed(c: Codec, b: Base, f: Files, up: Upstream, g: string)
    requires b.store == Some(up.store) && b.files == map[] && StoreKept(c, b, f) && Faithful(c, up)
    requires BlobOffered(c, up, g) && Present(f, g)
    ensures BlobBytes(f, g) == Some(up.serve(BlobAt(g)).body.data)
  {
    var data := up.serve(BlobAt(g)).body.data;
    assert c.DigestOf(data)[7..] == c.hash(data) && g[7..] == HexOf(g).value;
  }

  /** Whatever a listed manifest of an accepted layout names is there. */
  lemma NamedThere(c: Codec, f: Files, d: Descriptor, data: Bytes, x: string)
    requires WellFormed(c, f) && d in IndexEntries(c, f).value
    requires BlobBytes(f, d.digest) == Some(data) && x in WireChildren(c, data)
    ensures Present(f, x)
  {
    var load, ds := Stored(c, f), IndexEntries(c, f).value;
    ClosedChildren(load, ds, f, d);
    ChildOf(c, f, data, load(d.digest).value, x);
  }

  lemma ChildOf(c: Codec, f: Files, data: Bytes, m: Manifest, x: string)
    requires ParseManifest(c, data) == Some(m) && ChildrenPresent(f, m) && x in WireChildren(c, data)
    ensures Present(f, x)
  {
    assert ParseWireManifest(c, data) == Some((m.config, m.layers));
    if x != m.config.digest {
      var i :| 0 <= i < |m.layers| && m.layers[i].digest == x;
    }
  }

  /** A layout that lists a manifest without a child of it is refused. */
  lemma ChildMissing(c: Codec, f: Files, d: Descriptor, data: Bytes, x: string)
    requires IndexEntries(c, f).Some? && d in IndexEntries(c, f).value
    requires BlobBytes(f, d.digest) == Some(data) && x in WireChildren(c, data) && !Present(f, x)
    ensures !WellFormed(c, f)
  {
    if WellFormed(c, f) { NamedThere(c, f, d, data, x); }
  }

  lemma ListedPresent(c: Codec, b: Base, f: Files, target: RefTarget, rep: Report, d: Descriptor)
    requires Pulled(c, b, f, target, rep) && d in rep.listed
    ensures Present(f, d.digest)
  {
    assert d.digest in Digests(rep.listed);
  }

  lemma NobodyHas(c: Codec, f: Files, x: string)
    requires StoreCorrect(c, f) && forall data :: c.DigestOf(data) != x
    ensures !Present(f, x)
  {
    assert forall h :: IsHex64(h) && Blob(h) in f ==> c.DigestOf(f[Blob(h)]) == DigestText(h);
  }
}
