/** What `ImageDir::open` guarantees about the order and the closure of `referenced_blobs`. */
module ImageDirFacts {
  import opened Wrappers
  import opened Oci
  import opened ImageDirs

  lemma {:induction false} FirstUpTo(ds: seq<Descriptor>, g: string, j: nat)
    requires j < |ds| && ds[j].digest == g
    ensures exists i :: 0 <= i < |ds| && ds[i].digest == g && forall k :: 0 <= k < i ==> ds[k].digest != g
    decreases j
  {
    if k: nat :| k < j && ds[k].digest == g { FirstUpTo(ds, g, k); }
  }

  lemma FirstWith(ds: seq<Descriptor>, g: string)
    requires !(forall k :: 0 <= k < |ds| ==> ds[k].digest != g)
    ensures exists i :: 0 <= i < |ds| && ds[i].digest == g && forall k :: 0 <= k < i ==> ds[k].digest != g
  {
    var j :| 0 <= j < |ds| && ds[j].digest == g;
    FirstUpTo(ds, g, j);
  }

  /** The position of the first descriptor with a given digest, or the length. */
  function FirstIndex(ds: seq<Descriptor>, g: string): (i: nat)
    ensures i <= |ds|
    ensures i < |ds| ==> ds[i].digest == g
    ensures forall k :: 0 <= k < i ==> ds[k].digest != g
    ensures i < |ds| <==> g in Digests(ds)
  {
    if forall k :: 0 <= k < |ds| ==> ds[k].digest != g then |ds|
    else
      FirstWith(ds, g);
      var i :| 0 <= i < |ds| && ds[i].digest == g && forall k :: 0 <= k < i ==> ds[k].digest != g;
      i
  }

  lemma FirstIndexExtend(ds: seq<Descriptor>, more: seq<Descriptor>, g: string)
    ensures g in Digests(ds) ==> FirstIndex(ds + more, g) == FirstIndex(ds, g)
    ensures g !in Digests(ds) ==> FirstIndex(ds + more, g) >= |ds|
  {
    var i := FirstIndex(ds + more, g);
    if i < |ds| { assert (ds + more)[i] == ds[i]; }
    if g in Digests(ds) { assert (ds + more)[FirstIndex(ds, g)].digest == g; }
  }

  /** `out` lists, in order, the first descriptor of every digest it mentions. */
  ghost predicate IsFirstOrder(ds: seq<Descriptor>, out: seq<Descriptor>)
  {
    && (forall j :: 0 <= j < |out| ==> FirstIndex(ds, out[j].digest) < |ds|)
    && (forall j :: 0 <= j < |out| ==> out[j] == ds[FirstIndex(ds, out[j].digest)])
    && (forall i, j :: 0 <= i < j < |out| ==> FirstIndex(ds, out[i].digest) < FirstIndex(ds, out[j].digest))
  }

  /**
   * `referenced_blobs` is the first-occurrence order of the closure: each entry is the
   * first descriptor of its digest, the order of first occurrences is kept, and so no
   * digest repeats.
   */
  lemma {:induction false} FirstOccurrences(ds: seq<Descriptor>)
    ensures IsFirstOrder(ds, FirstByDigest(ds))
  {
    if ds != [] {
      var n := |ds| - 1;
      var init := ds[..n];
      FirstOccurrences(init);
      assert ds == init + [ds[n]];
      OrderExtends(init, FirstByDigest(init), ds[n]);
    }
  }

  lemma OrderExtends(init: seq<Descriptor>, out: seq<Descriptor>, d: Descriptor)
    requires IsFirstOrder(init, out)
    ensures IsFirstOrder(init + [d], out)
    ensures d.digest !in Digests(init) ==> IsFirstOrder(init + [d], out + [d])
  {
    forall j | 0 <= j < |out| ensures FirstIndex(init + [d], out[j].digest) == FirstIndex(init, out[j].digest) {
      FirstIndexExtend(init, [d], out[j].digest);
    }
    assert IsFirstOrder(init + [d], out);
    if d.digest !in Digests(init) {
      FirstIndexExtend(init, [d], d.digest);
      var out' := out + [d];
      assert d in init + [d];
      assert FirstIndex(init + [d], d.digest) == |init|;
      forall j | 0 <= j < |out'|
        ensures FirstIndex(init + [d], out'[j].digest) <= |init|
          && out'[j] == (init + [d])[FirstIndex(init + [d], out'[j].digest)]
      {
        if j < |out| { assert out'[j] == out[j]; }
      }
    }
  }

  /** Deduplication keeps the relative order of first occurrences. */
  lemma OrderKept(ds: seq<Descriptor>, g: string, h: string)
    requires g in Digests(ds) && h in Digests(ds)
    ensures var out := FirstByDigest(ds);
      FirstIndex(out, g) < FirstIndex(out, h) <==> FirstIndex(ds, g) < FirstIndex(ds, h)
  {
    FirstOccurrences(ds);
    var out := FirstByDigest(ds);
    OrderTransfers(ds, out, FirstIndex(out, g), FirstIndex(out, h));
  }

  lemma OrderTransfers(ds: seq<Descriptor>, out: seq<Descriptor>, i: nat, j: nat)
    requires IsFirstOrder(ds, out) && i < |out| && j < |out|
    ensures i < j <==> FirstIndex(ds, out[i].digest) < FirstIndex(ds, out[j].digest)
  {
  }

  /** Digests of everything that is layer or config of some manifest. */
  function ContentDigests(p: Entry, rs: seq<Entry>): set<string>
  {
    ChildDigests(p.manifest) + set e <- rs, g <- ChildDigests(e.manifest) :: g
  }

  function ChildDigests(m: Manifest): set<string> { Digests(m.layers) + {m.config.digest} }

  /** The closure mentions nothing but children and manifests, children first. */
  lemma {:induction false} BlocksShape(es: seq<Entry>, k: nat)
    requires k < |Blocks(es)|
    ensures
      || (exists i :: 0 <= i < |es| && Blocks(es)[k].digest in ChildDigests(es[i].manifest))
      || (exists i :: 0 <= i < |es| && Blocks(es)[k] == es[i].desc &&
            ChildDigests(es[i].manifest) <= Digests(Blocks(es)[..k]))
  {
    var n := |es| - 1;
    var front, last := es[..n], es[n];
    var pre := |Blocks(front)|;
    if k < pre {
      BlocksShape(front, k);
      assert Blocks(es)[..k] == Blocks(front)[..k];
      if i :| 0 <= i < |front| && Blocks(front)[k].digest in ChildDigests(front[i].manifest) {
        assert es[i] == front[i];
      } else {
        var i :| 0 <= i < |front| && Blocks(front)[k] == front[i].desc
          && ChildDigests(front[i].manifest) <= Digests(Blocks(front)[..k]);
        assert es[i] == front[i];
      }
    } else {
      BlockShape(Blocks(front), last, k - pre);
      assert Blocks(es)[k] == Block(last)[k - pre] && Blocks(es)[..k] == Blocks(front) + Block(last)[..k - pre];
      assert es[n] == last;
    }
  }

  /** A block has layers and the config, then the manifest. */
  lemma BlockShape(before: seq<Descriptor>, e: Entry, j: nat)
    requires j < |Block(e)|
    ensures Block(e)[j].digest in ChildDigests(e.manifest) ||
      (Block(e)[j] == e.desc && ChildDigests(e.manifest) <= Digests(before + Block(e)[..j]))
  {
    var m := e.manifest;
    if j < |m.layers| {
      assert Block(e)[j] == m.layers[j];
    } else if j > |m.layers| {
      assert Block(e)[..j] == m.layers + [m.config];
      BlockChildren(before, m);
    }
  }

  lemma BlockChildren(before: seq<Descriptor>, m: Manifest)
    ensures ChildDigests(m) <= Digests(before + (m.layers + [m.config]))
  {
    var all := before + (m.layers + [m.config]);
    assert m.config in all && forall d :: d in m.layers ==> d in all;
  }

  lemma {:induction false} BlocksContain(es: seq<Entry>, i: nat)
    requires i < |es|
    ensures es[i].desc in Blocks(es) && ChildDigests(es[i].manifest) <= Digests(Blocks(es))
  {
    var n := |es| - 1;
    assert es == es[..n] + [es[n]];
    if i < n {
      BlocksContain(es[..n], i);
      assert es[..n][i] == es[i];
      forall d | d in Blocks(es[..n]) ensures d in Blocks(es) { }
    } else {
      var b := Block(es[n]);
      assert b[|b| - 1] == es[n].desc && b[|b| - 2] == es[n].manifest.config;
      assert forall d :: d in es[n].manifest.layers ==> d in b;
    }
  }

  // ── order of the whole closure ──

  function PrimaryEntry(c: Codec, dir: Files): Entry
    requires WellFormed(c, dir)
  {
    Bucket(Stored(c, dir), IndexEntries(c, dir).value, false)[0]
  }

  function ReferrerEntries(c: Codec, dir: Files): seq<Entry>
    requires WellFormed(c, dir)
  {
    Bucket(Stored(c, dir), IndexEntries(c, dir).value, true)
  }

  function ManifestDigests(p: Entry, rs: seq<Entry>): set<string>
  {
    {p.desc.digest} + Digests(Descs(rs))
  }

  /** No manifest of the closure is also used as a layer or a config. */
  ghost predicate ManifestsNotContent(p: Entry, rs: seq<Entry>)
  {
    ManifestDigests(p, rs) !! ContentDigests(p, rs)
  }

  /** Entries are as loaded from one store: a digest determines the manifest. */
  ghost predicate Coherent(p: Entry, rs: seq<Entry>)
  {
    && (forall i, j :: 0 <= i < |rs| && 0 <= j < |rs| && rs[i].desc.digest == rs[j].desc.digest ==>
          rs[i].manifest == rs[j].manifest)
    && (forall i :: 0 <= i < |rs| ==> rs[i].desc.digest != p.desc.digest)
  }

  lemma LoadedCoherent(c: Codec, dir: Files)
    requires WellFormed(c, dir)
    ensures Coherent(PrimaryEntry(c, dir), ReferrerEntries(c, dir))
  {
  }

  lemma BodyContains(p: Entry, rs: seq<Entry>, i: nat)
    requires i < |rs|
    ensures rs[i].desc.digest in Digests(Body(p, rs)) && ChildDigests(rs[i].manifest) <= Digests(Body(p, rs))
  {
    BlocksContain(rs, i);
    assert forall d :: d in Blocks(rs) ==> d in Body(p, rs);
  }

  /** Where the body first mentions a referrer manifest, its children are already listed. */
  lemma FirstMention(p: Entry, rs: seq<Entry>, i: nat)
    requires Coherent(p, rs) && ManifestsNotContent(p, rs) && i < |rs|
    ensures var body := Body(p, rs); var k := FirstIndex(body, rs[i].desc.digest);
      k < |body| && ChildDigests(rs[i].manifest) <= Digests(body[..k])
  {
    var g := rs[i].desc.digest;
    assert g in ManifestDigests(p, rs) by { assert Descs(rs)[i] == rs[i].desc; }
    BodyContains(p, rs, i);
    var body := Body(p, rs);
    var k := FirstIndex(body, g);
    var h := |p.manifest.layers| + 1;
    if k < h { HeadIsContent(p, rs, k); }
    assert body[k] == Blocks(rs)[k - h] && body[..k] == body[..h] + Blocks(rs)[..k - h];
    BlocksShape(rs, k - h);
    var m :| 0 <= m < |rs| && Blocks(rs)[k - h] == rs[m].desc
      && ChildDigests(rs[m].manifest) <= Digests(Blocks(rs)[..k - h]);
    assert rs[m].manifest == rs[i].manifest;
    DigestsPart(body[..h], Blocks(rs)[..k - h]);
  }

  lemma DigestsPart(a: seq<Descriptor>, b: seq<Descriptor>)
    ensures Digests(b) <= Digests(a + b)
  {
    assert forall d :: d in b ==> d in a + b;
  }

  lemma HeadIsContent(p: Entry, rs: seq<Entry>, k: nat)
    requires k <= |p.manifest.layers|
    ensures k < |Body(p, rs)| && Body(p, rs)[k].digest in ContentDigests(p, rs)
  {
    if k < |p.manifest.layers| {
      assert Body(p, rs)[k] == p.manifest.layers[k];
    } else {
      assert Body(p, rs)[k] == p.manifest.config;
    }
  }

  /** In the closure, a referrer manifest comes after each of its children. */
  lemma ReferrerAfterChild(p: Entry, rs: seq<Entry>, i: nat, x: string)
    requires Coherent(p, rs) && ManifestsNotContent(p, rs)
    requires i < |rs| && x in ChildDigests(rs[i].manifest)
    ensures var all := Body(p, rs) + [p.desc]; FirstIndex(all, x) < FirstIndex(all, rs[i].desc.digest) < |all|
  {
    var g := rs[i].desc.digest;
    FirstMention(p, rs, i);
    var body := Body(p, rs);
    var k := FirstIndex(body, g);
    assert body[k].digest == g;
    FirstIndexExtend(body, [p.desc], g);
    assert (body + [p.desc])[..k] == body[..k];
    IndexBelow(body + [p.desc], k, x);
  }

  lemma IndexBelow(ds: seq<Descriptor>, k: nat, x: string)
    requires k <= |ds| && x in Digests(ds[..k])
    ensures FirstIndex(ds, x) < k
  {
    var j :| 0 <= j < k && ds[..k][j].digest == x;
    assert ds[j].digest == x;
  }

  /** Pushing the primary last appends it exactly when nothing before it has its digest. */
  lemma PrimaryAppended(body: seq<Descriptor>, p: Descriptor)
    ensures FirstByDigest(body + [p]) == FirstByDigest(body) + [p] <==> p.digest !in Digests(body)
  {
    var all := body + [p];
    assert all[..|all| - 1] == body;
  }

  lemma {:induction false} BodyDigests(p: Entry, rs: seq<Entry>)
    ensures Digests(Body(p, rs)) <= ContentDigests(p, rs) + Digests(Descs(rs))
  {
    forall d | d in Body(p, rs) ensures d.digest in ContentDigests(p, rs) + Digests(Descs(rs)) {
      if d !in p.manifest.layers && d != p.manifest.config {
        var k :| 0 <= k < |Blocks(rs)| && Blocks(rs)[k] == d;
        BlocksShape(rs, k);
        if i :| 0 <= i < |rs| && d.digest in ChildDigests(rs[i].manifest) {
          assert rs[i] in rs;
        } else {
          var i :| 0 <= i < |rs| && Blocks(rs)[k] == rs[i].desc;
          assert Descs(rs)[i] == d;
        }
      }
    }
  }

  /** In the deduplicated closure, manifests come after their children and the primary is last. */
  lemma ClosureOrdered(p: Entry, rs: seq<Entry>)
    requires Coherent(p, rs) && ManifestsNotContent(p, rs)
    ensures var out := FirstByDigest(Body(p, rs) + [p.desc]);
      && (forall i, x :: 0 <= i < |rs| && x in ChildDigests(rs[i].manifest) ==>
            FirstIndex(out, x) < FirstIndex(out, rs[i].desc.digest) < |out|)
      && out == FirstByDigest(Body(p, rs)) + [p.desc]
  {
    BodyDigests(p, rs);
    PrimaryAppended(Body(p, rs), p.desc);
    var all := Body(p, rs) + [p.desc];
    forall i, x | 0 <= i < |rs| && x in ChildDigests(rs[i].manifest)
      ensures FirstIndex(FirstByDigest(all), x) < FirstIndex(FirstByDigest(all),
        rs[i].desc.digest) < |FirstByDigest(all)|
    {
      ReferrerAfterChild(p, rs, i, x);
      assert x in Digests(all) && rs[i].desc.digest in Digests(all);
      OrderKept(all, x, rs[i].desc.digest);
    }
  }

  /**
   * The order a sink relies on: every referrer manifest after its children, the primary
   * manifest after everything, so a manifest is never published before its content.
   */
  lemma ManifestsAfterContent(c: Codec, dir: Files)
    requires WellFormed(c, dir)
    requires ManifestsNotContent(PrimaryEntry(c, dir), ReferrerEntries(c, dir))
    ensures var rs := ReferrerEntries(c, dir); var v := View(c, dir);
      && (forall i, x :: 0 <= i < |rs| && x in ChildDigests(rs[i].manifest) ==>
            FirstIndex(v.referenced, x) < FirstIndex(v.referenced, rs[i].desc.digest) < |v.referenced|)
      && v.referenced == FirstByDigest(Body(PrimaryEntry(c, dir), rs)) + [v.primary]
  {
    LoadedCoherent(c, dir);
    ClosureOrdered(PrimaryEntry(c, dir), ReferrerEntries(c, dir));
  }

  /** Everything a manifest names, and every referrer, is listed before the primary. */
  lemma BodyDigestsAre(p: Entry, rs: seq<Entry>)
    ensures Digests(Body(p, rs)) == ContentDigests(p, rs) + Digests(Descs(rs))
  {
    BodyDigests(p, rs);
    forall g | g in ChildDigests(p.manifest) ensures g in Digests(Body(p, rs)) { HeadListed(p, rs, g); }
    forall e | e in rs
      ensures ChildDigests(e.manifest) <= Digests(Body(p, rs)) && e.desc.digest in Digests(Body(p, rs))
    {
      var i :| 0 <= i < |rs| && rs[i] == e;
      BodyContains(p, rs, i);
    }
    forall d | d in Descs(rs) ensures d.digest in Digests(Body(p, rs)) {
      var i :| 0 <= i < |rs| && Descs(rs)[i] == d;
      assert rs[i] in rs && rs[i].desc == d;
    }
  }

  lemma HeadListed(p: Entry, rs: seq<Entry>, g: string)
    requires g in ChildDigests(p.manifest)
    ensures g in Digests(Body(p, rs))
  {
    var n := |p.manifest.layers|;
    if g == p.manifest.config.digest {
      assert Body(p, rs)[n] == p.manifest.config;
    } else {
      var k :| 0 <= k < n && p.manifest.layers[k].digest == g;
      assert Body(p, rs)[k] == p.manifest.layers[k];
    }
  }

  /**
   * In every accepted layout, the primary is appended to the list of everything else exactly
   * when it is no layer and no config of any manifest.
   */
  lemma PrimaryLastExactly(c: Codec, dir: Files)
    requires WellFormed(c, dir)
    ensures var p, rs := PrimaryEntry(c, dir), ReferrerEntries(c, dir);
      View(c, dir).referenced == FirstByDigest(Body(p, rs)) + [View(c, dir).primary] <==>
        View(c, dir).primary.digest !in ContentDigests(p, rs)
  {
    var p, rs := PrimaryEntry(c, dir), ReferrerEntries(c, dir);
    LoadedCoherent(c, dir);
    PrimaryLastFor(p, rs);
  }

  lemma PrimaryLastFor(p: Entry, rs: seq<Entry>)
    requires Coherent(p, rs)
    ensures FirstByDigest(Body(p, rs) + [p.desc]) == FirstByDigest(Body(p, rs)) + [p.desc] <==>
      p.desc.digest !in ContentDigests(p, rs)
  {
    PrimaryAppended(Body(p, rs), p.desc);
    BodyDigestsAre(p, rs);
    assert p.desc.digest !in Digests(Descs(rs)) by {
      forall d | d in Descs(rs) ensures d.digest != p.desc.digest { var i :| 0 <= i < |rs| && Descs(rs)[i] == d; }
    }
  }

  /**
   * The condition is needed: a referrer whose layer is the primary manifest puts the
   * primary first, so the list no longer ends with it.
   */
  lemma PrimaryLastNeedsCondition(g: string, r: string, k: string)
    requires g != r && r != k && g != k
    ensures var d := (x: string) => Descriptor(MANIFEST_TYPE, x, 2, None);
      var p := Entry(d(g), Manifest(None, d(k), [], None));
      var e := Entry(d(r), Manifest(None, d(k), [d(g)], Some(d(g))));
      FirstByDigest(Body(p, [e]) + [p.desc]) == [d(k), d(g), d(r)]
  {
    var d := (x: string) => Descriptor(MANIFEST_TYPE, x, 2, None);
    var p := Entry(d(g), Manifest(None, d(k), [], None));
    var e := Entry(d(r), Manifest(None, d(k), [d(g)], Some(d(g))));
    assert [e][..0] == [] && Blocks([e]) == Block(e);
    assert Body(p, [e]) + [p.desc] == [d(k), d(g)] + [d(k)] + [d(r)] + [d(g)];
    FiveDeduplicated(d(k), d(g), d(r));
  }

  lemma FiveDeduplicated(x: Descriptor, y: Descriptor, z: Descriptor)
    requires x.digest != y.digest && y.digest != z.digest && x.digest != z.digest
    ensures FirstByDigest([x, y] + [x] + [z] + [y]) == [x, y, z]
  {
    TwoDistinct(x, y);
    assert [x, y][0] == x && [x, y][1] == y;
    NewAmongOld([x, y], x, z, y);
    assert [x, y] + [z] == [x, y, z];
  }

  /** Of three more descriptors, only the one with a new digest is kept. */
  lemma NewAmongOld(ds: seq<Descriptor>, x: Descriptor, z: Descriptor, y: Descriptor)
    requires FirstByDigest(ds) == ds && x in ds && y in ds && z.digest !in Digests(ds)
    ensures FirstByDigest(ds + [x] + [z] + [y]) == ds + [z]
  {
    var i :| 0 <= i < |ds| && ds[i] == x;
    var j :| 0 <= j < |ds| && ds[j] == y;
    Seen(ds, x, i);
    forall k | 0 <= k < |ds + [x]| ensures (ds + [x])[k].digest != z.digest { assert (ds + [x])[k] in ds; }
    Fresh(ds + [x], z);
    assert (ds + [x] + [z])[j] == y;
    Seen(ds + [x] + [z], y, j);
  }

  lemma TwoDistinct(x: Descriptor, y: Descriptor)
    requires x.digest != y.digest
    ensures FirstByDigest([x, y]) == [x, y]
  {
    Fresh([], x);
    assert [] + [x] == [x] && [x] + [y] == [x, y];
    Fresh([x], y);
  }

  lemma Fresh(ds: seq<Descriptor>, d: Descriptor)
    requires forall i :: 0 <= i < |ds| ==> ds[i].digest != d.digest
    ensures FirstByDigest(ds + [d]) == FirstByDigest(ds) + [d]
  {
    assert (ds + [d])[..|ds|] == ds;
  }

  lemma Seen(ds: seq<Descriptor>, d: Descriptor, i: nat)
    requires i < |ds| && ds[i].digest == d.digest
    ensures FirstByDigest(ds + [d]) == FirstByDigest(ds)
  {
    assert (ds + [d])[..|ds|] == ds && ds[i] in ds;
  }

  // ── what a layout depends on ──

  /** Two directories hold the same bytes (or both nothing) for a digest. */
  predicate SameBlob(a: Files, b: Files, g: string) { BlobBytes(a, g) == BlobBytes(b, g) }

  ghost predicate SameBlobs(a: Files, b: Files, gs: set<string>)
  {
    forall g {:trigger SameBlob(a, b, g)} :: g in gs ==> SameBlob(a, b, g)
  }

  /** `b` has the marker and index of `a`, and the bytes of every blob `a` references. */
  ghost predicate Mirrors(c: Codec, a: Files, b: Files)
    requires WellFormed(c, a)
  {
    && LAYOUT_FILE in b && b[LAYOUT_FILE] == a[LAYOUT_FILE]
    && INDEX_FILE in b && b[INDEX_FILE] == a[INDEX_FILE]
    && SameBlobs(a, b, Digests(View(c, a).referenced))
  }

  lemma {:induction false} BucketAgree(f: Loader, g: Loader, ds: seq<Descriptor>, referrer: bool)
    requires AllLoadable(f, ds)
    requires forall d <- ds :: f(d.digest) == g(d.digest)
    ensures AllLoadable(g, ds) && Bucket(f, ds, referrer) == Bucket(g, ds, referrer)
  {
    forall i | 0 <= i < |ds| ensures Loadable(g, ds[i]) { assert ds[i] in ds; }
    if ds != [] {
      var n := |ds| - 1;
      assert ds[n] in ds;
      BucketAgree(f, g, ds[..n], referrer);
    }
  }

  /** The closure names both kinds of manifest and all their children. */
  lemma ClosureNames(p: Entry, rs: seq<Entry>)
    ensures var all := Digests(Body(p, rs) + [p.desc]);
      && ManifestDigests(p, rs) <= all
      && ChildDigests(p.manifest) <= all
      && forall i :: 0 <= i < |rs| ==> ChildDigests(rs[i].manifest) <= all
  {
    var body := Body(p, rs);
    assert forall d :: d in body ==> d in body + [p.desc];
    assert p.manifest.config in body && forall d :: d in p.manifest.layers ==> d in body;
    assert p.desc in body + [p.desc];
    forall i | 0 <= i < |rs|
      ensures ChildDigests(rs[i].manifest) <= Digests(body) && rs[i].desc.digest in Digests(body)
    {
      BodyContains(p, rs, i);
    }
  }

  /** Every index entry is the primary or a referrer. */
  lemma IndexCovered(load: Loader, ds: seq<Descriptor>)
    requires AllLoadable(load, ds) && |Bucket(load, ds, false)| == 1
    ensures Digests(ds) == ManifestDigests(Bucket(load, ds, false)[0], Bucket(load, ds, true))
  {
    var ps, rs := Bucket(load, ds, false), Bucket(load, ds, true);
    assert Descs(ps) == [ps[0].desc];
    forall d ensures d in ds <==> d == ps[0].desc || d in Descs(rs) {
      BucketMembers(load, ds, true, d);
      BucketMembers(load, ds, false, d);
    }
  }

  ghost predicate KidsWithin(es: seq<Entry>, all: set<string>)
  {
    forall i :: 0 <= i < |es| ==> ChildDigests(es[i].manifest) <= all
  }

  lemma ViewReferences(load: Loader, ds: seq<Descriptor>)
    requires AllLoadable(load, ds) && |Bucket(load, ds, false)| == 1
    ensures var all := Digests(ViewOf(load, ds).referenced);
      Digests(ds) <= all && KidsWithin(Bucket(load, ds, false), all) && KidsWithin(Bucket(load, ds, true), all)
  {
    var p, rs := Bucket(load, ds, false)[0], Bucket(load, ds, true);
    KidsNamed(p, rs);
    IndexCovered(load, ds);
    assert Bucket(load, ds, false) == [p];
  }

  lemma KidsNamed(p: Entry, rs: seq<Entry>)
    ensures var all := Digests(FirstByDigest(Body(p, rs) + [p.desc]));
      ManifestDigests(p, rs) <= all && KidsWithin([p], all) && KidsWithin(rs, all)
  {
    ClosureNames(p, rs);
  }

  /** Every digest the index or a loaded manifest names is referenced. */
  lemma ClosureReferenced(c: Codec, dir: Files)
    requires WellFormed(c, dir)
    ensures var all := Digests(View(c, dir).referenced);
      && Digests(IndexEntries(c, dir).value) <= all && ChildDigests(PrimaryEntry(c, dir).manifest) <= all
      && KidsWithin(Bucket(Stored(c, dir), IndexEntries(c, dir).value, false), all)
        && KidsWithin(ReferrerEntries(c, dir), all)
  {
    ViewReferences(Stored(c, dir), IndexEntries(c, dir).value);
  }

  ghost predicate AgreeOn(f: Loader, g: Loader, ds: seq<Descriptor>) { forall d <- ds :: f(d.digest) == g(d.digest) }

  /** The index entries and the manifests behind them are the same. */
  lemma MirrorLoads(c: Codec, a: Files, b: Files)
    requires WellFormed(c, a) && INDEX_FILE in b && b[INDEX_FILE] == a[INDEX_FILE]
    requires SameBlobs(a, b, Digests(View(c, a).referenced))
    ensures IndexEntries(c, b) == IndexEntries(c, a)
    ensures AgreeOn(Stored(c, a), Stored(c, b), IndexEntries(c, a).value)
  {
    ClosureReferenced(c, a);
    assert IndexEntries(c, b) == IndexEntries(c, a);
    SameLoads(c, a, b, IndexEntries(c, a).value, Digests(View(c, a).referenced));
  }

  lemma SameLoads(c: Codec, a: Files, b: Files, ds: seq<Descriptor>, all: set<string>)
    requires SameBlobs(a, b, all) && Digests(ds) <= all
    ensures AgreeOn(Stored(c, a), Stored(c, b), ds)
  {
    forall d | d in ds ensures Stored(c, a)(d.digest) == Stored(c, b)(d.digest) {
      assert d.digest in Digests(ds) && SameBlob(a, b, d.digest);
    }
  }

  /** Closure carries over to a directory that loads the same manifests and has the same blobs. */
  lemma ClosedMirror(f: Loader, g: Loader, ds: seq<Descriptor>, a: Files, b: Files, all: set<string>)
    requires Closed(f, ds, a) && AgreeOn(f, g, ds) && SameBlobs(a, b, all)
    requires KidsWithin(Bucket(f, ds, false), all) && KidsWithin(Bucket(f, ds, true), all)
    ensures Closed(g, ds, b) && ViewOf(g, ds) == ViewOf(f, ds)
  {
    var p, rs := Bucket(f, ds, false)[0], Bucket(f, ds, true);
    BucketAgree(f, g, ds, true);
    BucketAgree(f, g, ds, false);
    ChildrenMirror(a, b, p.manifest, all);
    forall i | 0 <= i < |rs| ensures RefersTo(b, rs[i], p.desc.digest) {
      assert RefersTo(a, rs[i], p.desc.digest);
      ChildrenMirror(a, b, rs[i].manifest, all);
    }
  }

  /** A directory that mirrors a well-formed one is well formed and reads the same. */
  lemma MirrorOpens(c: Codec, a: Files, b: Files)
    requires WellFormed(c, a) && Mirrors(c, a, b)
    ensures WellFormed(c, b) && View(c, b) == View(c, a)
  {
    SameIndexOpens(c, a, b);
  }

  /** So does one with another marker, as long as that is valid. */
  lemma SameIndexOpens(c: Codec, a: Files, b: Files)
    requires WellFormed(c, a) && LayoutValid(c, b) && INDEX_FILE in b && b[INDEX_FILE] == a[INDEX_FILE]
    requires SameBlobs(a, b, Digests(View(c, a).referenced))
    ensures WellFormed(c, b) && View(c, b) == View(c, a)
  {
    MirrorLoads(c, a, b);
    ClosureReferenced(c, a);
    var ds, all := IndexEntries(c, a).value, Digests(View(c, a).referenced);
    ClosedMirror(Stored(c, a), Stored(c, b), ds, a, b, all);
  }

  lemma ChildrenMirror(a: Files, b: Files, m: Manifest, all: set<string>)
    requires ChildrenPresent(a, m) && ChildDigests(m) <= all && SameBlobs(a, b, all)
    ensures ChildrenPresent(b, m)
  {
    assert SameBlob(a, b, m.config.digest);
    forall i | 0 <= i < |m.layers| ensures Present(b, m.layers[i].digest) {
      assert m.layers[i].digest in ChildDigests(m) && SameBlob(a, b, m.layers[i].digest);
    }
  }

  /** The closure names nothing but the manifests and their children. */
  lemma ClosureWithin(p: Entry, rs: seq<Entry>, here: set<string>)
    requires ManifestDigests(p, rs) <= here && ChildDigests(p.manifest) <= here
    requires forall i :: 0 <= i < |rs| ==> ChildDigests(rs[i].manifest) <= here
    ensures Digests(Body(p, rs) + [p.desc]) <= here
  {
    BodyDigests(p, rs);
    assert forall e <- rs :: ChildDigests(e.manifest) <= here;
    assert ContentDigests(p, rs) <= here;
    assert Digests(Body(p, rs) + [p.desc]) == Digests(Body(p, rs)) + {p.desc.digest};
  }

  lemma ChildrenHere(dir: Files, m: Manifest, here: set<string>, all: set<string>)
    requires ChildrenPresent(dir, m) && ChildDigests(m) <= all
    requires here == set g <- all | Present(dir, g)
    ensures ChildDigests(m) <= here
  {
  }

  lemma EntriesPresent(c: Codec, dir: Files, ds: seq<Descriptor>, referrer: bool)
    requires AllLoadable(Stored(c, dir), ds)
    ensures forall i :: 0 <= i < |Bucket(Stored(c, dir), ds, referrer)| ==>
      Present(dir, Bucket(Stored(c, dir), ds, referrer)[i].desc.digest)
  {
  }

  /** The entries of a well-formed layout are there with their children. */
  lemma EntriesComplete(c: Codec, dir: Files)
    requires WellFormed(c, dir)
    ensures var p, rs := PrimaryEntry(c, dir), ReferrerEntries(c, dir);
      && Present(dir, p.desc.digest) && ChildrenPresent(dir, p.manifest)
      && forall i :: 0 <= i < |rs| ==> Present(dir, rs[i].desc.digest) && RefersTo(dir, rs[i], p.desc.digest)
  {
    EntriesPresent(c, dir, IndexEntries(c, dir).value, false);
    EntriesPresent(c, dir, IndexEntries(c, dir).value, true);
  }

  /** If every manifest and every child is there, the whole closure is. */
  lemma ClosurePresent(dir: Files, p: Entry, rs: seq<Entry>)
    requires Present(dir, p.desc.digest) && ChildrenPresent(dir, p.manifest)
    requires forall i :: 0 <= i < |rs| ==> Present(dir, rs[i].desc.digest) && ChildrenPresent(dir, rs[i].manifest)
    ensures forall g <- Digests(Body(p, rs) + [p.desc]) :: Present(dir, g)
  {
    var all := Digests(Body(p, rs) + [p.desc]);
    var here := set g <- all | Present(dir, g);
    ClosureNames(p, rs);
    ChildrenHere(dir, p.manifest, here, all);
    ManifestsHere(dir, p, rs, here, all);
    forall i | 0 <= i < |rs|
      ensures ChildDigests(rs[i].manifest) <= here
    {
      ChildrenHere(dir, rs[i].manifest, here, all);
    }
    ClosureWithin(p, rs, here);
  }

  lemma ManifestsHere(dir: Files, p: Entry, rs: seq<Entry>, here: set<string>, all: set<string>)
    requires Present(dir, p.desc.digest) && forall i :: 0 <= i < |rs| ==> Present(dir, rs[i].desc.digest)
    requires ManifestDigests(p, rs) <= all && here == set g <- all | Present(dir, g)
    ensures ManifestDigests(p, rs) <= here
  {
    var ds := Descs(rs);
    forall g | g in Digests(ds) ensures Present(dir, g) {
      var i :| 0 <= i < |ds| && ds[i].digest == g;
      assert Present(dir, rs[i].desc.digest);
    }
  }

  /** Every referenced blob of a well-formed layout is there. */
  lemma ReferencedPresent(c: Codec, dir: Files)
    requires WellFormed(c, dir)
    ensures forall g <- Digests(View(c, dir).referenced) :: Present(dir, g)
  {
    var p, rs := PrimaryEntry(c, dir), ReferrerEntries(c, dir);
    EntriesComplete(c, dir);
    forall i | 0 <= i < |rs|
      ensures ChildrenPresent(dir, rs[i].manifest)
    {
      assert RefersTo(dir, rs[i], p.desc.digest);
    }
    ClosurePresent(dir, p, rs);
  }

  /** The referenced blobs are the manifests and their content. */
  lemma ReferencedAre(c: Codec, dir: Files)
    requires WellFormed(c, dir)
    ensures Digests(View(c, dir).referenced) ==
      ManifestDigests(PrimaryEntry(c, dir), ReferrerEntries(c, dir)) + ContentDigests(PrimaryEntry(c, dir),
        ReferrerEntries(c, dir))
  {
    ClosureIs(PrimaryEntry(c, dir), ReferrerEntries(c, dir));
  }

  lemma ClosureIs(p: Entry, rs: seq<Entry>)
    ensures Digests(Body(p, rs) + [p.desc]) == ManifestDigests(p, rs) + ContentDigests(p, rs)
  {
    var all, parts := Digests(Body(p, rs) + [p.desc]), ManifestDigests(p, rs) + ContentDigests(p, rs);
    ClosureNames(p, rs);
    forall e | e in rs ensures ChildDigests(e.manifest) <= all {
      var i :| 0 <= i < |rs| && rs[i] == e;
    }
    forall i | 0 <= i < |rs| ensures ChildDigests(rs[i].manifest) <= parts { assert rs[i] in rs; }
    ClosureWithin(p, rs, parts);
  }
}
