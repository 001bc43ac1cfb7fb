/**
 * Layouts and registries, down to their bytes, at which a promise fails or the hypotheses of
 * a theorem hold together. The codec is a table on the documents named here.
 */
module Instances {
  import opened Wrappers
  import opened Json
  import opened Oci
  import opened ImageDirs
  import opened ImageDirFacts
  import opened Staging
  import opened LawfulCodecs
  import opened RefParser
  import opened Wire
  import opened Pull
  import opened Deliveries
  import opened PullFacts
  import R = Registry
  import opened RegistrySink
  import opened RoundTrip

  // ── documents ──

  /** The digest of the `i`-th document. */
  function D(i: nat): string
    requires i < 10
  {
    DigestText(Name(i))
  }

  function Doc(i: nat): Descriptor
    requires i < 10
  {
    Descriptor(MANIFEST_TYPE, D(i), 2, None)
  }

  lemma DigestsDiffer(i: nat, j: nat)
    requires i < 10 && j < 10 && i != j
    ensures D(i) != D(j) && Name(i) != Name(j)
  {
    NameHex(i);
    NameHex(j);
    assert D(i)[7..] == Name(i) && D(j)[7..] == Name(j);
  }

  function ManifestObj(m: Manifest): Json
  {
    var base := map["config" := DescriptorJson(m.config), "layers" := JArr(DescriptorsJson(m.layers))];
    JObj(if m.subject.Some? then base["subject" := DescriptorJson(m.subject.value)] else base)
  }

  /** Manifests the documents may be. */
  predicate Plain(m: Manifest)
  {
    m.mediaType.None? && Fits(m.config) && (forall d <- m.layers :: Fits(d))
      && (m.subject.Some? ==> Fits(m.subject.value))
  }

  /** A printed manifest reads back. */
  lemma ManifestReadsBack(m: Manifest)
    requires Plain(m)
    ensures DecodeManifest(ManifestObj(m)) == Some(m)
  {
    var j := ManifestObj(m);
    DescriptorRoundTrip(m.config);
    DescriptorsRoundTrip(m.layers);
    assert Field(j, "layers") == Some(JArr(DescriptorsJson(m.layers)));
    assert DecodeWireManifest(j) == Some((m.config, m.layers));
    SubjectReadsBack(m);
  }

  lemma SubjectReadsBack(m: Manifest)
    requires m.subject.Some? ==> Fits(m.subject.value)
    ensures OptDescriptorField(ManifestObj(m), "subject") == Some(m.subject)
  {
    if m.subject.Some? { DescriptorRoundTrip(m.subject.value); }
  }

  /** An empty config, the first of two manifests, and the second. */
  function Docs(p: Manifest, q: Manifest): seq<Json> { [JObj(map[]), ManifestObj(p), ManifestObj(q)] }

  ghost function CodecOf(p: Manifest, q: Manifest): Codec { TableCodec(Docs(p, q)) }

  /** The bytes of the three documents. */
  const BYTES: seq<Bytes> := [[0], [1], [2]]

  lemma DocsRead(p: Manifest, q: Manifest)
    requires Plain(p) && Plain(q) && p != q
    ensures var c := CodecOf(p, q);
      && c.Lawful() && (forall i: nat :: i < 3 ==> c.hash(BYTES[i]) == Name(i) && c.DigestOf(BYTES[i]) == D(i))
      && ParseManifest(c, BYTES[1]) == Some(p) && ParseManifest(c, BYTES[2]) == Some(q)
  {
    TableLawful(Docs(p, q));
    ManifestReadsBack(p);
    ManifestReadsBack(q);
    DocsParse(Docs(p, q));
  }

  lemma DocsParse(docs: seq<Json>)
    requires |docs| == 3 && docs[0] != docs[1] && docs[0] != docs[2] && docs[1] != docs[2]
    ensures forall i: nat :: i < 3 ==> Hash(BYTES[i]) == Name(i) && Read(docs, BYTES[i]) == Some(docs[i])
  {
    forall i: nat | i < 3
      ensures Hash(BYTES[i]) == Name(i) && Read(docs, BYTES[i]) == Some(docs[i])
    {
      TablePrints(docs, i);
    }
  }

  // ── a layout of two manifests ──

  /** Marker, index and three blobs. */
  function ThreeBlobs(marker: Bytes, index: Bytes, names: seq<string>, docs: seq<Bytes>): Files
    requires |names| == |docs| == 3
  {
    map[LAYOUT_FILE := marker, INDEX_FILE := index,
      Path.Blob(names[0]) := docs[0], Path.Blob(names[1]) := docs[1], Path.Blob(names[2]) := docs[2]]
  }

  lemma ThreeBlobsHold(marker: Bytes, index: Bytes, names: seq<string>, docs: seq<Bytes>)
    requires |names| == |docs| == 3 && names[0] != names[1] && names[0] != names[2] && names[1] != names[2]
    ensures var f := ThreeBlobs(marker, index, names, docs);
      && f[LAYOUT_FILE] == marker && f[INDEX_FILE] == index
      && (forall i :: 0 <= i < 3 ==> Path.Blob(names[i]) in f && f[Path.Blob(names[i])] == docs[i])
      && (forall h :: Path.Blob(h) in f ==> h == names[0] || h == names[1] || h == names[2])
  {
  }

  function Names(): (r: seq<string>)
    ensures |r| == 3 && forall i: nat :: i < 3 ==> r[i] == Name(i)
  {
    [Name(0), Name(1), Name(2)]
  }

  ghost function Layout(p: Manifest, q: Manifest): Files
  {
    var c := CodecOf(p, q);
    ThreeBlobs(MarkerBytes(c), c.compact(IndexJson([Doc(1), Doc(2)])), Names(), BYTES)
  }

  /** What is in the layout, and nothing else. */
  lemma LayoutHolds(p: Manifest, q: Manifest)
    ensures var c, dir := CodecOf(p, q), Layout(p, q);
      && LAYOUT_FILE in dir && dir[LAYOUT_FILE] == MarkerBytes(c)
      && INDEX_FILE in dir && dir[INDEX_FILE] == c.compact(IndexJson([Doc(1), Doc(2)]))
    ensures forall i: nat :: i < 3 ==> BlobBytes(Layout(p, q), D(i)) == Some(BYTES[i])
    ensures forall h :: Path.Blob(h) in Layout(p, q) ==> exists i: nat :: i < 3 && h == Name(i)
  {
    DigestsDiffer(0, 1);
    DigestsDiffer(0, 2);
    DigestsDiffer(1, 2);
    var c := CodecOf(p, q);
    ThreeBlobsHold(MarkerBytes(c), c.compact(IndexJson([Doc(1), Doc(2)])), Names(), BYTES);
    NamedBlobs(Layout(p, q));
  }

  lemma NamedBlobs(f: Files)
    requires forall i: nat :: i < 3 ==> Path.Blob(Names()[i]) in f && f[Path.Blob(Names()[i])] == BYTES[i]
    ensures forall i: nat :: i < 3 ==> BlobBytes(f, D(i)) == Some(BYTES[i])
  {
    forall i: nat | i < 3 ensures BlobBytes(f, D(i)) == Some(BYTES[i]) {
      NameHex(i);
      assert Names()[i] == Name(i);
    }
  }

  lemma LayoutCorrect(p: Manifest, q: Manifest)
    requires Plain(p) && Plain(q) && p != q
    ensures StoreCorrect(CodecOf(p, q), Layout(p, q))
  {
    DocsRead(p, q);
    LayoutHolds(p, q);
    AllHashed(CodecOf(p, q), Layout(p, q));
  }

  lemma AllHashed(c: Codec, dir: Files)
    requires forall i: nat :: i < 3 ==> c.hash(BYTES[i]) == Name(i) && BlobBytes(dir, D(i)) == Some(BYTES[i])
    requires forall h :: Path.Blob(h) in dir ==> exists i: nat :: i < 3 && h == Name(i)
    ensures StoreCorrect(c, dir)
  {
    forall h | IsHex64(h) && Path.Blob(h) in dir ensures c.hash(dir[Path.Blob(h)]) == h {
      var i: nat :| i < 3 && h == Name(i);
      NameHex(i);
      assert BlobBytes(dir, D(i)) == Some(BYTES[i]);
    }
  }

  /** The second manifest refers to the first, and everything they name is one of the three documents. */
  predicate Paired(p: Manifest, q: Manifest)
  {
    && Plain(p) && Plain(q) && p.subject.None? && q.subject == Some(Doc(1)) && p.config == q.config == Doc(0)
    && (forall d <- p.layers + q.layers :: exists i: nat :: i < 3 && d == Doc(i))
  }

  lemma LayoutOpens(p: Manifest, q: Manifest)
    requires Paired(p, q)
    ensures var c, dir := CodecOf(p, q), Layout(p, q);
      && c.Lawful() && WellFormed(c, dir) && StoreCorrect(c, dir)
      && PrimaryEntry(c, dir) == Entry(Doc(1), p) && ReferrerEntries(c, dir) == [Entry(Doc(2), q)]
  {
    var c, dir := CodecOf(p, q), Layout(p, q);
    DocsRead(p, q);
    LayoutCorrect(p, q);
    LayoutHolds(p, q);
    MarkerIsValid(c, dir);
    PairIndexed(c, dir);
    ChildrenThere(p, q);
    StoredAre(c, dir, p, q);
    PairSorted(Stored(c, dir), p, q);
    OpensAs(c, dir, p, q);
  }

  lemma StoredAre(c: Codec, dir: Files, p: Manifest, q: Manifest)
    requires BlobBytes(dir, D(1)) == Some(BYTES[1]) && BlobBytes(dir, D(2)) == Some(BYTES[2])
    requires ParseManifest(c, BYTES[1]) == Some(p) && ParseManifest(c, BYTES[2]) == Some(q)
    ensures Stored(c, dir)(D(1)) == Some(p) && Stored(c, dir)(D(2)) == Some(q)
  {
  }

  lemma MarkerIsValid(c: Codec, dir: Files)
    requires c.Lawful() && LAYOUT_FILE in dir && dir[LAYOUT_FILE] == MarkerBytes(c)
    ensures LayoutValid(c, dir)
  {
    var j := JObj(map["imageLayoutVersion" := JStr(LAYOUT_VERSION)]);
    assert c.parse(c.compact(j)) == Some(j);
    assert StrField(j, "imageLayoutVersion") == Some(LAYOUT_VERSION);
  }

  lemma PairIndexed(c: Codec, dir: Files)
    requires c.Lawful() && INDEX_FILE in dir && dir[INDEX_FILE] == c.compact(IndexJson([Doc(1), Doc(2)]))
    ensures IndexEntries(c, dir) == Some([Doc(1), Doc(2)])
  {
    var ds := [Doc(1), Doc(2)];
    assert c.parse(c.compact(IndexJson(ds))) == Some(IndexJson(ds));
    DescriptorsRoundTrip(ds);
    assert Field(IndexJson(ds), "manifests") == Some(JArr(DescriptorsJson(ds)));
  }

  lemma ChildrenThere(p: Manifest, q: Manifest)
    requires Paired(p, q)
    ensures ChildrenPresent(Layout(p, q), p) && ChildrenPresent(Layout(p, q), q)
  {
    LayoutHolds(p, q);
    forall i | 0 <= i < |p.layers| ensures Present(Layout(p, q), p.layers[i].digest) {
      assert p.layers[i] in p.layers + q.layers;
    }
    forall i | 0 <= i < |q.layers| ensures Present(Layout(p, q), q.layers[i].digest) {
      assert q.layers[i] in p.layers + q.layers;
    }
  }

  lemma PairSorted(load: Loader, p: Manifest, q: Manifest)
    requires Paired(p, q) && load(D(1)) == Some(p) && load(D(2)) == Some(q)
    ensures PairedBuckets(load, [Doc(1), Doc(2)], p, q)
  {
    assert Refers(load, Doc(2), D(1));
    ShapedSorted(load, Doc(1), [Doc(2)]);
    assert [Doc(1)] + [Doc(2)] == [Doc(1), Doc(2)];
    var rs := Bucket(load, [Doc(1), Doc(2)], true);
    assert |Descs(rs)| == 1 && Descs(rs)[0] == Doc(2);
  }

  lemma OpensAs(c: Codec, dir: Files, p: Manifest, q: Manifest)
    requires LayoutValid(c, dir) && IndexEntries(c, dir) == Some([Doc(1), Doc(2)])
    requires Stored(c, dir)(D(1)) == Some(p) && Stored(c, dir)(D(2)) == Some(q)
    requires ChildrenPresent(dir, p) && ChildrenPresent(dir, q)
    requires PairedBuckets(Stored(c, dir), [Doc(1), Doc(2)], p, q)
    ensures WellFormed(c, dir)
    ensures PrimaryEntry(c, dir) == Entry(Doc(1), p) && ReferrerEntries(c, dir) == [Entry(Doc(2), q)]
  {
    PairCloses(Stored(c, dir), dir, p, q);
  }

  ghost predicate PairedBuckets(load: Loader, ds: seq<Descriptor>, p: Manifest, q: Manifest)
  {
    && AllLoadable(load, ds) && Bucket(load, ds, false) == [Entry(Doc(1), p)]
      && Bucket(load, ds, true) == [Entry(Doc(2), q)]
    && q.subject == Some(Doc(1))
  }

  lemma PairCloses(load: Loader, dir: Files, p: Manifest, q: Manifest)
    requires PairedBuckets(load, [Doc(1), Doc(2)], p, q) && ChildrenPresent(dir, p) && ChildrenPresent(dir, q)
    ensures Closed(load, [Doc(1), Doc(2)], dir)
  {
  }

  // ── a layout whose primary is not listed last ──

  function Primary(layers: seq<Descriptor>): Manifest { Manifest(None, Doc(0), layers, None) }

  function Referrer(layers: seq<Descriptor>): Manifest { Manifest(None, Doc(0), layers, Some(Doc(1))) }

  /**
   * A layout is accepted although its referrer has the primary manifest as a layer, and does not
   * list its primary last.
   */
  lemma PrimaryNotLast()
    ensures var p, q := Primary([]), Referrer([Doc(1)]); var c, dir := CodecOf(p, q), Layout(p, q);
      && c.Lawful() && WellFormed(c, dir) && StoreCorrect(c, dir)
      && View(c, dir).primary == Doc(1) && View(c, dir).referenced == [Doc(0), Doc(1), Doc(2)]
  {
    DigestsDiffer(0, 1);
    DigestsDiffer(0, 2);
    DigestsDiffer(1, 2);
    assert Doc(1) in [Doc(1)];
    LayoutOpens(Primary([]), Referrer([Doc(1)]));
    PrimaryLastNeedsCondition(D(1), D(2), D(0));
  }

  // ── an open registry ──

  function NoBearer(s: Session): bool { s.bearer.None? }

  /** Of every four replies two are lost and one is a 503. */
  function Busy(n: nat): bool { n % 4 != 3 }

  /** It serves `up` and asks for nothing. */
  function OpenServer(up: Upstream): Server
  {
    Server(
      (n: nat, t: Target, a: Option<string>) =>
        if n % 4 == 1 then Got(UNAVAILABLE) else if Busy(n) then Lost else Got(up.serve(t)),
      (_, _, _) => NoAnswer, _ => Ok(None), _ => true)
  }

  lemma OpenServes(c: Codec, s: R.Store, list: string -> seq<Descriptor>, data: Content)
    ensures var up := UpstreamOf(c, s, list, data, NoBearer);
      Delivers(OpenServer(up), up) && up.ready(FRESH)
  {
    var up := UpstreamOf(c, s, list, data, NoBearer);
    ServedIsPlain(c, s, list, data, NoBearer);
    OpenDelivers(OpenServer(up), up, Busy);
    forall n: nat ensures OneFree(Busy, n) { assert !Busy(n + (3 - n % 4)); }
  }

  // ── the round trip has something to carry ──

  /** What the referrers API of the published registry lists. */
  function ListOne(d: string): seq<Descriptor> { if d == D(1) then [Doc(2)] else [] }

  /**
   * An image with a referrer, a tag, a referrers API and a server that meet everything
   * `RoundTrip.PublishThenPull` asks of them.
   */
  lemma RoundTripApplies()
    ensures var p, q := Primary([]), Referrer([]); var c, dir := CodecOf(p, q), Layout(p, q);
      && Publishable(c, dir, "t") && ListsReferrers(c, After(c, dir, "t"), ListOne)
      && var up := AfterUpstream(c, dir, "t", ListOne, NoBearer);
         Delivers(OpenServer(up), up) && up.ready(FRESH)
  {
    var p, q := Primary([]), Referrer([]);
    var c, dir := CodecOf(p, q), Layout(p, q);
    LayoutOpens(p, q);
    LayoutHolds(p, q);
    PairApart(Entry(Doc(1), p), Entry(Doc(2), q));
    assert Publishable(c, dir, "t");
    AfterHosts(c, dir, "t");
    GenuineEntries(c, dir);
    ListedAre(c, DataOf(dir), After(c, dir, "t"), Entry(Doc(1), p), Entry(Doc(2), q), ListOne);
    OpenServes(c, After(c, dir, "t"), ListOne, DataOf(dir));
  }

  lemma PairApart(e: Entry, f: Entry)
    requires e == Entry(Doc(1), Primary([])) && f == Entry(Doc(2), Referrer([]))
    ensures ManifestsNotContent(e, [f])
  {
    DigestsDiffer(0, 1);
    DigestsDiffer(0, 2);
    assert ContentDigests(e, [f]) == {D(0)};
  }

  lemma ListedAre(c: Codec, data: Content, s: R.Store, e: Entry, f: Entry, list: string -> seq<Descriptor>)
    requires Genuine(c, data, e, [f]) && Hosts(c, data, s, e, [f], "t") && f.manifest.subject == Some(e.desc)
    requires f.desc.mediaType == MANIFEST_TYPE && Fits(f.desc)
    requires forall d :: list(d) == if d == e.desc.digest then [f.desc] else []
    ensures ListsReferrers(c, s, list)
  {
    TwoHosted(c, data, s, e, f, "t");
    TwoParse(c, data, e, f);
    ListsOne(c, s, e, f, list);
  }

  lemma TwoParse(c: Codec, data: Content, e: Entry, f: Entry)
    requires Genuine(c, data, e, [f])
    ensures ParseManifest(c, data(e.desc.digest)) == Some(e.manifest)
    ensures ParseManifest(c, data(f.desc.digest)) == Some(f.manifest)
    ensures e.manifest.subject.None?
  {
    assert GenuineReferrer(c, data, f, e.desc.digest) by { assert f in [f]; }
  }

  lemma ListsOne(c: Codec, s: R.Store, e: Entry, f: Entry, list: string -> seq<Descriptor>)
    requires s.manifests.Keys == {e.desc.digest, f.desc.digest} && e.manifest.subject.None?
    requires ParseManifest(c, s.manifests[e.desc.digest]) == Some(e.manifest)
    requires ParseManifest(c, s.manifests[f.desc.digest]) == Some(f.manifest)
    requires f.manifest.subject == Some(e.desc) && f.desc.mediaType == MANIFEST_TYPE && Fits(f.desc)
    requires forall d :: list(d) == if d == e.desc.digest then [f.desc] else []
    ensures ListsReferrers(c, s, list)
  {
    assert Digests([f.desc]) == {f.desc.digest};
    forall d ensures Digests(list(d)) == set g <- s.manifests | NamesSubject(c, s.manifests[g], d) {
      OneSubject(c, s.manifests, e, f, d);
    }
  }

  lemma TwoHosted(c: Codec, data: Content, s: R.Store, e: Entry, f: Entry, tag: string)
    requires Hosts(c, data, s, e, [f], tag)
    ensures s.manifests.Keys == {e.desc.digest, f.desc.digest}
    ensures s.manifests[e.desc.digest] == data(e.desc.digest) && s.manifests[f.desc.digest] == data(f.desc.digest)
  {
    HostsManifests(c, data, s, e, [f], tag);
    PairDigests(e, f);
  }

  lemma HostsManifests(c: Codec, data: Content, s: R.Store, e: Entry, rs: seq<Entry>, tag: string)
    requires Hosts(c, data, s, e, rs, tag)
    ensures s.manifests.Keys == ManifestDigests(e, rs) && forall g <- s.manifests :: s.manifests[g] == data(g)
  {
  }

  lemma PairDigests(e: Entry, f: Entry)
    ensures ManifestDigests(e, [f]) == {e.desc.digest, f.desc.digest}
  {
    assert Descs([f]) == [f.desc];
    assert Digests([f.desc]) == {f.desc.digest};
  }

  lemma OneSubject(c: Codec, m: map<string, Bytes>, e: Entry, f: Entry, d: string)
    requires m.Keys == {e.desc.digest, f.desc.digest} && e.manifest.subject.None?
    requires ParseManifest(c, m[e.desc.digest]) == Some(e.manifest)
    requires ParseManifest(c, m[f.desc.digest]) == Some(f.manifest)
    requires f.manifest.subject == Some(e.desc)
    ensures (set g <- m | NamesSubject(c, m[g], d)) == if d == e.desc.digest then {f.desc.digest} else {}
  {
    assert !NamesSubject(c, m[e.desc.digest], d) && (NamesSubject(c, m[f.desc.digest], d) <==> d == e.desc.digest);
  }

  // ── a listed referrer that is a layer ──

  function Nowhere(): string { DigestText(seq(64, _ => 'f')) }

  /** A manifest whose config nobody has. */
  function Dangling(): Manifest { Manifest(None, Descriptor(EMPTY_CONFIG_TYPE, Nowhere(), 2, None), [], None) }

  /** An image whose one layer is the dangling manifest. */
  function Layered(): Manifest { Manifest(None, Doc(0), [Doc(1)], None) }

  /** No data hashes to it. */
  lemma NowhereFound(docs: seq<Json>, data: Bytes)
    requires |docs| <= 9
    ensures TableCodec(docs).DigestOf(data) != Nowhere()
  {
    HashHex(data);
    assert TableCodec(docs).DigestOf(data)[7..] == Hash(data) && Nowhere()[7..] == seq(64, _ => 'f');
  }

  /** A config, a layer and an image, and what the registry says of them. */
  datatype Shelf = Shelf(c: Codec, data: Content, k: Descriptor, l: Descriptor, p: Descriptor, layer: Manifest,
    tag: string)
  {
    function Image(): Manifest { Manifest(None, k, [l], None) }

    function Store(): R.Store
    {
      R.Store(map[k.digest := data(k.digest), l.digest := data(l.digest)], map[p.digest := data(p.digest)],
        map[tag := p.digest])
    }

    /** The referrers API lists the image's own layer. */
    function List(): string -> seq<Descriptor> { (_) => [l] }

    function Up(): Upstream { UpstreamOf(c, Store(), List(), data, NoBearer) }

    ghost predicate Stocked()
    {
      && c.Lawful() && Fits(l) && !Addressable(tag)
      && Hashed(c, data, k.digest) && Hashed(c, data, l.digest) && Hashed(c, data, p.digest)
      && p.digest != k.digest && p.digest != l.digest
      && ParseManifest(c, data(l.digest)) == Some(layer) && ParseManifest(c, data(p.digest)) == Some(Image())
    }
  }

  lemma ShelfHosts(h: Shelf)
    requires h.Stocked()
    ensures Hosts(h.c, h.data, h.Store(), Entry(h.p, h.Image()), [], h.tag)
  {
    ShelfChildren(h);
    ShelfKeys(h);
    ShelfHolds(h);
    HostsAlone(h.c, h.data, h.Store(), Entry(h.p, h.Image()), h.tag);
  }

  lemma ShelfHolds(h: Shelf)
    requires h.Stocked()
    ensures Holds(h.c, h.data, h.Store().manifests) && Holds(h.c, h.data, h.Store().blobs)
  {
    HoldsOne(h.c, h.data, h.p.digest);
    HoldsTwo(h.c, h.data, h.k.digest, h.l.digest);
  }

  lemma ShelfKeys(h: Shelf)
    ensures h.Store().manifests.Keys == {h.p.digest} && h.Store().blobs.Keys == {h.k.digest, h.l.digest}
  {
  }

  lemma HostsAlone(c: Codec, data: Content, s: R.Store, e: Entry, tag: string)
    requires s.manifests.Keys == {e.desc.digest} && s.blobs.Keys == ChildDigests(e.manifest)
    requires e.desc.digest !in s.blobs
    requires Holds(c, data, s.manifests) && Holds(c, data, s.blobs)
    requires !Addressable(tag) && tag in s.tags && s.tags[tag] == e.desc.digest
    ensures Hosts(c, data, s, e, [], tag)
  {
    AloneDigests(e);
  }

  lemma AloneDigests(e: Entry)
    ensures ManifestDigests(e, []) == {e.desc.digest}
    ensures e.desc.digest !in ChildDigests(e.manifest) ==>
      ContentDigests(e, []) - ManifestDigests(e, []) == ChildDigests(e.manifest)
  {
    assert Descs([]) == [];
  }

  lemma ShelfChildren(h: Shelf)
    ensures ChildDigests(h.Image()) == {h.k.digest, h.l.digest}
  {
    assert Digests([h.l]) == {h.l.digest};
  }

  lemma HoldsOne(c: Codec, data: Content, g: string)
    requires Hashed(c, data, g)
    ensures Holds(c, data, map[g := data(g)])
  {
  }

  lemma HoldsTwo(c: Codec, data: Content, g: string, h: string)
    requires Hashed(c, data, g) && Hashed(c, data, h)
    ensures Holds(c, data, map[g := data(g), h := data(h)])
  {
  }

  lemma ShelfServes(h: Shelf)
    requires h.Stocked()
    ensures h.Up().serve(ManifestAt(h.tag)).body.data == h.data(h.p.digest)
    ensures h.Up().serve(BlobAt(h.l.digest)).body.data == h.data(h.l.digest)
    ensures WireChildren(h.c, h.data(h.p.digest)) == ChildDigests(h.Image())
    ensures WireChildren(h.c, h.data(h.l.digest)) == ChildDigests(h.layer)
  {
    ShelfHosts(h);
    TagServes(h.c, h.data, h.Store(), h.List(), NoBearer, Entry(h.p, h.Image()), [], h.tag);
    BlobServes(h.c, h.Store(), h.List(), h.data, h.l.digest);
    KidsAre(h.c, h.data(h.l.digest), h.layer);
    KidsAre(h.c, h.data(h.p.digest), h.Image());
  }

  lemma BlobServes(c: Codec, s: R.Store, list: string -> seq<Descriptor>, data: Content, g: string)
    requires g in s.blobs
    ensures UpstreamOf(c, s, list, data, NoBearer).serve(BlobAt(g)).body.data == s.blobs[g]
  {
  }

  lemma ShelfFaithful(h: Shelf)
    requires h.Stocked()
    ensures Faithful(h.c, h.Up())
  {
    ShelfHosts(h);
    HostsFaithful(h.c, h.data, h.Store(), h.List(), NoBearer, Entry(h.p, h.Image()), [], h.tag);
  }

  lemma ShelfOffers(h: Shelf, required: bool)
    requires h.Stocked()
    ensures OffersImage(h.c, h.Up(), Tag(h.tag), required, [h.l])
  {
    ShelfOffered(h);
    ReferrersRead(h.c, h.Store(), h.List(), h.p.digest, required);
    ShelfServes(h);
    ShelfChildren(h);
    OffersListed(h.c, h.Up(), h.tag, required, h.p.digest, h.data(h.p.digest), h.l);
  }

  lemma ShelfOffered(h: Shelf)
    requires h.Stocked()
    ensures Offered(h.c, h.Up(), h.tag, h.p.digest)
  {
    ShelfChildren(h);
    EntryOffered(h.c, h.data, h.Store(), h.List(), NoBearer, h.tag, Entry(h.p, h.Image()));
  }

  lemma OffersListed(c: Codec, up: Upstream, tag: string, required: bool, g: string, data: Bytes, l: Descriptor)
    requires up.serve(ManifestAt(tag)).body.data == data && c.DigestOf(data) == g && Offered(c, up, tag, g)
    requires ReadReferrers(c, up.serve(ReferrersAt(g)), required) == Ok([l]) && l.digest in WireChildren(c, data)
    ensures OffersImage(c, up, Tag(tag), required, [l])
  {
    assert OfferedUnless(c, up, {g} + WireChildren(c, data), l.digest);
  }

  lemma ShelfSeen(h: Shelf, required: bool)
    requires h.Stocked() && forall bytes :: h.c.DigestOf(bytes) != h.layer.config.digest
    ensures SeenReferrer(h.c, h.Up(), Tag(h.tag), required, h.l, h.layer.config.digest)
  {
    ShelfOffers(h, required);
    ShelfServes(h);
    ShelfChildren(h);
  }

  function LayeredData(g: string): Bytes { if g == D(0) then [0] else if g == D(1) then [1] else [2] }

  ghost function LayeredShelf(): Shelf
  {
    Shelf(CodecOf(Dangling(), Layered()), LayeredData, Doc(0), Doc(1), Doc(2), Dangling(), "t")
  }

  lemma LayeredStocked()
    ensures LayeredShelf().Stocked()
  {
    DocsRead(Dangling(), Layered());
    DataIsBytes();
    var h := LayeredShelf();
    forall i: nat | i < 3 ensures Hashed(h.c, h.data, D(i)) { NameHex(i); }
  }

  lemma DataIsBytes()
    ensures forall i: nat :: i < 3 ==> LayeredData(D(i)) == BYTES[i]
  {
    DigestsDiffer(0, 1);
    DigestsDiffer(0, 2);
    DigestsDiffer(1, 2);
  }

  /**
   * A registry, a server and a session that meet everything `PullFacts.ListedButNotClosed`
   * asks of them: the listed referrer is the layer of the image, and names what nobody has.
   */
  lemma ListedButNotClosedApplies(required: bool)
    ensures var h := LayeredShelf();
      && Delivers(OpenServer(h.Up()), h.Up()) && Faithful(h.c, h.Up()) && h.Up().ready(FRESH)
      && SeenReferrer(h.c, h.Up(), Tag("t"), required, Doc(1), Nowhere())
  {
    var h := LayeredShelf();
    LayeredStocked();
    OpenServes(h.c, h.Store(), h.List(), h.data);
    ShelfFaithful(h);
    forall bytes ensures h.c.DigestOf(bytes) != Nowhere() { NowhereFound(Docs(Dangling(), Layered()), bytes); }
    ShelfSeen(h, required);
  }

  // ── a marker that is cut short ──

  /** A lawful codec may refuse every part of the marker, as a JSON parser does. */
  lemma CutsMayBeRefused()
    ensures var c := TableCodec([JObj(map["imageLayoutVersion" := JStr(LAYOUT_VERSION)])]); c.Lawful() && CutsRefused(c)
  {
    var marker := JObj(map["imageLayoutVersion" := JStr(LAYOUT_VERSION)]);
    var c := TableCodec([marker]);
    TableLawful([marker]);
    TablePrints([marker], 0);
    forall m: Bytes | m < MarkerBytes(c) ensures c.parse(m).None? {
      assert MarkerBytes(c) == [0] && m == [];
      assert forall j :: LawfulCodecs.Print([marker], j) != [];
    }
  }
}
