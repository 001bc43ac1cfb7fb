/** `push_artifact_streaming`: a one-layer artifact pushed without a layout on disk. */
module StreamingSink {
  import opened Wrappers
  import opened Json
  import opened Oci
  import opened ImageDirs
  import opened Registry
  import opened RegistrySink
  import opened RegistryFacts
  import opened Sinks

  const EMPTY_CONFIG_DIGEST := "sha256:44136fa355b3678a1146ad16f7e8649e94fb4fc21fe77e8310c060f61caaff8a"

  /** A layer to stream: its bytes, and the digest, size and media type the caller states. */
  datatype Artifact = Artifact(source: Bytes, digest: string, size: nat, mediaType: string)

  function ConfigDescriptor(): Descriptor { Descriptor(EMPTY_CONFIG_TYPE, EMPTY_CONFIG_DIGEST, 2, None) }

  function LayerDescriptor(a: Artifact): Descriptor { Descriptor(a.mediaType, a.digest, a.size, None) }

  function ManifestJson(a: Artifact): Json
  {
    JObj(map[
      "schemaVersion" := JInt(2),
      "mediaType" := JStr(MANIFEST_TYPE),
      "config" := DescriptorJson(ConfigDescriptor()),
      "layers" := JArr([DescriptorJson(LayerDescriptor(a))])])
  }

  /** `build_manifest_json`. */
  function BuildManifest(c: Codec, a: Artifact): Bytes { c.compact(ManifestJson(a)) }

  /** A blob PUT whose attempts go through `retries`, or a single one. */
  method PutStreamed(conn: Connection, session: nat, digest: string, data: Bytes, retries: bool)
    returns (r: Result<(), PublishError>)
    modifies conn
    ensures TagsKept(conn, |old(conn.history)|, old(conn.site.store.tags)) && old(conn.history) <= conn.history
    ensures conn.Honest() && r.Ok? ==>
      conn.site.store == Effect(conn.c, old(conn.site.store), PutBlob(session, digest, data))
        && conn.c.DigestOf(data) == digest
    ensures conn.plan(old(conn.clock)).Fine? ==>
      session in old(conn.site.sessions) && conn.c.DigestOf(data) == digest ==> r.Ok?
    ensures conn.clock > old(conn.clock)
  {
    var reply;
    conn.FineIsThrough();
    if retries {
      reply := conn.Send(PutBlob(session, digest, data));
    } else {
      reply := conn.Exchange(PutBlob(session, digest, data));
    }
    if reply.NoReply? || (reply.answer.status != 201 && reply.answer.status != 200) { return Err(BlobUpload(digest)); }
    r := Ok(());
  }

  /**
   * `push_bytes_blob_with_skip` (one PUT) and `push_file_blob_with_skip` (a PUT with
   * retries): any HEAD status but 200 leads to an upload, that of a busy server too.
   */
  method PushStreamed(conn: Connection, digest: string, data: Bytes, size: nat, retries: bool, outcome: PublishOutcome,
      ghost busy: bool)
    returns (r: Result<PublishOutcome, PublishError>)
    modifies conn
    ensures TagsKept(conn, |old(conn.history)|, old(conn.site.store.tags)) && old(conn.history) <= conn.history
    ensures r.Ok? ==> r.value == Skipped(outcome, digest) || r.value == Pushed(outcome, digest, size)
    ensures conn.Honest() && r.Ok? ==>
      var s := old(conn.site.store);
      conn.site.store == s.(blobs := Add(s.blobs, digest, data))
    ensures conn.Starts(old(conn.clock), busy) && conn.c.DigestOf(data) == digest ==>
      && conn.FineFrom(conn.clock)
      && r == Ok(
           if digest in old(conn.site.store.blobs) && !busy then Skipped(outcome, digest)
           else Pushed(outcome, digest, size))
  {
    conn.FineIsThrough();
    var head := conn.Send(HeadBlob(digest));
    if head.NoReply? { return Err(BlobUpload(digest)); }
    if head.answer.status == 200 { return Ok(Skipped(outcome, digest)); }
    var session :- InitBlobUpload(conn, digest);
    var _ :- PutStreamed(conn, session, digest, data, retries);
    r := Ok(Pushed(outcome, digest, size));
  }

  /** The same artifact as the image a layout of it opens as. */
  function OneLayer(c: Codec, a: Artifact): ImageDir
  {
    var m := BuildManifest(c, a);
    var p := Descriptor(MANIFEST_TYPE, c.DigestOf(m), |m|, None);
    ImageDir(p, ConfigDescriptor(), [LayerDescriptor(a)], [],
      FirstByDigest([LayerDescriptor(a), ConfigDescriptor(), p]))
  }

  /** The stated digest and size are right, and the manifest is not its own content. */
  ghost predicate Stated(c: Codec, a: Artifact)
  {
    && c.DigestOf(a.source) == a.digest && a.size == |a.source| && c.DigestOf(EMPTY_CONFIG) == EMPTY_CONFIG_DIGEST
    && c.DigestOf(BuildManifest(c, a)) != a.digest && c.DigestOf(BuildManifest(c, a)) != EMPTY_CONFIG_DIGEST
  }

  /** `data` has the blobs of the artifact. */
  ghost predicate Carries(c: Codec, a: Artifact, data: Content)
  {
    && data(a.digest) == a.source && data(EMPTY_CONFIG_DIGEST) == EMPTY_CONFIG
    && data(c.DigestOf(BuildManifest(c, a))) == BuildManifest(c, a)
  }

  /** Three descriptors in order, the last with a digest of its own. */
  lemma ThreeDeduplicated(l: Descriptor, k: Descriptor, p: Descriptor)
    requires p.digest != l.digest && p.digest != k.digest
    ensures FirstByDigest([l, k, p]) == if l.digest == k.digest then [l, p] else [l, k, p]
  {
    var all := [l, k, p];
    assert all[..2] == [l, k] && all[..2][..1] == [l] && [l][..0] == [];
    assert FirstByDigest([l]) == [l];
    assert FirstByDigest([l, k]) == if l.digest == k.digest then [l] else [l, k];
  }

  lemma ThreeContent(image: ImageDir, l: Descriptor, k: Descriptor, p: Descriptor)
    requires image.primary == p && image.referrers == [] && p.digest != l.digest && p.digest != k.digest
    requires image.referenced == if l.digest == k.digest then [l, p] else [l, k, p]
    ensures AllContent(image) == if l.digest == k.digest then [l.digest] else [l.digest, k.digest]
  {
    assert ContentList(image, 0) == [] && ContentList(image, 1) == [l.digest];
    assert l.digest != k.digest ==> ContentList(image, 2) == [l.digest, k.digest];
  }

  lemma OneLayerContent(c: Codec, a: Artifact)
    requires Stated(c, a)
    ensures AllContent(OneLayer(c, a)) ==
      if a.digest == EMPTY_CONFIG_DIGEST then [a.digest] else [a.digest, EMPTY_CONFIG_DIGEST]
    ensures Referrers(OneLayer(c, a)) == []
  {
    var image := OneLayer(c, a);
    ThreeDeduplicated(LayerDescriptor(a), ConfigDescriptor(), image.primary);
    ThreeContent(image, LayerDescriptor(a), ConfigDescriptor(), image.primary);
  }

  /** Layer then config, or config then layer: the same blobs. */
  lemma OrderIrrelevant(m: map<string, Bytes>, data: Content, l: string, k: string)
    ensures AddAll(m, data, if l == k then [l] else [l, k]) == Add(Add(m, k, data(k)), l, data(l))
  {
    assert [l][..0] == [] && [l, k][..1] == [l];
    assert AddAll(m, data, [l]) == Add(m, l, data(l));
    AddsCommute(m, l, data(l), k, data(k));
  }

  lemma AddsCommute(m: map<string, Bytes>, l: string, dl: Bytes, k: string, dk: Bytes)
    ensures l != k ==> Add(Add(m, l, dl), k, dk) == Add(Add(m, k, dk), l, dl)
    ensures l == k ==> Add(Add(m, k, dk), l, dl) == Add(m, k, dk)
  {
  }

  /** The bytes of the uploads, each blob counted when the registry lacks it. */
  lemma TallyTwo(data: Content, has: set<string>, l: string, k: string)
    ensures Tally(data, has, if l == k then [l] else [l, k], EMPTY_OUTCOME).bytesUploaded ==
      (if k in has then 0 else |data(k)|) + (if l in has || l == k then 0 else |data(l)|)
  {
    assert [l][..0] == [] && [l, k][..1] == [l];
    assert Tally(data, has, [l], EMPTY_OUTCOME) ==
      if l in has then Skipped(EMPTY_OUTCOME, l) else Pushed(EMPTY_OUTCOME, l, |data(l)|);
  }

  /**
   * What pushing the config and then the layer reports when each is skipped exactly if it is
   * there, but for a config whose HEAD met a busy server.
   */
  function TwoOutcome(has: set<string>, k: string, config: Bytes, a: Artifact, busy: bool): PublishOutcome
  {
    var first := if k in has && !busy then Skipped(EMPTY_OUTCOME, k) else Pushed(EMPTY_OUTCOME, k, |config|);
    if a.digest in has || a.digest == k then Skipped(first, a.digest) else Pushed(first, a.digest, a.size)
  }

  /** What streaming the artifact reports without faults, or when only the first HEAD met a busy server. */
  function StreamedOutcome(c: Codec, a: Artifact, s: Store, busy: bool): PublishOutcome
  {
    var m := BuildManifest(c, a);
    Pushed(TwoOutcome(s.blobs.Keys, EMPTY_CONFIG_DIGEST, EMPTY_CONFIG, a, busy), c.DigestOf(m), |m|)
  }

  /** Each digest of the list is in one of the two lists, as often as it is listed. */
  ghost predicate Split(o: PublishOutcome, ds: seq<string>) { multiset(o.pushed) + multiset(o.skipped) == multiset(ds) }

  lemma SplitStep(o: PublishOutcome, ds: seq<string>, g: string, size: nat)
    requires Split(o, ds)
    ensures Split(Pushed(o, g, size), ds + [g]) && Split(Skipped(o, g), ds + [g])
  {
  }

  /** The config and the layer, in this order. */
  method PushTwo(conn: Connection, k: string, config: Bytes, a: Artifact, ghost busy: bool)
    returns (r: Result<PublishOutcome, PublishError>)
    modifies conn
    ensures TagsKept(conn, |old(conn.history)|, old(conn.site.store.tags)) && old(conn.history) <= conn.history
    ensures r.Ok? ==> Split(r.value, [k, a.digest])
    ensures conn.Honest() && r.Ok? ==>
      var s := old(conn.site.store);
      conn.site.store == s.(blobs := Add(Add(s.blobs, k, config), a.digest, a.source))
    ensures conn.Honest() && conn.Starts(old(conn.clock), busy) ==>
      conn.c.DigestOf(config) == k && conn.c.DigestOf(a.source) == a.digest ==>
      conn.FineFrom(conn.clock) && r == Ok(TwoOutcome(old(conn.site.store.blobs.Keys), k, config, a, busy))
  {
    ghost var s := conn.site.store;
    var outcome :- PushStreamed(conn, k, config, |config|, false, EMPTY_OUTCOME, busy);
    ghost var s1 := conn.site.store;
    r := PushStreamed(conn, a.digest, a.source, a.size, true, outcome, false);
    if r.Ok? { SplitTwo(outcome, r.value, k, |config|, a.digest, a.size); }
    TwoSteps(s.blobs.Keys, s1.blobs.Keys, k, config, a, busy);
  }

  /** The second blob is there when it was there, or when it is the first. */
  lemma TwoSteps(has: set<string>, now: set<string>, k: string, config: Bytes, a: Artifact, busy: bool)
    ensures now == has + {k} ==>
      var first := if k in has && !busy then Skipped(EMPTY_OUTCOME, k) else Pushed(EMPTY_OUTCOME, k, |config|);
      TwoOutcome(has, k, config, a, busy) ==
        if a.digest in now then Skipped(first, a.digest) else Pushed(first, a.digest, a.size)
  {
  }

  lemma SplitTwo(first: PublishOutcome, last: PublishOutcome, k: string, n: nat, l: string, m: nat)
    requires first == Skipped(EMPTY_OUTCOME, k) || first == Pushed(EMPTY_OUTCOME, k, n)
    requires last == Skipped(first, l) || last == Pushed(first, l, m)
    ensures Split(last, [k, l])
  {
    assert Split(EMPTY_OUTCOME, []) && [] + [k] == [k] && [k] + [l] == [k, l];
    SplitStep(EMPTY_OUTCOME, [], k, n);
    SplitStep(first, [k], l, m);
  }

  /** The tag names the artifact's manifest, or what it named before. */
  ghost predicate TaggedOnly(c: Codec, a: Artifact, tag: string, tags: map<string, string>, now: map<string, string>)
  {
    now == tags || (!Addressable(tag) && now == tags[tag := OneLayer(c, a).primary.digest])
  }

  /** The last request: the manifest, under its tag. */
  method PushTagged(conn: Connection, a: Artifact, tag: string, outcome: PublishOutcome)
    returns (r: Result<PublishOutcome, PublishError>)
    modifies conn
    ensures old(conn.history) <= conn.history
    ensures forall i :: |old(conn.history)| <= i < |conn.history| ==>
      TaggedOnly(conn.c, a, tag, old(conn.site.store.tags), conn.history[i].tags)
    ensures var m := BuildManifest(conn.c, a);
      && (r.Ok? ==> r.value == Pushed(outcome, conn.c.DigestOf(m), |m|))
      && (conn.Honest() && r.Ok? ==> conn.site.store == Effect(conn.c, old(conn.site.store), PutManifest(tag, m)))
    ensures conn.plan(old(conn.clock)).Fine? && !Addressable(tag) ==> r.Ok?
  {
    var manifest := BuildManifest(conn.c, a);
    conn.FineIsThrough();
    var _ :- PutManifestBytes(conn, tag, manifest);
    r := Ok(Pushed(outcome, conn.c.DigestOf(manifest), |manifest|));
  }

  /**
   * `push_artifact_streaming`. Whatever is replied, a success accounts for the config, the
   * layer and the manifest once each, and tags change only with the last request. A success
   * against an honest registry leaves what `publish_registry` leaves for the one-layer image
   * when the digest and the size are stated right; a registry without faults, or one that is
   * only too busy for the first HEAD, gives that success, with the two lists spelled out.
   */
  method PushArtifactStreaming(conn: Connection, a: Artifact, tag: string, ghost data: Content, ghost busy: bool)
    returns (r: Result<PublishOutcome, PublishError>)
    requires Carries(conn.c, a, data)
    modifies conn
    ensures r.Ok? ==> Split(r.value, [EMPTY_CONFIG_DIGEST, a.digest, OneLayer(conn.c, a).primary.digest])
    ensures r.Ok? ==> r.value.pushed != [] && r.value.pushed[|r.value.pushed| - 1] == OneLayer(conn.c, a).primary.digest
    ensures forall i :: |old(conn.history)| <= i < |conn.history| ==>
      TaggedOnly(conn.c, a, tag, old(conn.site.store.tags), conn.history[i].tags)
    ensures conn.Honest() && r.Ok? && Stated(conn.c, a) && !Addressable(tag) ==>
      conn.site.store == PublishedStore(OneLayer(conn.c, a), data, old(conn.site.store), tag)
    ensures conn.Honest() && conn.Starts(old(conn.clock), busy) && Stated(conn.c, a) && !Addressable(tag) ==>
      r == Ok(StreamedOutcome(conn.c, a, old(conn.site.store), busy))
  {
    ghost var s, d := conn.site.store, OneLayer(conn.c, a).primary.digest;
    var outcome :- PushTwo(conn, EMPTY_CONFIG_DIGEST, EMPTY_CONFIG, a, busy);
    ghost var s2 := conn.site.store;
    r := PushTagged(conn, a, tag, outcome);
    if r.Ok? { SplitThree(outcome, a.digest, d, |BuildManifest(conn.c, a)|); }
    if conn.Honest() && r.Ok? && Stated(conn.c, a) && !Addressable(tag) {
      StreamedStore(conn.c, a, data, s, s2, conn.site.store, tag);
    }
  }

  lemma SplitThree(o: PublishOutcome, l: string, d: string, size: nat)
    requires Split(o, [EMPTY_CONFIG_DIGEST, l])
    ensures var last := Pushed(o, d, size);
      Split(last, [EMPTY_CONFIG_DIGEST, l, d]) && last.pushed != [] && last.pushed[|last.pushed| - 1] == d
  {
    SplitStep(o, [EMPTY_CONFIG_DIGEST, l], d, size);
    assert [EMPTY_CONFIG_DIGEST, l] + [d] == [EMPTY_CONFIG_DIGEST, l, d];
  }

  lemma StreamedStore(c: Codec, a: Artifact, data: Content, s: Store, s2: Store, s3: Store, tag: string)
    requires Stated(c, a) && Carries(c, a, data) && !Addressable(tag)
    requires s2 == s.(blobs := Add(Add(s.blobs, EMPTY_CONFIG_DIGEST, EMPTY_CONFIG), a.digest, a.source))
    requires s3 == Effect(c, s2, PutManifest(tag, BuildManifest(c, a)))
    ensures s3 == PublishedStore(OneLayer(c, a), data, s, tag)
  {
    StreamedAsPublished(c, a, data, s, tag);
  }

  /** The publication of an image with two blobs and no referrers, spelled out. */
  lemma PublishedTwo(image: ImageDir, l: string, k: string, data: Content, s: Store, tag: string)
    requires AllContent(image) == (if l == k then [l] else [l, k]) && Referrers(image) == []
    ensures var d := image.primary.digest;
      && PublishedStore(image, data, s, tag) ==
           Store(Add(Add(s.blobs, k, data(k)), l, data(l)), Add(s.manifests, d, data(d)), s.tags[tag := d])
      && PublishedOutcome(image, data, s).bytesUploaded ==
           (if k in s.blobs then 0 else |data(k)|) + (if l in s.blobs || l == k then 0 else |data(l)|) + |data(d)|
  {
    var d := image.primary.digest;
    OrderIrrelevant(s.blobs, data, l, k);
    TallyTwo(data, s.blobs.Keys, l, k);
    AddOne(s.manifests, data, d);
  }

  lemma AddOne(m: map<string, Bytes>, data: Content, d: string)
    ensures AddAll(m, data, [] + [d]) == Add(m, d, data(d))
  {
    assert [] + [d] == [d] && [d][..0] == [];
  }

  lemma StreamedAsPublished(c: Codec, a: Artifact, data: Content, s: Store, tag: string)
    requires Stated(c, a) && Carries(c, a, data)
    ensures var m := BuildManifest(c, a); var d := c.DigestOf(m); var k := EMPTY_CONFIG_DIGEST;
      && PublishedStore(OneLayer(c, a), data, s, tag) ==
           Store(Add(Add(s.blobs, k, EMPTY_CONFIG), a.digest, a.source), Add(s.manifests, d, m), s.tags[tag := d])
      && PublishedOutcome(OneLayer(c, a), data, s).bytesUploaded == StreamedOutcome(c, a, s, false).bytesUploaded
  {
    OneLayerContent(c, a);
    PublishedTwo(OneLayer(c, a), a.digest, EMPTY_CONFIG_DIGEST, data, s, tag);
  }

  // ── the two lists ──

  /** A layer that is not the empty config is never in both lists, whatever is replied. */
  lemma StreamDisjoint(c: Codec, a: Artifact, o: PublishOutcome)
    requires Stated(c, a) && a.digest != EMPTY_CONFIG_DIGEST
    requires Split(o, [EMPTY_CONFIG_DIGEST, a.digest, OneLayer(c, a).primary.digest])
    ensures Disjoint(o)
  {
    var all := [EMPTY_CONFIG_DIGEST, a.digest, OneLayer(c, a).primary.digest];
    forall g | g in o.pushed ensures g !in o.skipped {
      DistinctOnce(all, g);
      assert (multiset(o.pushed) + multiset(o.skipped))[g] == multiset(all)[g];
      assert g in multiset(o.pushed) && (g in o.skipped ==> g in multiset(o.skipped));
    }
  }

  /** The two lists of such a run, by their members. */
  lemma StreamedLists(c: Codec, a: Artifact, s: Store, busy: bool, g: string)
    ensures var o, k, d := StreamedOutcome(c, a, s, busy), EMPTY_CONFIG_DIGEST, OneLayer(c, a).primary.digest;
      && (g in o.pushed <==>
            || g == d
            || (g == k && (g !in s.blobs || busy))
            || (g == a.digest && g !in s.blobs))
      && (g in o.skipped <==> (g in s.blobs && ((g == k && !busy) || g == a.digest)) || (g == k && g == a.digest))
  {
  }

  /**
   * The lists are disjoint exactly when the layer is not the empty config, or the registry had
   * it and was not too busy to say so.
   */
  lemma StreamDisjointExactly(c: Codec, a: Artifact, s: Store, busy: bool)
    requires Stated(c, a)
    ensures Disjoint(StreamedOutcome(c, a, s, busy)) <==>
      a.digest != EMPTY_CONFIG_DIGEST || (a.digest in s.blobs && !busy)
  {
    StreamedLists(c, a, s, busy, EMPTY_CONFIG_DIGEST);
    var o := StreamedOutcome(c, a, s, busy);
    forall g ensures g in o.pushed && g in o.skipped ==>
        g == EMPTY_CONFIG_DIGEST && g == a.digest && (g !in s.blobs || busy) {
      StreamedLists(c, a, s, busy, g);
    }
  }

  /** Streaming a source whose bytes are `{}` to an empty registry: its digest is in both lists. */
  lemma EmptyLayerInBoth(c: Codec, mediaType: string)
    requires Stated(c, Artifact(EMPTY_CONFIG, EMPTY_CONFIG_DIGEST, |EMPTY_CONFIG|, mediaType))
    ensures !Disjoint(StreamedOutcome(c, Artifact(EMPTY_CONFIG, EMPTY_CONFIG_DIGEST, |EMPTY_CONFIG|, mediaType),
      Store(map[], map[], map[]), false))
  {
    StreamDisjointExactly(c, Artifact(EMPTY_CONFIG, EMPTY_CONFIG_DIGEST, |EMPTY_CONFIG|, mediaType),
      Store(map[], map[], map[]), false);
  }

  /**
   * Whatever the registry holds, there is a run in which a layer that is the empty config ends
   * in both lists: without faults when the registry lacks it, and with a busy first HEAD when
   * it has it. No other layer ever does (`StreamDisjoint`).
   */
  method PushEmptyLayer(conn: Connection, a: Artifact, tag: string, ghost data: Content)
    returns (r: Result<PublishOutcome, PublishError>)
    requires Carries(conn.c, a, data) && Stated(conn.c, a) && a.digest == EMPTY_CONFIG_DIGEST && !Addressable(tag)
    requires conn.Honest() && conn.Starts(conn.clock, EMPTY_CONFIG_DIGEST in conn.site.store.blobs)
    modifies conn
    ensures r.Ok? && EMPTY_CONFIG_DIGEST in r.value.pushed && EMPTY_CONFIG_DIGEST in r.value.skipped
  {
    ghost var s, busy := conn.site.store, EMPTY_CONFIG_DIGEST in conn.site.store.blobs;
    r := PushArtifactStreaming(conn, a, tag, data, busy);
    StreamedLists(conn.c, a, s, busy, EMPTY_CONFIG_DIGEST);
  }

  /** Over all registries, and with or without a busy first HEAD, the lists are disjoint exactly for other layers. */
  lemma StreamDisjointAlways(c: Codec, a: Artifact)
    requires Stated(c, a)
    ensures (forall s, busy :: Disjoint(StreamedOutcome(c, a, s, busy))) <==> a.digest != EMPTY_CONFIG_DIGEST
  {
    forall s, busy ensures a.digest != EMPTY_CONFIG_DIGEST ==> Disjoint(StreamedOutcome(c, a, s, busy)) {
      StreamDisjointExactly(c, a, s, busy);
    }
    StreamDisjointExactly(c, a, Store(map[], map[], map[]), false);
  }

  // ── the image is the one a layout opens as ──

  function OneLayerManifest(a: Artifact): Manifest
  {
    Manifest(Some(MANIFEST_TYPE), ConfigDescriptor(), [LayerDescriptor(a)], None)
  }

  lemma ManifestReads(c: Codec, a: Artifact)
    requires c.Lawful() && a.size < U64_LIMIT
    ensures ParseManifest(c, BuildManifest(c, a)) == Some(OneLayerManifest(a))
  {
    assert c.parse(c.compact(ManifestJson(a))) == Some(ManifestJson(a));
    ManifestDecodes(a);
  }

  lemma ManifestDecodes(a: Artifact)
    requires a.size < U64_LIMIT
    ensures DecodeManifest(ManifestJson(a)) == Some(OneLayerManifest(a))
  {
    var j, l := ManifestJson(a), LayerDescriptor(a);
    DescriptorRoundTrip(ConfigDescriptor());
    DescriptorsRoundTrip([l]);
    assert DescriptorsJson([l]) == [DescriptorJson(l)];
    assert Field(j, "layers") == Some(JArr([DescriptorJson(l)]));
    assert Field(j, "config") == Some(DescriptorJson(ConfigDescriptor()));
    assert DecodeWireManifest(j) == Some((ConfigDescriptor(), [l]));
  }

  /** A layout with that manifest as its only entry opens as `OneLayer`. */
  lemma OneLayerOpens(c: Codec, a: Artifact, dir: Files)
    requires c.Lawful() && a.size < U64_LIMIT && LayoutValid(c, dir)
    requires IndexEntries(c, dir) == Some([OneLayer(c, a).primary])
    requires BlobBytes(dir, OneLayer(c, a).primary.digest) == Some(BuildManifest(c, a))
    requires ChildrenPresent(dir, OneLayerManifest(a))
    ensures WellFormed(c, dir) && View(c, dir) == OneLayer(c, a)
  {
    ManifestReads(c, a);
    SingleOpens(c, dir, OneLayer(c, a).primary, BuildManifest(c, a), OneLayerManifest(a));
  }

  lemma SingleOpens(c: Codec, dir: Files, p: Descriptor, data: Bytes, m: Manifest)
    requires LayoutValid(c, dir) && IndexEntries(c, dir) == Some([p]) && p.mediaType == MANIFEST_TYPE
    requires BlobBytes(dir, p.digest) == Some(data) && ParseManifest(c, data) == Some(m)
    requires StatesManifestType(m) && m.subject.None? && ChildrenPresent(dir, m) && |m.layers| == 1
    ensures WellFormed(c, dir)
    ensures View(c, dir) == ImageDir(p, m.config, m.layers, [], FirstByDigest([m.layers[0], m.config, p]))
  {
    StoredIs(c, dir, p.digest, data);
    SingleEntry(Stored(c, dir), p, m, dir);
  }

  lemma StoredIs(c: Codec, dir: Files, digest: string, data: Bytes)
    requires BlobBytes(dir, digest) == Some(data)
    ensures Stored(c, dir)(digest) == ParseManifest(c, data)
  {
  }

  lemma SingleEntry(load: Loader, p: Descriptor, m: Manifest, dir: Files)
    requires p.mediaType == MANIFEST_TYPE && load(p.digest) == Some(m) && StatesManifestType(m) && m.subject.None?
    requires ChildrenPresent(dir, m) && |m.layers| == 1
    ensures Closed(load, [p], dir)
    ensures ViewOf(load, [p]) == ImageDir(p, m.config, m.layers, [], FirstByDigest([m.layers[0], m.config, p]))
  {
    assert Loadable(load, [p][0]) && [p][..0] == [];
    assert Bucket(load, [p], false) == [Entry(p, m)] && Bucket(load, [p], true) == [];
    assert m.layers + [m.config] + [] + [p] == [m.layers[0], m.config, p];
  }
}
