/** Attesting an image, wiring the attestations in as referrers, opening and verifying it. */
module AttestFacts {
  import opened Wrappers
  import opened Text
  import opened Json
  import opened Oci
  import opened ImageDirs
  import opened ImageDirFacts
  import opened FileSystems
  import opened Staging
  import opened Specs
  import opened Attest
  import Ref = Referrers
  import opened VerifyEngine
  import opened PullFacts

  // ── the data behind digests ──

  type Store = string -> Bytes

  /** Every blob of the directory is the data behind its name. */
  ghost predicate Behind(store: Store, f: Files)
  {
    forall h :: IsHex64(h) && Path.Blob(h) in f ==> f[Path.Blob(h)] == store(h)
  }

  /** No other data in play shares the digest of these bytes, and they fit a size field. */
  ghost predicate Proper(c: Codec, store: Store, x: Bytes) { store(c.hash(x)) == x && |x| < U64_LIMIT }

  lemma KeptBehind(c: Codec, b: Base, f: Files, store: Store)
    requires b.store == Some(store) && Behind(store, b.files) && StoreKept(c, b, f)
    ensures Behind(store, f)
  {
    forall h | IsHex64(h) && Path.Blob(h) in f ensures f[Path.Blob(h)] == store(h) {
      if Path.Blob(h) in b.files { assert f[Path.Blob(h)] == b.files[Path.Blob(h)]; }
    }
  }

  lemma HeldBytes(c: Codec, store: Store, f: Files, x: Bytes)
    requires c.Lawful() && Behind(store, f) && Proper(c, store, x) && Has(c, f, x)
    ensures BlobBytes(f, c.DigestOf(x)) == Some(x)
  {
    assert IsHex64(c.hash(x));
    HexOfText(c.hash(x));
  }

  // ── a referrer manifest reads back ──

  function RefManifestOf(c: Codec, e: Evidence, subject: Descriptor): Manifest
  {
    Manifest(Some(MANIFEST_TYPE), Ref.ConfigFor(c), [Ref.LayerFor(e)], Some(subject))
  }

  lemma ReferrerParses(c: Codec, e: Evidence, subject: Descriptor)
    requires c.Lawful() && e.size < U64_LIMIT && Fits(subject)
    ensures ParseManifest(c, Ref.ReferrerBytes(c, e, subject)) == Some(RefManifestOf(c, e, subject))
  {
    var j, l, k := Ref.ReferrerJson(c, e, subject), Ref.LayerFor(e), Ref.ConfigFor(c);
    assert c.parse(c.compact(j)) == Some(j);
    DescriptorRoundTrip(k);
    DescriptorRoundTrip(subject);
    DescriptorsRoundTrip([l]);
    assert DescriptorsJson([l]) == [DescriptorJson(l)];
    WireParts(j, DescriptorJson(k), [DescriptorJson(l)], DescriptorJson(subject));
  }

  lemma WireParts(j: Json, k: Json, ls: seq<Json>, subject: Json)
    requires Field(j, "config") == Some(k) && Field(j, "layers") == Some(JArr(ls))
    requires Field(j, "subject") == Some(subject)
    requires Field(j, "mediaType") == Some(JStr(MANIFEST_TYPE))
    requires DecodeDescriptor(k).Some? && DecodeDescriptors(ls).Some? && DecodeDescriptor(subject).Some?
    requires !subject.JNull?
    ensures DecodeManifest(j) ==
      Some(Manifest(Some(MANIFEST_TYPE), DecodeDescriptor(k).value, DecodeDescriptors(ls).value,
        Some(DecodeDescriptor(subject).value)))
  {
  }

  lemma ReferrerWalks(c: Codec, e: Evidence, subject: Descriptor)
    requires c.Lawful() && e.size < U64_LIMIT
    ensures c.parse(Ref.ReferrerBytes(c, e, subject)) == Some(Ref.ReferrerJson(c, e, subject))
    ensures DecodeRefManifest(Ref.ReferrerJson(c, e, subject)) ==
      Some(RefManifest(Some(e.mediaType), [(e.mediaType, e.digest)]))
  {
    var j := Ref.ReferrerJson(c, e, subject);
    assert c.parse(c.compact(j)) == Some(j);
    var l := DescriptorJson(Ref.LayerFor(e));
    assert DecodeLayer(l) == Some((e.mediaType, e.digest));
    assert Every([l], DecodeLayer).Some? && Every([l], DecodeLayer).value == [(e.mediaType, e.digest)];
    assert Field(j, "layers") == Some(JArr([l])) && OptStrField(j, "artifactType") == Some(Some(e.mediaType));
  }

  // ── the index with more entries ──

  /** The rewritten index lists the old entries and then the new ones. */
  lemma IndexAppends(c: Codec, f: Files, f': Files, entries: seq<Descriptor>)
    requires c.Lawful() && Ref.Readable(c, f) && IndexEntries(c, f).Some? && forall d <- entries :: Fits(d)
    requires INDEX_FILE in f' && f'[INDEX_FILE] == c.compact(Ref.NewIndex(Ref.IndexObject(c, f), entries))
    ensures IndexEntries(c, f') == Some(IndexEntries(c, f).value + entries)
    ensures Ref.Readable(c, f')
  {
    var o := Ref.IndexObject(c, f);
    var j := Ref.NewIndex(o, entries);
    assert c.parse(c.compact(j)) == Some(j);
    DescriptorsRoundTrip(entries);
    EveryAppend(o["manifests"].a, DescriptorsJson(entries), DecodeDescriptor);
    assert Field(j, "manifests") == Some(JArr(o["manifests"].a + DescriptorsJson(entries)));
  }

  /** An index that lists a manifest has a list to append to. */
  lemma WellFormedReadable(c: Codec, f: Files)
    requires WellFormed(c, f)
    ensures Ref.Readable(c, f)
  {
    NothingInNothing(Stored(c, f), IndexEntries(c, f).value);
  }

  lemma NothingInNothing(load: Loader, ds: seq<Descriptor>)
    requires AllLoadable(load, ds) && Bucket(load, ds, false) != []
    ensures ds != []
  {
  }

  // ── more referrers keep a layout valid ──

  lemma {:induction false} BucketAppend(load: Loader, a: seq<Descriptor>, b: seq<Descriptor>, referrer: bool)
    requires AllLoadable(load, a) && AllLoadable(load, b)
    ensures AllLoadable(load, a + b)
    ensures Bucket(load, a + b, referrer) == Bucket(load, a, referrer) + Bucket(load, b, referrer)
  {
    if b == [] {
      assert a + b == a;
    } else {
      var n := |b| - 1;
      BucketAppend(load, a, b[..n], referrer);
      assert (a + b)[..|a + b| - 1] == a + b[..n] && (a + b)[|a + b| - 1] == b[n];
    }
  }

  /** A complete referrer of `primary`. */
  predicate GoodReferrer(load: Loader, dir: Files, d: Descriptor, primary: string)
  {
    Refers(load, d, primary) && ChildrenPresent(dir, load(d.digest).value)
  }

  lemma BlocksOne(a: seq<Entry>, e: Entry)
    ensures Blocks(a + [e]) == Blocks(a) + Block(e)
  {
    assert (a + [e])[..|a|] == a;
  }

  lemma Associates(x: seq<Descriptor>, y: seq<Descriptor>, z: seq<Descriptor>)
    ensures x + y + z == x + (y + z)
  {
  }

  lemma {:induction false} BlocksAppend(a: seq<Entry>, b: seq<Entry>)
    ensures Blocks(a + b) == Blocks(a) + Blocks(b)
  {
    if b == [] {
      assert a + b == a;
    } else {
      var n := |b| - 1;
      var front, last := b[..n], b[n];
      BlocksAppend(a, front);
      BlocksOne(a + front, last);
      BlocksOne(front, last);
      Associates(Blocks(a), Blocks(front), Block(last));
      assert a + b == a + front + [last] && b == front + [last];
    }
  }

  lemma ClosedAppend(load: Loader, ds: seq<Descriptor>, more: seq<Descriptor>, dir: Files)
    requires Closed(load, ds, dir)
    requires forall d <- more :: GoodReferrer(load, dir, d, Bucket(load, ds, false)[0].desc.digest)
    ensures Closed(load, ds + more, dir) && AllLoadable(load, more)
    ensures Bucket(load, ds + more, false) == Bucket(load, ds, false)
    ensures Bucket(load, ds + more, true) == Bucket(load, ds, true) + Bucket(load, more, true)
    ensures Descs(Bucket(load, more, true)) == more
  {
    var p := Bucket(load, ds, false)[0].desc.digest;
    forall i | 0 <= i < |more| ensures Loadable(load, more[i]) && load(more[i].digest).value.subject.Some? {
      assert GoodReferrer(load, dir, more[i], p);
    }
    AllReferrers(load, more);
    BucketAppend(load, ds, more, false);
    BucketAppend(load, ds, more, true);
    assert Bucket(load, ds, false) + [] == Bucket(load, ds, false);
    var rs := Bucket(load, more, true);
    forall i | 0 <= i < |rs| ensures RefersTo(dir, rs[i], p) {
      assert Descs(rs)[i] == more[i];
      assert GoodReferrer(load, dir, more[i], p);
    }
  }

  lemma PresentStays(f: Files, f': Files, g: string)
    requires BlobsGrow(f, f') && Present(f, g)
    ensures SameBlob(f, f', g)
  {
  }

  /** Old entries load as before, and their closure stays, when blobs only grow. */
  lemma OldEntriesStay(c: Codec, f: Files, f': Files)
    requires WellFormed(c, f) && BlobsGrow(f, f')
    ensures var ds := IndexEntries(c, f).value;
      && Closed(Stored(c, f'), ds, f') && ViewOf(Stored(c, f'), ds) == View(c, f)
  {
    var ds, all := IndexEntries(c, f).value, Digests(View(c, f).referenced);
    ReferencedPresent(c, f);
    ClosureReferenced(c, f);
    forall g | g in all ensures SameBlob(f, f', g) { PresentStays(f, f', g); }
    forall d | d in ds ensures Stored(c, f)(d.digest) == Stored(c, f')(d.digest) {
      assert d.digest in Digests(ds) && SameBlob(f, f', d.digest);
    }
    assert AgreeOn(Stored(c, f), Stored(c, f'), ds);
    ClosedMirror(Stored(c, f), Stored(c, f'), ds, f, f', all);
  }

  /** The manifest, the empty config and the payload of an attestation are there. */
  ghost predicate Wired(c: Codec, store: Store, f: Files, e: Evidence, subject: Descriptor)
  {
    var data := Ref.ReferrerBytes(c, e, subject);
    && Proper(c, store, data) && Has(c, f, data) && e.size < U64_LIMIT
    && Present(f, e.digest) && Present(f, c.DigestOf(EMPTY_CONFIG))
  }

  lemma WiredIsGood(c: Codec, store: Store, f: Files, e: Evidence, subject: Descriptor)
    requires c.Lawful() && Behind(store, f) && Wired(c, store, f, e, subject) && Fits(subject)
    ensures GoodReferrer(Stored(c, f), f, Ref.EntryFor(c, e, subject), subject.digest)
    ensures BlobBytes(f, Ref.EntryFor(c, e, subject).digest) == Some(Ref.ReferrerBytes(c, e, subject))
  {
    HeldBytes(c, store, f, Ref.ReferrerBytes(c, e, subject));
    ReferrerParses(c, e, subject);
    var m := RefManifestOf(c, e, subject);
    assert Stored(c, f)(Ref.EntryFor(c, e, subject).digest) == Some(m);
    WiredChildren(c, f, e, subject);
    GoodOf(Stored(c, f), f, Ref.EntryFor(c, e, subject), m, subject.digest);
  }

  lemma WiredChildren(c: Codec, f: Files, e: Evidence, subject: Descriptor)
    requires Present(f, e.digest) && Present(f, c.DigestOf(EMPTY_CONFIG))
    ensures ChildrenPresent(f, RefManifestOf(c, e, subject))
  {
  }

  lemma GoodOf(load: Loader, f: Files, d: Descriptor, m: Manifest, primary: string)
    requires load(d.digest) == Some(m) && d.mediaType == MANIFEST_TYPE && StatesManifestType(m) && ChildrenPresent(f, m)
    requires m.subject.Some? && m.subject.value.digest == primary
    ensures GoodReferrer(load, f, d, primary)
  {
  }

  /** The layout with its referrers wired in. */
  lemma ReferrersOpen(c: Codec, store: Store, f: Files, f': Files, es: seq<Evidence>, subject: Descriptor)
    requires c.Lawful() && WellFormed(c, f) && BlobsGrow(f, f') && Behind(store, f') && Fits(subject)
    requires LayoutValid(c, f') && subject.digest == View(c, f).primary.digest
    requires IndexEntries(c, f') == Some(IndexEntries(c, f).value + Ref.NewEntries(c, es, subject))
    requires forall e <- es :: Wired(c, store, f', e, subject)
    ensures WellFormed(c, f')
    ensures var u, v := View(c, f), View(c, f');
      v.primary == u.primary && v.config == u.config && v.layers == u.layers
        && v.referrers == u.referrers + Ref.NewEntries(c, es, subject)
  {
    var ds, more, load := IndexEntries(c, f).value, Ref.NewEntries(c, es, subject), Stored(c, f');
    OldEntriesStay(c, f, f');
    forall d | d in more ensures GoodReferrer(load, f', d, subject.digest) {
      var i :| 0 <= i < |more| && more[i] == d;
      assert es[i] in es;
      WiredIsGood(c, store, f', es[i], subject);
    }
    ClosedAppend(load, ds, more, f');
    AppendedView(load, ds, more, f');
  }

  lemma AppendedView(load: Loader, ds: seq<Descriptor>, more: seq<Descriptor>, dir: Files)
    requires Closed(load, ds, dir) && Closed(load, ds + more, dir) && AllLoadable(load, more)
    requires Bucket(load, ds + more, false) == Bucket(load, ds, false)
    requires Bucket(load, ds + more, true) == Bucket(load, ds, true) + Bucket(load, more, true)
    requires Descs(Bucket(load, more, true)) == more
    ensures var u, v := ViewOf(load, ds), ViewOf(load, ds + more);
      v.primary == u.primary && v.config == u.config && v.layers == u.layers && v.referrers == u.referrers + more
  {
    var a, b := Bucket(load, ds, true), Bucket(load, more, true);
    assert Descs(a + b) == Descs(a) + Descs(b);
  }

  // ── what the walk finds ──

  function CarriedOf(e: Evidence, data: Bytes): Carried { Something(e.mediaType, e.digest, data) }

  lemma WiredReads(c: Codec, store: Store, f: Files, e: Evidence, subject: Descriptor, data: Bytes)
    requires c.Lawful() && Behind(store, f) && Wired(c, store, f, e, subject) && Fits(subject)
    requires BlobBytes(f, e.digest) == Some(data)
    ensures Reads(c, f)(Ref.EntryFor(c, e, subject)) == Ok(CarriedOf(e, data))
  {
    WiredIsGood(c, store, f, e, subject);
    ReferrerWalks(c, e, subject);
  }

  // ── what is emitted validates ──

  /** The two SBOM media types name their own format only. */
  lemma SbomTypes()
    ensures Contains(CYCLONEDX_JSON, "cyclonedx") && !Contains(SPDX_JSON, "cyclonedx") && Contains(SPDX_JSON, "spdx")
  {
    assert OccursAt(CYCLONEDX_JSON, "cyclonedx", 16);
    assert OccursAt(SPDX_JSON, "spdx", 12);
    forall i: nat | i <= |SPDX_JSON|
      ensures !OccursAt(SPDX_JSON, "cyclonedx", i)
    {
      StartsOtherwise(SPDX_JSON, "cyclonedx", i);
    }
  }

  lemma StartsOtherwise(s: string, p: string, i: nat)
    requires |p| >= 2 && forall k :: 0 <= k < |s| - 1 && s[k] == p[0] ==> s[k + 1] != p[1]
    ensures !OccursAt(s, p, i)
  {
    if i + |p| <= |s| { assert s[i..i + |p|][0] == s[i] && s[i..i + |p|][1] == s[i + 1]; }
  }

  lemma EmittedSbomOk(body: SbomBody, a: BuiltArtifact, cfg: SbomConfig)
    requires SbomJson(body, a, cfg).Some?
    ensures SbomOk(SbomJson(body, a, cfg).value, SbomType(cfg.format))
  {
    SbomTypes();
  }

  /** An SBOM is the body made for the scope of the settings, and the field that names its format. */
  lemma EmittedSbomBody(body: SbomBody, a: BuiltArtifact, cfg: SbomConfig)
    ensures SbomJson(body, a, cfg).None? <==> cfg.format == NoSbom
    ensures SbomJson(body, a, cfg).Some? ==>
      var j, key := SbomJson(body, a, cfg).value, if cfg.format == CycloneDx then "bomFormat" else "spdxVersion";
      && j.JObj? && j.o.Keys == body(a, cfg.scope).Keys + {key}
      && forall k <- body(a, cfg.scope) :: k != key ==> j.o[k] == body(a, cfg.scope)[k]
  {
  }

  function EmittedInfo(a: BuiltArtifact, cfg: SlsaConfig): SlsaInfo
  {
    SlsaInfo(a.specHash, BuilderOf(cfg), cfg.level.AsInt())
  }

  lemma EmittedSubject(a: BuiltArtifact)
    ensures SubjectNamed(SubjectJson(a).a, a.manifestHex)
  {
    var digests := Strings(Field(SubjectJson(a).a[0], "digest"));
    assert "sha256" in digests && digests["sha256"] == JStr(a.manifestHex);
    assert Carries(digests, a.manifestHex);
  }

  lemma EmittedParameters(a: BuiltArtifact, cfg: SlsaConfig)
    ensures InfoOf(StatementJson(a, cfg)) == Some(EmittedInfo(a, cfg))
  {
    var j := StatementJson(a, cfg);
    var pred := Field(j, "predicate").value;
    assert PARAMETERS[1..] == ["buildDefinition", "externalParameters"]
      && PARAMETERS[1..][1..] == ["externalParameters"];
    assert BUILDER_ID[1..] == ["runDetails", "builder", "id"] && BUILDER_ID[1..][1..] == ["builder", "id"]
      && BUILDER_ID[1..][1..][1..] == ["id"];
    assert Walked(ExternalParameters(a, cfg), []) == Some(ExternalParameters(a, cfg));
    assert Walked(BuildDefinition(a, cfg), ["externalParameters"]) == Some(ExternalParameters(a, cfg));
    assert Walked(pred, ["buildDefinition", "externalParameters"]) == Some(ExternalParameters(a, cfg));
    assert Walked(j, PARAMETERS) == Some(ExternalParameters(a, cfg));
    var builder := Field(RunDetails(cfg), "builder").value;
    assert Walked(builder, ["id"]) == Some(JStr(BuilderOf(cfg)));
    assert Walked(RunDetails(cfg), ["builder", "id"]) == Some(JStr(BuilderOf(cfg)));
    assert Walked(pred, ["runDetails", "builder", "id"]) == Some(JStr(BuilderOf(cfg)));
  }

  /** The emitted statement validates and says what was attested. */
  lemma EmittedStatement(c: Codec, a: BuiltArtifact, cfg: SlsaConfig)
    requires c.Lawful()
    ensures Statement(c, c.compact(StatementJson(a, cfg)), DigestText(a.manifestHex)) == Ok(EmittedInfo(a, cfg))
  {
    var j := StatementJson(a, cfg);
    assert c.parse(c.compact(j)) == Some(j);
    HexPartOf(a.manifestHex);
    EmittedSubject(a);
    EmittedParameters(a, cfg);
    assert StrField(j, "predicateType") == Some(SLSA_PROVENANCE_V1) && Field(j, "subject") == Some(SubjectJson(a));
  }

  /** The statement is about the manifest alone, under the name of the spec. */
  ghost predicate NamesManifest(j: Json, a: BuiltArtifact)
  {
    exists subject ::
      && HasField(j, "subject", JArr([subject]))
      && HasField(subject, "name", JStr(a.spec.id.name + ":" + a.spec.id.tag))
      && HasField(subject, "digest", JObj(map["sha256" := JStr(a.manifestHex)]))
  }

  /** The build it tells of is that of the spec. */
  ghost predicate TellsBuild(j: Json, a: BuiltArtifact)
  {
    exists p, b, ps ::
      && HasField(j, "predicate", p) && HasField(p, "buildDefinition", b)
      && HasField(b, "buildType", JStr("https://justoci.dev/buildtype/spec/v1"))
      && HasField(b, "externalParameters", ps)
      && HasField(ps, "spec_id", JStr(a.spec.id.name + ":" + a.spec.id.tag))
      && HasField(ps, "spec_hash", JStr(a.specHash))
      && HasField(ps, "spec_kind", JStr(match a.spec.kind
                                     case OciArtifact => "oci_artifact"
                                     case VmImage => "vm_image"
                                     case RawImage => "raw_image"))
  }

  /** What every reader of the emitted bytes finds: the kind of statement, its one subject, and the build. */
  lemma EmittedBuild(c: Codec, a: BuiltArtifact, cfg: SlsaConfig)
    requires c.Lawful()
    ensures exists j ::
      && c.parse(c.compact(StatementJson(a, cfg))) == Some(j)
      && HasField(j, "_type", JStr("https://in-toto.io/Statement/v1")) && NamesManifest(j, a) && TellsBuild(j, a)
  {
    var j := StatementJson(a, cfg);
    assert c.parse(c.compact(j)) == Some(j);
    NamesIt(j, a, SubjectJson(a).a[0]);
    TellsIt(j, a, cfg, j.o["predicate"]);
    assert HasField(j, "_type", JStr("https://in-toto.io/Statement/v1"));
  }

  lemma NamesIt(j: Json, a: BuiltArtifact, subject: Json)
    requires SubjectJson(a) == JArr([subject]) && HasField(j, "subject", JArr([subject]))
    ensures NamesManifest(j, a)
  {
    assert a.spec.id.Form() == a.spec.id.name + ":" + a.spec.id.tag;
  }

  lemma TellsIt(j: Json, a: BuiltArtifact, cfg: SlsaConfig, p: Json)
    requires HasField(j, "predicate", p) && HasField(p, "buildDefinition", BuildDefinition(a, cfg))
    ensures TellsBuild(j, a)
  {
    BuildHolds(a, cfg);
    assert a.spec.id.Form() == a.spec.id.name + ":" + a.spec.id.tag;
  }

  lemma BuildHolds(a: BuiltArtifact, cfg: SlsaConfig)
    ensures var b, ps := BuildDefinition(a, cfg), ExternalParameters(a, cfg);
      && HasField(b, "buildType", JStr("https://justoci.dev/buildtype/spec/v1"))
      && HasField(b, "externalParameters", ps)
      && HasField(ps, "spec_id", JStr(a.spec.id.Form())) && HasField(ps, "spec_hash", JStr(a.specHash))
      && HasField(ps, "spec_kind", JStr(a.spec.kind.AsStr()))
  {
  }

  // ── the dependencies a statement names ──

  /** One entry of `resolvedDependencies`, as a reader of the statement finds it. */
  datatype Resolved = Resolved(name: string, sha256: string, mediaType: string)

  function ReadResolved(j: Json): Option<Resolved>
  {
    var name, mediaType, digest := StrField(j, "name"), StrField(j, "mediaType"), Field(j, "digest");
    if name.None? || mediaType.None? || digest.None? then None
    else
      var hex := StrField(digest.value, "sha256");
      if hex.Some? then Some(Resolved(name.value, hex.value, mediaType.value)) else None
  }

  function ReadDependencies(c: Codec, data: Bytes): Option<seq<Resolved>>
  {
    var j := c.parse(data);
    var deps := if j.Some? then Walked(j.value, ["predicate", "buildDefinition", "resolvedDependencies"]) else None;
    if deps.Some? && deps.value.JArr? then Every(deps.value.a, ReadResolved) else None
  }

  /** The emitted statement names every layer once, in order, under its digest and its media type. */
  lemma EmittedDependencies(c: Codec, a: BuiltArtifact, cfg: SlsaConfig)
    requires c.Lawful() && |a.layerHexes| == |a.spec.layers|
    ensures var r := ReadDependencies(c, c.compact(StatementJson(a, cfg)));
      && r.Some? && |r.value| == |a.spec.layers|
      && forall i :: 0 <= i < |r.value| ==>
        r.value[i] == Resolved(LayerName(i, a.spec.layers[i]), a.layerHexes[i], a.spec.layers[i].mediaType)
  {
    var j, deps := StatementJson(a, cfg), Dependencies(a);
    assert c.parse(c.compact(j)) == Some(j);
    var path := ["predicate", "buildDefinition", "resolvedDependencies"];
    assert path[1..] == ["buildDefinition", "resolvedDependencies"] && path[1..][1..] == ["resolvedDependencies"];
    assert Walked(BuildDefinition(a, cfg), ["resolvedDependencies"]) == Walked(deps, []);
    assert Walked(Field(j, "predicate").value, path[1..]) == Some(deps);
    forall i | 0 <= i < |deps.a|
      ensures ReadResolved(deps.a[i]) ==
        Some(Resolved(LayerName(i, a.spec.layers[i]), a.layerHexes[i], a.spec.layers[i].mediaType)) {
      DependencyReads(i, a.layerHexes[i], a.spec.layers[i]);
    }
  }

  lemma DependencyReads(idx: nat, hex: string, layer: Layer)
    ensures ReadResolved(Dependency(idx, hex, layer)) == Some(Resolved(LayerName(idx, layer), hex, layer.mediaType))
  {
  }

  // ── the report on an attested image ──

  function Payload(t: Tools, data: Option<Bytes>, mediaType: string): seq<Carried>
  {
    if data.Some? then [CarriedOf(EvidenceOf(t.c, data.value, mediaType), data.value)] else []
  }

  /** What the referrers of the attestations carry. */
  function Payloads(t: Tools, a: BuiltArtifact, cfg: AttestationConfig): seq<Carried>
  {
    Payload(t, SlsaBytes(t, a, cfg.slsa), IN_TOTO) + Payload(t, SbomBytes(t, a, cfg.sbom), SbomType(cfg.sbom.format)) +
      Payload(t, SignBytes(t, a, cfg.sign), COSIGN_SIG)
  }

  function SlotsOf(t: Tools, a: BuiltArtifact, cfg: AttestationConfig): Slots
  {
    var slsa, sbom, sign := SlsaBytes(t, a, cfg.slsa), SbomBytes(t, a, cfg.sbom), SignBytes(t, a, cfg.sign);
    Slots(
      if slsa.Some? then Some((t.c.DigestOf(slsa.value), slsa.value)) else None,
      if sbom.Some? then Some((SbomType(cfg.sbom.format), t.c.DigestOf(sbom.value), sbom.value)) else None,
      if sign.Some? then Some((t.c.DigestOf(sign.value), sign.value)) else None)
  }

  lemma {:induction false} PlaceAppend(xs: seq<Carried>, ys: seq<Carried>, s: Slots)
    ensures PlaceAll(xs + ys, s) == PlaceAll(ys, PlaceAll(xs, s))
  {
    if ys == [] {
      assert xs + ys == xs;
    } else {
      var n := |ys| - 1;
      PlaceAppend(xs, ys[..n], s);
      assert (xs + ys)[..|xs + ys| - 1] == xs + ys[..n];
    }
  }

  lemma PlaceOne(t: Tools, data: Option<Bytes>, mediaType: string, s: Slots)
    ensures PlaceAll(Payload(t, data, mediaType), s) ==
      if data.Some? then PutIn(Classify(mediaType), mediaType, t.c.DigestOf(data.value), data.value, s) else s
  {
    if data.Some? {
      var x := CarriedOf(EvidenceOf(t.c, data.value, mediaType), data.value);
      assert [x][..0] == [];
    }
  }

  lemma Classes(f: SbomFormat)
    ensures Classify(IN_TOTO) == Slsa && Classify(SbomType(f)) == Sbom && Classify(COSIGN_SIG) == Sig
  {
  }

  /** Each payload lands in its own slot. */
  lemma PayloadsPlaced(t: Tools, a: BuiltArtifact, cfg: AttestationConfig)
    ensures PlaceAll(Payloads(t, a, cfg), NO_SLOTS) == SlotsOf(t, a, cfg)
  {
    var x, y, z := SlsaBytes(t, a, cfg.slsa), SbomBytes(t, a, cfg.sbom), SignBytes(t, a, cfg.sign);
    var mt := SbomType(cfg.sbom.format);
    PlaceAppend(Payload(t, x, IN_TOTO) + Payload(t, y, mt), Payload(t, z, COSIGN_SIG), NO_SLOTS);
    PlaceAppend(Payload(t, x, IN_TOTO), Payload(t, y, mt), NO_SLOTS);
    Classes(cfg.sbom.format);
    PlaceOne(t, x, IN_TOTO, NO_SLOTS);
    var s1 := PlaceAll(Payload(t, x, IN_TOTO), NO_SLOTS);
    PlaceOne(t, y, mt, s1);
    PlaceOne(t, z, COSIGN_SIG, PlaceAll(Payload(t, y, mt), s1));
  }

  /**
   * The report: SLSA and SBOM are found exactly when enabled, with what was emitted; the
   * signature is missing exactly when signing is off, and otherwise what the verifier says.
   */
  function ExpectedReport(t: Tools, a: BuiltArtifact, cfg: AttestationConfig, check: CosignVerify): VerifyReport
  {
    var slsa, sbom := SlsaBytes(t, a, cfg.slsa), SbomBytes(t, a, cfg.sbom);
    VerifyReport(
      DigestText(a.manifestHex),
      if cfg.slsa.level == SlsaLevel.Off then Missing
      else Found(SlsaDetail(EmittedInfo(a, cfg.slsa), t.c.DigestOf(slsa.value))),
      if cfg.sbom.format == NoSbom then Missing
      else Found(SbomDetail(SbomType(cfg.sbom.format), t.c.DigestOf(sbom.value))),
      SignatureVerdict(check, SlotsOf(t, a, cfg).sig, DigestText(a.manifestHex)))
  }

  lemma SlsaAsExpected(t: Tools, a: BuiltArtifact, cfg: AttestationConfig, check: CosignVerify)
    requires t.c.Lawful()
    ensures SlsaVerdict(t.c, SlotsOf(t, a, cfg).slsa, DigestText(a.manifestHex)) ==
      Ok(ExpectedReport(t, a, cfg, check).slsa)
  {
    if cfg.slsa.level != SlsaLevel.Off { EmittedStatement(t.c, a, cfg.slsa); }
  }

  lemma SbomAsExpected(t: Tools, a: BuiltArtifact, cfg: AttestationConfig, check: CosignVerify)
    requires t.c.Lawful()
    ensures SbomVerdict(t.c, SlotsOf(t, a, cfg).sbom) == Ok(ExpectedReport(t, a, cfg, check).sbom)
  {
    var j := SbomJson(t.body, a, cfg.sbom);
    if j.Some? {
      assert t.c.parse(t.c.compact(j.value)) == Some(j.value);
      EmittedSbomOk(t.body, a, cfg.sbom);
    }
  }

  lemma JudgedAsExpected(t: Tools, a: BuiltArtifact, cfg: AttestationConfig, check: CosignVerify)
    requires t.c.Lawful()
    ensures Judge(t.c, check, SlotsOf(t, a, cfg), DigestText(a.manifestHex)) == Ok(ExpectedReport(t, a, cfg, check))
  {
    SlsaAsExpected(t, a, cfg, check);
    SbomAsExpected(t, a, cfg, check);
  }

  // ── attest, wire, open, verify ──

  /** Evidence, what its referrer carries, and the bytes, one to one. */
  predicate Aligned(c: Codec, es: seq<Evidence>, xs: seq<Carried>, ds: seq<Bytes>)
  {
    |xs| == |es| == |ds| && forall i :: 0 <= i < |es| ==>
      xs[i] == CarriedOf(es[i], ds[i]) && es[i] == EvidenceOf(c, ds[i], es[i].mediaType)
  }

  lemma AlignedAppend(c: Codec, es: seq<Evidence>, xs: seq<Carried>, ds: seq<Bytes>, es': seq<Evidence>,
      xs': seq<Carried>, ds': seq<Bytes>)
    requires Aligned(c, es, xs, ds) && Aligned(c, es', xs', ds')
    ensures Aligned(c, es + es', xs + xs', ds + ds')
  {
  }

  lemma OutputsAligned(t: Tools, a: BuiltArtifact, cfg: AttestationConfig)
    ensures Aligned(t.c, Ref.Evidences(OutputsOf(t, a, cfg)), Payloads(t, a, cfg), StoredBlobs(t, a, cfg))
  {
    var o := OutputsOf(t, a, cfg);
    var x, y, z := SlsaBytes(t, a, cfg.slsa), SbomBytes(t, a, cfg.sbom), SignBytes(t, a, cfg.sign);
    var px, py, pz := Payload(t, x, IN_TOTO), Payload(t, y, SbomType(cfg.sbom.format)), Payload(t, z, COSIGN_SIG);
    AlignedAppend(t.c, Ref.Found(o.slsa), px, Just(x), Ref.Found(o.sbom), py, Just(y));
    AlignedAppend(t.c, Ref.Found(o.slsa) + Ref.Found(o.sbom), px + py, Just(x) + Just(y),
      Ref.Found(Ref.SignatureBlob(o)), pz, Just(z));
  }

  /** The blobs of attestation and of wiring are all there. */
  ghost predicate Delivered(c: Codec, store: Store, f: Files, es: seq<Evidence>, ds: seq<Bytes>, subject: Descriptor)
  {
    && (forall x <- ds :: Proper(c, store, x) && Has(c, f, x))
    && (forall x <- Ref.Written(c, es, subject) :: Proper(c, store, x) && Has(c, f, x))
  }

  lemma DeliveredWired(c: Codec, store: Store, f: Files, es: seq<Evidence>, xs: seq<Carried>, ds: seq<Bytes>,
      subject: Descriptor)
    requires c.Lawful() && Behind(store, f) && Aligned(c, es, xs, ds) && Delivered(c, store, f, es, ds, subject)
    ensures forall i :: 0 <= i < |es| ==>
      Wired(c, store, f, es[i], subject) && BlobBytes(f, es[i].digest) == Some(ds[i])
  {
    var written := Ref.Written(c, es, subject);
    assert written[0] == EMPTY_CONFIG;
    HeldBytes(c, store, f, EMPTY_CONFIG);
    forall i | 0 <= i < |es| ensures Wired(c, store, f, es[i], subject) && BlobBytes(f, es[i].digest) == Some(ds[i]) {
      assert written[i + 1] == Ref.ReferrerBytes(c, es[i], subject) && ds[i] in ds;
      HeldBytes(c, store, f, ds[i]);
    }
  }

  /** The starting layout, the finished one, and what was added in between. */
  ghost predicate Added(c: Codec, store: Store, f: Files, f': Files, es: seq<Evidence>, ds: seq<Bytes>,
      subject: Descriptor)
  {
    && WellFormed(c, f) && BlobsGrow(f, f') && Behind(store, f') && Fits(subject) && LayoutValid(c, f')
    && subject.digest == View(c, f).primary.digest
    && IndexEntries(c, f') == Some(IndexEntries(c, f).value + Ref.NewEntries(c, es, subject))
    && Delivered(c, store, f', es, ds, subject)
  }

  /** The result opens with the same primary, and its referrers carry the attestations. */
  lemma AddedOpens(c: Codec, store: Store, f: Files, f': Files, es: seq<Evidence>, xs: seq<Carried>, ds: seq<Bytes>,
      subject: Descriptor)
    requires c.Lawful() && Added(c, store, f, f', es, ds, subject) && Aligned(c, es, xs, ds)
    ensures WellFormed(c, f') && View(c, f').primary == View(c, f).primary && View(c, f').config == View(c, f).config
    ensures View(c, f').layers == View(c, f).layers
    ensures View(c, f').referrers == View(c, f).referrers + Ref.NewEntries(c, es, subject)
    ensures forall s :: Walk(Reads(c, f'), Ref.NewEntries(c, es, subject), s) == Ok(PlaceAll(xs, s))
  {
    DeliveredWired(c, store, f', es, xs, ds, subject);
    forall e | e in es ensures Wired(c, store, f', e, subject) {
      var i :| 0 <= i < |es| && es[i] == e;
    }
    ReferrersOpen(c, store, f, f', es, subject);
    var entries, read := Ref.NewEntries(c, es, subject), Reads(c, f');
    forall i | 0 <= i < |entries|
      ensures read(entries[i]) == Ok(xs[i])
    {
      WiredReads(c, store, f', es[i], subject, ds[i]);
    }
    forall s ensures Walk(read, entries, s) == Ok(PlaceAll(xs, s)) { WalkPlaces(read, entries, xs, s); }
  }

  /** The statement a policy judges. */
  function StatementInfo(a: BuiltArtifact, cfg: SlsaConfig): Option<SlsaInfo>
  {
    if cfg.level == SlsaLevel.Off then None else Some(EmittedInfo(a, cfg))
  }

  /** The digest of the attested image. */
  function SubjectOf(a: BuiltArtifact, size: nat): Descriptor
  {
    Descriptor(MANIFEST_TYPE, DigestText(a.manifestHex), size, None)
  }

  lemma AddedVerdict(c: Codec, store: Store, f: Files, f': Files, es: seq<Evidence>, xs: seq<Carried>, ds: seq<Bytes>,
      subject: Descriptor, check: CosignVerify, policy: Option<Policy>)
    requires c.Lawful() && Added(c, store, f, f', es, ds, subject) && Aligned(c, es, xs, ds)
    requires View(c, f).referrers == []
    ensures WellFormed(c, f') && View(c, f').primary == View(c, f).primary
    ensures Verdict(c, check, Reads(c, f'), View(c, f'), policy) ==
      Decide(c, check, PlaceAll(xs, NO_SLOTS), subject.digest, policy)
  {
    AddedOpens(c, store, f, f', es, xs, ds, subject);
    VerdictOn(c, check, Reads(c, f'), View(c, f'), Ref.NewEntries(c, es, subject), PlaceAll(xs, NO_SLOTS), policy);
  }

  lemma VerdictOn(c: Codec, check: CosignVerify, read: Reader, image: ImageDir, rs: seq<Descriptor>, slots: Slots,
      policy: Option<Policy>)
    requires image.referrers == [] + rs && Walk(read, rs, NO_SLOTS) == Ok(slots)
    ensures Verdict(c, check, read, image, policy) == Decide(c, check, slots, image.primary.digest, policy)
  {
    assert [] + rs == rs;
  }

  /** The verdict on an attested image is a function of what was emitted. */
  lemma AttestedVerdict(t: Tools, store: Store, f: Files, f': Files, a: BuiltArtifact, cfg: AttestationConfig,
      size: nat, check: CosignVerify, policy: Option<Policy>)
    requires t.c.Lawful()
    requires Added(t.c, store, f, f', Ref.Evidences(OutputsOf(t, a, cfg)), StoredBlobs(t, a, cfg), SubjectOf(a, size))
    requires View(t.c, f).referrers == []
    ensures WellFormed(t.c, f') && View(t.c, f').primary == View(t.c, f).primary
    ensures Verdict(t.c, check, Reads(t.c, f'), View(t.c, f'), policy) ==
      Decide(t.c, check, SlotsOf(t, a, cfg), DigestText(a.manifestHex), policy)
  {
    var es, xs, ds := Ref.Evidences(OutputsOf(t, a, cfg)), Payloads(t, a, cfg), StoredBlobs(t, a, cfg);
    OutputsAligned(t, a, cfg);
    PayloadsPlaced(t, a, cfg);
    AddedVerdict(t.c, store, f, f', es, xs, ds, SubjectOf(a, size), check, policy);
  }

  /** Everything a run writes, in one list. */
  function AllBytes(t: Tools, a: BuiltArtifact, cfg: AttestationConfig, size: nat): seq<Bytes>
  {
    StoredBlobs(t, a, cfg) + Ref.Written(t.c, Ref.Evidences(OutputsOf(t, a, cfg)), SubjectOf(a, size))
  }

  ghost predicate Attestable(t: Tools, store: Store, f: Files, a: BuiltArtifact, cfg: AttestationConfig, size: nat)
  {
    && t.c.Lawful() && WellFormed(t.c, f) && StoreCorrect(t.c, f) && Behind(store, f)
    && View(t.c, f).primary.digest == DigestText(a.manifestHex) && size < U64_LIMIT
    && forall x <- AllBytes(t, a, cfg, size) :: Proper(t.c, store, x)
  }

  /** Signing is off, or the signature was recorded. */
  predicate Signable(t: Tools, a: BuiltArtifact, cfg: AttestationConfig)
  {
    cfg.sign.kind == NoSign || SignOutcome(t, a, cfg.sign).SignedAndRecorded?
  }

  /** The two writers together: the attestations are stored and wired into the index, or a reader sees the old index. */
  method AttestAndWire(t: Tools, fs: Fs, pid: string, a: BuiltArtifact, cfg: AttestationConfig, size: nat,
      ghost store: Store)
    returns (attested: Result<Outputs, AttestError>, wired: Result<(), Ref.CliError>)
    requires Attestable(t, store, fs.files, a, cfg, size)
    modifies fs
    ensures wired.Ok? ==> attested.Ok?
    ensures attested.Ok? ==> attested.value == OutputsOf(t, a, cfg) && Signable(t, a, cfg)
    ensures wired.Err? ==> Safe(t.c, Base(old(fs.files), |old(fs.history)|, Some(store)), fs)
    ensures fs.Reliable() ==> (attested.Ok? <==> Signable(t, a, cfg)) && (attested.Ok? <==> wired.Ok?)
    ensures wired.Ok? ==> StoreCorrect(t.c, fs.files) && Ref.Readable(t.c, fs.files)
    ensures wired.Ok? ==>
      Added(t.c, store, old(fs.files), fs.files, Ref.Evidences(OutputsOf(t, a, cfg)), StoredBlobs(t, a, cfg),
        SubjectOf(a, size))
  {
    ghost var b := Base(fs.files, |fs.history|, Some(store));
    ghost var f0 := fs.files;
    ghost var es := Ref.Evidences(OutputsOf(t, a, cfg));
    AllKnown(t, store, b, a, cfg, size);
    attested := AttestWithInvoker(t, fs, a, cfg, b);
    if attested.Err? { return attested, Err(Ref.Io); }
    ghost var f1 := fs.files;
    WellFormedReadable(t.c, f0);
    wired := Ref.WriteReferrers(t.c, fs, pid, attested.value, SubjectOf(a, size), b);
    if wired.Ok? {
      WiringAdds(t, store, b, f1, fs.files, a, cfg, size);
      StillReadable(t.c, f1, fs.files, Ref.NewEntries(t.c, es, SubjectOf(a, size)));
    }
  }

  lemma StillReadable(c: Codec, f: Files, f': Files, entries: seq<Descriptor>)
    requires c.Lawful() && Ref.Readable(c, f)
    requires INDEX_FILE in f' && f'[INDEX_FILE] == c.compact(Ref.NewIndex(Ref.IndexObject(c, f), entries))
    ensures Ref.Readable(c, f')
  {
    var j := Ref.NewIndex(Ref.IndexObject(c, f), entries);
    assert c.parse(c.compact(j)) == Some(j);
  }

  lemma AllKnown(t: Tools, store: Store, b: Base, a: BuiltArtifact, cfg: AttestationConfig, size: nat)
    requires b.store == Some(store) && forall x <- AllBytes(t, a, cfg, size) :: Proper(t.c, store, x)
    ensures forall x <- StoredBlobs(t, a, cfg) :: Known(t.c, b, x)
    ensures forall x <- Ref.Written(t.c, Ref.Evidences(OutputsOf(t, a, cfg)), SubjectOf(a, size)) :: Known(t.c, b, x)
  {
    forall x | x in StoredBlobs(t, a, cfg)
      ensures Known(t.c, b, x)
    {
      assert x in AllBytes(t, a, cfg, size) && Proper(t.c, store, x);
    }
    forall x | x in Ref.Written(t.c, Ref.Evidences(OutputsOf(t, a, cfg)), SubjectOf(a, size)) ensures Known(t.c, b, x) {
      assert x in AllBytes(t, a, cfg, size) && Proper(t.c, store, x);
    }
  }

  /** `f1` is the state between the writers, `f2` the one after both. */
  lemma WiringAdds(t: Tools, store: Store, b: Base, f1: Files, f2: Files, a: BuiltArtifact, cfg: AttestationConfig,
      size: nat)
    requires b.store == Some(store) && Attestable(t, store, b.files, a, cfg, size)
    requires Kept(t.c, b, f1) && forall x <- StoredBlobs(t, a, cfg) :: Has(t.c, f1, x)
    requires Ref.Readable(t.c, f1) && StoreKept(t.c, b, f2) && INDEX_FILE in f2
    requires f2[INDEX_FILE] ==
      t.c.compact(Ref.NewIndex(Ref.IndexObject(t.c, f1),
        Ref.NewEntries(t.c, Ref.Evidences(OutputsOf(t, a, cfg)), SubjectOf(a, size))))
    requires Ref.GainsAll(t.c, f1, f2, Ref.Written(t.c, Ref.Evidences(OutputsOf(t, a, cfg)), SubjectOf(a, size)))
    ensures Added(t.c, store, b.files, f2, Ref.Evidences(OutputsOf(t, a, cfg)), StoredBlobs(t, a, cfg),
      SubjectOf(a, size))
  {
    var c, es, subject := t.c, Ref.Evidences(OutputsOf(t, a, cfg)), SubjectOf(a, size);
    var ds := StoredBlobs(t, a, cfg);
    assert forall x <- ds :: x in AllBytes(t, a, cfg, size);
    assert forall x <- Ref.Written(c, es, subject) :: x in AllBytes(t, a, cfg, size);
    KeptBehind(c, b, f2, store);
    EntriesFit(c, store, es, subject);
    IndexAppends(c, f1, f2, Ref.NewEntries(c, es, subject));
    StaysDelivered(c, store, f1, f2, es, ds, subject);
  }

  lemma EntriesFit(c: Codec, store: Store, es: seq<Evidence>, subject: Descriptor)
    requires forall x <- Ref.Written(c, es, subject) :: Proper(c, store, x)
    ensures forall d <- Ref.NewEntries(c, es, subject) :: Fits(d)
  {
    var written := Ref.Written(c, es, subject);
    forall d | d in Ref.NewEntries(c, es, subject) ensures Fits(d) {
      var i :| 0 <= i < |es| && d == Ref.EntryFor(c, es[i], subject);
      assert written[i + 1] in written && Proper(c, store, written[i + 1]);
    }
  }

  lemma StaysDelivered(c: Codec, store: Store, f: Files, f': Files, es: seq<Evidence>, ds: seq<Bytes>,
      subject: Descriptor)
    requires c.Lawful() && Ref.GainsAll(c, f, f', Ref.Written(c, es, subject))
    requires forall x <- ds :: Proper(c, store, x) && Has(c, f, x)
    requires forall x <- Ref.Written(c, es, subject) :: Proper(c, store, x)
    ensures Delivered(c, store, f', es, ds, subject)
  {
    forall x | x in ds ensures Has(c, f', x) { assert Has(c, f, x) && IsHex64(c.hash(x)); }
  }

  /** Exactly the pillars that are switched off are missing. */
  predicate MissingWhenOff(report: VerifyReport, cfg: AttestationConfig)
  {
    && (report.slsa.Missing? <==> cfg.slsa.level == SlsaLevel.Off)
    && (report.sbom.Missing? <==> cfg.sbom.format == NoSbom)
    && (report.signature.Missing? <==> cfg.sign.kind == NoSign)
  }

  lemma PillarsMissing(t: Tools, a: BuiltArtifact, cfg: AttestationConfig, check: CosignVerify)
    requires Signable(t, a, cfg)
    ensures MissingWhenOff(ExpectedReport(t, a, cfg, check), cfg)
  {
  }

  /** The report, or the refusal of a policy that is not met; only pillars that are off are missing. */
  ghost predicate AsExpected(report: VerifyReport, cfg: AttestationConfig, policy: Option<Policy>,
      info: Option<SlsaInfo>, r: Result<VerifyReport, VerifyError>)
  {
    && (r.Ok? ==> r.value == report)
    && (r.Ok? <==> policy.None? || PolicyMet(report, policy.value, info))
    && MissingWhenOff(report, cfg)
  }

  /** The report is as expected, and a policy passes exactly when what was emitted meets it. */
  lemma DecidedAsExpected(t: Tools, a: BuiltArtifact, cfg: AttestationConfig, check: CosignVerify,
      policy: Option<Policy>)
    requires t.c.Lawful() && Signable(t, a, cfg)
    ensures AsExpected(ExpectedReport(t, a, cfg, check), cfg, policy, StatementInfo(a, cfg.slsa),
      Decide(t.c, check, SlotsOf(t, a, cfg), DigestText(a.manifestHex), policy))
  {
    JudgedAsExpected(t, a, cfg, check);
    PillarsMissing(t, a, cfg, check);
    if cfg.slsa.level != SlsaLevel.Off { EmittedStatement(t.c, a, cfg.slsa); }
    assert SlotInfo(t.c, SlotsOf(t, a, cfg).slsa, DigestText(a.manifestHex)) == StatementInfo(a, cfg.slsa);
  }

  /** The verdict on an attested image is as expected. */
  lemma AttestedAsExpected(t: Tools, store: Store, f: Files, f': Files, a: BuiltArtifact, cfg: AttestationConfig,
      size: nat, check: CosignVerify, policy: Option<Policy>)
    requires t.c.Lawful() && Signable(t, a, cfg)
    requires Added(t.c, store, f, f', Ref.Evidences(OutputsOf(t, a, cfg)), StoredBlobs(t, a, cfg), SubjectOf(a, size))
    requires View(t.c, f).referrers == []
    ensures WellFormed(t.c, f') && View(t.c, f').primary == View(t.c, f).primary
    ensures AsExpected(ExpectedReport(t, a, cfg, check), cfg, policy, StatementInfo(a, cfg.slsa),
      Verdict(t.c, check, Reads(t.c, f'), View(t.c, f'), policy))
  {
    AttestedVerdict(t, store, f, f', a, cfg, size, check, policy);
    DecidedAsExpected(t, a, cfg, check, policy);
  }

  // ── the index entries ──

  /** The entry states the size of the manifest it names, and the type that manifest states. */
  ghost predicate Truthful(c: Codec, f: Files, d: Descriptor)
  {
    d.mediaType == MANIFEST_TYPE && exists x, j, t ::
      && BlobBytes(f, d.digest) == Some(x) && |x| == d.size && c.parse(x) == Some(j)
      && Field(j, "artifactType") == Some(JStr(t)) && d.artifactType == Some(t)
  }

  lemma EntriesTruthful(c: Codec, store: Store, f: Files, f': Files, es: seq<Evidence>, xs: seq<Carried>,
      ds: seq<Bytes>, subject: Descriptor)
    requires c.Lawful() && Added(c, store, f, f', es, ds, subject) && Aligned(c, es, xs, ds)
    ensures forall d <- Ref.NewEntries(c, es, subject) :: Truthful(c, f', d)
  {
    DeliveredWired(c, store, f', es, xs, ds, subject);
    forall d | d in Ref.NewEntries(c, es, subject) ensures Truthful(c, f', d) {
      var i :| 0 <= i < |es| && d == Ref.EntryFor(c, es[i], subject);
      EntryTruthful(c, store, f', es[i], subject);
    }
  }

  lemma EntryTruthful(c: Codec, store: Store, f: Files, e: Evidence, subject: Descriptor)
    requires c.Lawful() && Behind(store, f) && Wired(c, store, f, e, subject)
    ensures Truthful(c, f, Ref.EntryFor(c, e, subject))
  {
    var x := Ref.ReferrerBytes(c, e, subject);
    HeldBytes(c, store, f, x);
    var j := Ref.ReferrerJson(c, e, subject);
    assert c.parse(x) == Some(j);
    assert Field(j, "artifactType") == Some(JStr(e.mediaType));
  }

  /** Every referrer of an attested image has a truthful entry. */
  lemma AttestedTruthful(t: Tools, store: Store, f: Files, f': Files, a: BuiltArtifact, cfg: AttestationConfig,
      size: nat)
    requires t.c.Lawful()
    requires Added(t.c, store, f, f', Ref.Evidences(OutputsOf(t, a, cfg)), StoredBlobs(t, a, cfg), SubjectOf(a, size))
    requires View(t.c, f).referrers == []
    ensures WellFormed(t.c, f') && forall d <- View(t.c, f').referrers :: Truthful(t.c, f', d)
  {
    var es, xs, ds := Ref.Evidences(OutputsOf(t, a, cfg)), Payloads(t, a, cfg), StoredBlobs(t, a, cfg);
    OutputsAligned(t, a, cfg);
    AddedOpens(t.c, store, f, f', es, xs, ds, SubjectOf(a, size));
    EntriesTruthful(t.c, store, f, f', es, xs, ds, SubjectOf(a, size));
    assert View(t.c, f').referrers == Ref.NewEntries(t.c, es, SubjectOf(a, size));
  }

  // ── a signer and a verifier that agree ──

  /**
   * A bundle covers the manifest it was asked for, and the verifier accepts it for that manifest
   * only.
   */
  ghost predicate SignsAndChecks(t: Tools, check: CosignVerify, covers: Bytes -> string)
  {
    && (forall i {:trigger t.invoker(i)} :: t.invoker(i).SignedAndRecorded? ==>
          covers(t.invoker(i).bundle) == "sha256:" + i.manifestHex)
    && (forall d, x {:trigger check(d, x)} :: check(d, x).VerifiedAndRecorded? <==> covers(x) == d)
  }

  /** What a policy asks, of the settings of the build that was attested. */
  ghost predicate SettingsMeet(t: Tools, a: BuiltArtifact, cfg: AttestationConfig, p: Policy)
  {
    var level := match cfg.slsa.level case Off => 0 case L1 => 1 case L2 => 2 case L3 => 3 case L4 => 4;
    var builder := if cfg.slsa.builderId.Some? then cfg.slsa.builderId.value else "urn:justoci:builder:unknown";
    var sbom := if cfg.sbom.format == CycloneDx then "application/vnd.cyclonedx+json" else "application/spdx+json";
    && (p.slsaMinLevel.Some? ==> level > 0 && level >= p.slsaMinLevel.value)
    && (p.builderId.Some? ==> level > 0 && builder == p.builderId.value)
    && (p.requireSignature ==> cfg.sign.kind != NoSign)
    && (p.sbomFormats.Some? ==> cfg.sbom.format != NoSbom && exists f <- p.sbomFormats.value ::
          Contains(sbom + ", blob=" + t.c.DigestOf(SbomBytes(t, a, cfg.sbom).value), f))
  }

  /** The report finds what was switched on, and a policy passes exactly when the settings meet it. */
  ghost predicate JudgedBySettings(t: Tools, a: BuiltArtifact, cfg: AttestationConfig, policy: Option<Policy>,
      r: Result<VerifyReport, VerifyError>)
  {
    && (r.Ok? <==> policy.None? || SettingsMeet(t, a, cfg, policy.value))
    && (r.Ok? ==>
      && (if cfg.slsa.level == SlsaLevel.Off then r.value.slsa.Missing? else r.value.slsa.Found?)
      && (if cfg.sbom.format == NoSbom then r.value.sbom.Missing? else r.value.sbom.Found?)
      && (if cfg.sign.kind == NoSign then r.value.signature.Missing? else r.value.signature.Found?))
  }

  lemma SignatureFound(t: Tools, a: BuiltArtifact, cfg: AttestationConfig, check: CosignVerify,
      covers: Bytes -> string)
    requires Signable(t, a, cfg) && SignsAndChecks(t, check, covers)
    ensures var s := ExpectedReport(t, a, cfg, check).signature;
      if cfg.sign.kind == NoSign then s.Missing? else s.Found?
  {
    if cfg.sign.kind != NoSign {
      var x := SignBytes(t, a, cfg.sign).value;
      assert covers(x) == "sha256:" + a.manifestHex;
      assert check("sha256:" + a.manifestHex, x).VerifiedAndRecorded?;
    }
  }

  lemma GatesRead(t: Tools, a: BuiltArtifact, cfg: AttestationConfig, check: CosignVerify, p: Policy)
    requires p.requireSignature ==>
      (ExpectedReport(t, a, cfg, check).signature.Found? <==> cfg.sign.kind != NoSign)
    ensures PolicyMet(ExpectedReport(t, a, cfg, check), p, StatementInfo(a, cfg.slsa)) <==> SettingsMeet(t, a, cfg, p)
  {
  }

  lemma SettingsDecide(t: Tools, a: BuiltArtifact, cfg: AttestationConfig, check: CosignVerify, policy: Option<Policy>,
      covers: Bytes -> string, r: Result<VerifyReport, VerifyError>)
    requires Signable(t, a, cfg) && SignsAndChecks(t, check, covers)
    requires AsExpected(ExpectedReport(t, a, cfg, check), cfg, policy, StatementInfo(a, cfg.slsa), r)
    ensures JudgedBySettings(t, a, cfg, policy, r)
  {
    SignatureFound(t, a, cfg, check, covers);
    if policy.Some? { GatesRead(t, a, cfg, check, policy.value); }
  }

  /**
   * From a valid image without referrers whose directory is the store: attest, wire in the
   * referrers, open, verify. Whatever file operations failed, once the wiring succeeds the
   * layout is valid with the same primary, and the verdict is the expected report, or the
   * refusal of a policy that what was emitted does not meet.
   */
  method AttestThenVerify(t: Tools, fs: Fs, pid: string, a: BuiltArtifact, cfg: AttestationConfig, size: nat,
      policy: Option<Policy>, check: CosignVerify, ghost store: Store)
    returns (attested: Result<Outputs, AttestError>, verdict: Option<Result<VerifyReport, VerifyError>>)
    requires Attestable(t, store, fs.files, a, cfg, size) && View(t.c, fs.files).referrers == []
    modifies fs
    ensures verdict.Some? ==> attested.Ok? && Signable(t, a, cfg)
    ensures fs.Reliable() ==> (attested.Ok? <==> Signable(t, a, cfg)) && (attested.Ok? <==> verdict.Some?)
    ensures verdict.None? ==> Safe(t.c, Base(old(fs.files), |old(fs.history)|, Some(store)), fs)
    ensures verdict.Some? ==>
      WellFormed(t.c, fs.files) && View(t.c, fs.files).primary == View(t.c, old(fs.files)).primary
    ensures verdict.Some? ==>
      AsExpected(ExpectedReport(t, a, cfg, check), cfg, policy, StatementInfo(a, cfg.slsa), verdict.value)
    ensures verdict.Some? ==> forall covers {:trigger SignsAndChecks(t, check, covers)} ::
      SignsAndChecks(t, check, covers) ==> JudgedBySettings(t, a, cfg, policy, verdict.value)
    ensures verdict.Some? ==> forall d <- View(t.c, fs.files).referrers :: Truthful(t.c, fs.files, d)
  {
    ghost var f := fs.files;
    var wired;
    attested, wired := AttestAndWire(t, fs, pid, a, cfg, size, store);
    if wired.Err? { return attested, None; }
    AttestedAsExpected(t, store, f, fs.files, a, cfg, size, check, policy);
    AttestedTruthful(t, store, f, fs.files, a, cfg, size);
    var v := Verify(t.c, fs.files, policy, check);
    verdict := Some(v);
    forall covers | SignsAndChecks(t, check, covers) ensures JudgedBySettings(t, a, cfg, policy, v) {
      SettingsDecide(t, a, cfg, check, policy, covers, v);
    }
  }
}
