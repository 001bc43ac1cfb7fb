/** An image, a signer and a codec at which the hypotheses about attesting hold together. */
module AttestInstances {
  import opened Wrappers
  import opened Json
  import opened Oci
  import opened ImageDirs
  import opened Staging
  import opened Pull
  import opened Specs
  import opened Attest
  import Ref = Referrers
  import opened VerifyEngine
  import opened AttestFacts
  import opened StreamingSink
  import opened LawfulCodecs
  import opened Instances

  // ── the documents ──

  const SIZE: nat := 2

  /** An image whose one layer is its config. */
  function Image(): Manifest { Manifest(None, Doc(0), [Doc(0)], None) }

  function Built(): BuiltArtifact
  {
    BuiltArtifact(
      Name(1), [],
      Spec(
        V0, ArtifactId("a", "b"), OciArtifact, None, Platform(None, None), [], JObj(map[]), map[], DEFAULT_ATTESTATION),
      "")
  }

  function Statement(): Json { StatementJson(Built(), DEFAULT_SLSA) }

  function Sbom(): Json { JObj(map["bomFormat" := JStr("CycloneDX")]) }

  function SlsaEvidence(): Evidence { Evidence(D(2), 1, IN_TOTO) }
  function SbomEvidence(): Evidence { Evidence(D(3), 1, CYCLONEDX_JSON) }
  function SignEvidence(): Evidence { Evidence(D(7), 1, COSIGN_SIG) }

  function Subject(): Descriptor { Descriptor(MANIFEST_TYPE, D(1), SIZE, None) }

  /** Everything that is printed, each as its number; of `base` it needs the digest of the empty config only. */
  function AllDocs(base: Codec): seq<Json>
  {
    [JObj(map[]), ManifestObj(Image()), Statement(), Sbom(), Ref.ReferrerJson(base, SlsaEvidence(), Subject()),
      Ref.ReferrerJson(base, SbomEvidence(), Subject()), Ref.ReferrerJson(base, SignEvidence(), Subject())]
  }

  /** Which document it is, from the fields it has. */
  function Which(j: Json): nat
  {
    if !j.JObj? then 9
    else if "_type" in j.o then 2
    else if "bomFormat" in j.o then 3
    else if "artifactType" in j.o && j.o["artifactType"].JStr? then 3 + Pillar(j.o["artifactType"].s)
    else if "config" in j.o then 1
    else 0
  }

  function Pillar(t: string): nat { if |t| == 28 then 1 else if |t| == 30 then 2 else 3 }

  lemma TypesApart()
    ensures Pillar(IN_TOTO) == 1 && Pillar(CYCLONEDX_JSON) == 2 && Pillar(COSIGN_SIG) == 3
  {
  }

  lemma ReferrerIs(base: Codec, e: Evidence)
    ensures Which(Ref.ReferrerJson(base, e, Subject())) == 3 + Pillar(e.mediaType)
  {
  }

  lemma ImageIs()
    ensures Which(JObj(map[])) == 0 && Which(ManifestObj(Image())) == 1
  {
  }

  lemma EmittedAre()
    ensures Which(Statement()) == 2 && Which(Sbom()) == 3
  {
  }

  lemma ApartBy(docs: seq<Json>)
    requires forall i: nat :: i < |docs| ==> Which(docs[i]) == i
    ensures forall i, j :: 0 <= i < j < |docs| ==> docs[i] != docs[j]
  {
  }

  lemma DocsApart(base: Codec)
    ensures forall i, j :: 0 <= i < j < 7 ==> AllDocs(base)[i] != AllDocs(base)[j]
  {
    TypesApart();
    ImageIs();
    EmittedAre();
    ReferrerIs(base, SlsaEvidence());
    ReferrerIs(base, SbomEvidence());
    ReferrerIs(base, SignEvidence());
    ApartBy(AllDocs(base));
  }

  // ── tools ──

  /** A codec that prints each document as its number, and whose hash is the table. */
  ghost predicate Table(c: Codec, base: Codec)
  {
    && c.Lawful() && (forall x :: c.hash(x) == Hash(x) && base.hash(x) == Hash(x))
    && forall i: nat :: i < 7 ==> c.compact(AllDocs(base)[i]) == [i as byte]
  }

  lemma TableExists() returns (c: Codec, base: Codec)
    ensures Table(c, base)
  {
    base := TableCodec([]);
    var docs := AllDocs(base);
    DocsApart(base);
    c := TableCodec(docs);
    TableLawful(docs);
    forall i: nat | i < 7 ensures c.compact(docs[i]) == [i as byte] { TablePrints(docs, i); }
  }

  /** The signer signs and records the image, and nothing else. */
  function ToolsOf(c: Codec): Tools
  {
    Tools(c, (_, _) => map[],
      (i: Invocation) => if i.manifestHex == Built().manifestHex then SignedAndRecorded([7], 0) else SignFailed(""))
  }

  /** The manifest a bundle covers. */
  function Covered(x: Bytes): string { if x == [7] then "sha256:" + Built().manifestHex else "nothing" }

  function Checker(): CosignVerify
  {
    (d: string, x: Bytes) => if d == Covered(x) then VerifiedAndRecorded(0) else InvalidSignature("")
  }

  /** This signer and this verifier agree. */
  lemma SignerAgrees(c: Codec)
    ensures SignsAndChecks(ToolsOf(c), Checker(), Covered)
  {
  }

  /** The data behind every hash in play. */
  function Behind9(h: string): Bytes
  {
    if |h| == 64 && 48 <= h[63] as int < 57 then [(h[63] as int - 48) as byte] else EMPTY_CONFIG
  }

  lemma BehindNames(i: nat)
    requires i < 9
    ensures Behind9(Name(i)) == [i as byte] && Behind9(Name(9)) == EMPTY_CONFIG && Hash([i as byte]) == Name(i)
  {
    NameHex(i);
    NameHex(9);
  }

  /** A byte is behind its hash, and so is the empty config. */
  lemma ByteProper(c: Codec, base: Codec, i: nat)
    requires Table(c, base) && i < 9
    ensures Proper(c, Behind9, [i as byte]) && Proper(c, Behind9, EMPTY_CONFIG) && c.DigestOf([i as byte]) == D(i)
  {
    BehindNames(i);
  }

  // ── what the run writes ──

  /** What three pillars emit, whatever they emit. */
  lemma ThreeOutputs(t: Tools, a: BuiltArtifact, cfg: AttestationConfig, x: Bytes, y: Bytes, z: Bytes)
    requires SlsaBytes(t, a, cfg.slsa) == Some(x) && SbomBytes(t, a, cfg.sbom) == Some(y)
    requires SignBytes(t, a, cfg.sign) == Some(z)
    ensures StoredBlobs(t, a, cfg) == [x, y, z]
    ensures Ref.Evidences(OutputsOf(t, a, cfg)) ==
      [EvidenceOf(t.c, x, IN_TOTO), EvidenceOf(t.c, y, SbomType(cfg.sbom.format)), EvidenceOf(t.c, z, COSIGN_SIG)]
  {
  }

  lemma SbomPrinted(c: Codec, base: Codec)
    requires Table(c, base)
    ensures SbomBytes(ToolsOf(c), Built(), DEFAULT_SBOM) == Some([3])
  {
    var none: map<string, Json> := map[];
    assert none["bomFormat" := JStr("CycloneDX")] == map["bomFormat" := JStr("CycloneDX")];
    assert AllDocs(base)[3] == Sbom();
  }

  lemma StatementPrinted(c: Codec, base: Codec)
    requires Table(c, base)
    ensures SlsaBytes(ToolsOf(c), Built(), DEFAULT_SLSA) == Some([2])
  {
    assert AllDocs(base)[2] == Statement();
  }

  lemma OutputsAre(c: Codec, base: Codec)
    requires Table(c, base)
    ensures StoredBlobs(ToolsOf(c), Built(), DEFAULT_ATTESTATION) == [[2], [3], [7]]
    ensures Ref.Evidences(OutputsOf(ToolsOf(c), Built(), DEFAULT_ATTESTATION)) ==
      [SlsaEvidence(), SbomEvidence(), SignEvidence()]
  {
    StatementPrinted(c, base);
    SbomPrinted(c, base);
    ByteProper(c, base, 2);
    ByteProper(c, base, 3);
    ByteProper(c, base, 7);
    ThreeOutputs(ToolsOf(c), Built(), DEFAULT_ATTESTATION, [2], [3], [7]);
  }

  lemma ReferrerSame(c: Codec, base: Codec, e: Evidence)
    requires c.DigestOf(EMPTY_CONFIG) == base.DigestOf(EMPTY_CONFIG)
    ensures Ref.ReferrerJson(c, e, Subject()) == Ref.ReferrerJson(base, e, Subject())
  {
  }

  lemma ReferrerWritten(c: Codec, base: Codec, e: Evidence, i: nat)
    requires Table(c, base) && i < 7 && AllDocs(base)[i] == Ref.ReferrerJson(base, e, Subject())
    ensures Ref.ReferrerBytes(c, e, Subject()) == [i as byte]
  {
    ReferrerSame(c, base, e);
  }

  lemma ThreeWritten(c: Codec, x: Evidence, y: Evidence, z: Evidence, subject: Descriptor)
    ensures Ref.Written(c, [x, y, z], subject) ==
      [EMPTY_CONFIG, Ref.ReferrerBytes(c, x, subject), Ref.ReferrerBytes(c, y, subject),
        Ref.ReferrerBytes(c, z, subject)]
  {
  }

  lemma WrittenAre(c: Codec, base: Codec)
    requires Table(c, base)
    ensures Ref.Written(c, [SlsaEvidence(), SbomEvidence(), SignEvidence()], Subject()) ==
      [EMPTY_CONFIG, [4], [5], [6]]
  {
    ReferrerWritten(c, base, SlsaEvidence(), 4);
    ReferrerWritten(c, base, SbomEvidence(), 5);
    ReferrerWritten(c, base, SignEvidence(), 6);
    ThreeWritten(c, SlsaEvidence(), SbomEvidence(), SignEvidence(), Subject());
  }

  lemma SevenProper(c: Codec, base: Codec)
    requires Table(c, base)
    ensures forall x <- [[2], [3], [7]] + [EMPTY_CONFIG, [4], [5], [6]] :: Proper(c, Behind9, x)
  {
    ByteProper(c, base, 2);
    ByteProper(c, base, 3);
    ByteProper(c, base, 4);
    ByteProper(c, base, 5);
    ByteProper(c, base, 6);
    ByteProper(c, base, 7);
  }

  lemma AllProper(c: Codec, base: Codec)
    requires Table(c, base)
    ensures forall x <- AllBytes(ToolsOf(c), Built(), DEFAULT_ATTESTATION, SIZE) :: Proper(c, Behind9, x)
  {
    OutputsAre(c, base);
    WrittenAre(c, base);
    SevenProper(c, base);
    assert SubjectOf(Built(), SIZE) == Subject();
  }

  // ── the layout ──

  function LayoutOf(c: Codec, k: string, p: string): Files
  {
    map[LAYOUT_FILE := MarkerBytes(c), INDEX_FILE := c.compact(IndexJson([Doc(1)])),
      Path.Blob(k) := [0], Path.Blob(p) := [1]]
  }

  lemma LayoutBlobs(c: Codec, k: string, p: string)
    requires k != p && HexOf(DigestText(k)) == Ok(k) && HexOf(DigestText(p)) == Ok(p)
    ensures var f := LayoutOf(c, k, p);
      && BlobBytes(f, DigestText(k)) == Some([0]) && BlobBytes(f, DigestText(p)) == Some([1])
      && (forall h :: Path.Blob(h) in f ==> h == k || h == p)
      && LAYOUT_FILE in f && f[LAYOUT_FILE] == MarkerBytes(c)
      && INDEX_FILE in f && f[INDEX_FILE] == c.compact(IndexJson([Doc(1)]))
      && f[Path.Blob(k)] == [0] && f[Path.Blob(p)] == [1]
  {
  }

  lemma LayoutBehind(c: Codec, f: Files, k: string, p: string, store: AttestFacts.Store)
    requires (forall h :: Path.Blob(h) in f ==> h == k || h == p) && Path.Blob(k) in f && Path.Blob(p) in f
    requires c.hash(f[Path.Blob(k)]) == k && c.hash(f[Path.Blob(p)]) == p
    requires store(k) == f[Path.Blob(k)] && store(p) == f[Path.Blob(p)]
    ensures StoreCorrect(c, f) && Behind(store, f)
  {
  }

  lemma ImageReads(c: Codec, base: Codec)
    requires Table(c, base)
    ensures ParseManifest(c, [1]) == Some(Image())
  {
    assert AllDocs(base)[1] == ManifestObj(Image());
    PrintedReads(c, Image(), [1]);
  }

  lemma PrintedReads(c: Codec, m: Manifest, data: Bytes)
    requires c.Lawful() && Plain(m) && c.compact(ManifestObj(m)) == data
    ensures ParseManifest(c, data) == Some(m)
  {
    ManifestReadsBack(m);
    assert c.parse(c.compact(ManifestObj(m))) == Some(ManifestObj(m));
  }

  lemma LayoutIndex(c: Codec, f: Files, d: Descriptor)
    requires c.Lawful() && LAYOUT_FILE in f && f[LAYOUT_FILE] == MarkerBytes(c) && Fits(d)
    requires INDEX_FILE in f && f[INDEX_FILE] == c.compact(IndexJson([d]))
    ensures LayoutValid(c, f) && IndexEntries(c, f) == Some([d])
  {
    MarkerIsValid(c, f);
    assert c.parse(c.compact(IndexJson([d]))) == Some(IndexJson([d]));
    DescriptorsRoundTrip([d]);
    assert Field(IndexJson([d]), "manifests") == Some(JArr(DescriptorsJson([d])));
  }

  lemma LayoutHeld(c: Codec, base: Codec)
    requires Table(c, base)
    ensures var f := LayoutOf(c, Name(0), Name(1));
      && StoreCorrect(c, f) && Behind(Behind9, f)
      && BlobBytes(f, D(0)) == Some([0]) && BlobBytes(f, D(1)) == Some([1])
      && LayoutValid(c, f) && IndexEntries(c, f) == Some([Doc(1)])
  {
    var f := LayoutOf(c, Name(0), Name(1));
    DigestsDiffer(0, 1);
    NameHex(0);
    NameHex(1);
    LayoutBlobs(c, Name(0), Name(1));
    BehindNames(0);
    BehindNames(1);
    LayoutBehind(c, f, Name(0), Name(1), Behind9);
    LayoutIndex(c, f, Doc(1));
  }

  lemma LayoutOpens(c: Codec, base: Codec)
    requires Table(c, base)
    ensures var f := LayoutOf(c, Name(0), Name(1));
      && WellFormed(c, f) && StoreCorrect(c, f) && Behind(Behind9, f)
      && View(c, f).primary == Doc(1) && View(c, f).referrers == []
  {
    LayoutHeld(c, base);
    ImageReads(c, base);
    ImageOpens(c, LayoutOf(c, Name(0), Name(1)), Doc(0), Doc(1), [1], Image());
  }

  lemma ImageOpens(c: Codec, f: Files, k: Descriptor, p: Descriptor, data: Bytes, m: Manifest)
    requires LayoutValid(c, f) && IndexEntries(c, f) == Some([p]) && p.mediaType == MANIFEST_TYPE
    requires BlobBytes(f, p.digest) == Some(data) && ParseManifest(c, data) == Some(m) && Present(f, k.digest)
    requires m == Manifest(None, k, [k], None)
    ensures WellFormed(c, f) && View(c, f).primary == p && View(c, f).referrers == []
  {
    SingleOpens(c, f, p, data, m);
  }

  /**
   * The hypotheses of `AttestFacts.AttestThenVerify` hold together, for a run that emits all
   * three attestations.
   */
  lemma AttestThenVerifyApplies() returns (t: Tools, f: Files)
    ensures Attestable(t, Behind9, f, Built(), DEFAULT_ATTESTATION, SIZE) && View(t.c, f).referrers == []
    ensures Signable(t, Built(), DEFAULT_ATTESTATION)
    ensures |Ref.Evidences(OutputsOf(t, Built(), DEFAULT_ATTESTATION))| == 3
    ensures t == ToolsOf(t.c)
  {
    var c, base := TableExists();
    t, f := ToolsOf(c), LayoutOf(c, Name(0), Name(1));
    LayoutOpens(c, base);
    AllProper(c, base);
    OutputsAre(c, base);
  }
}
