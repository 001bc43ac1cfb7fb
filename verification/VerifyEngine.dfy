/** `verify`: the walk over an image's referrers and the verdict on each pillar. */
module VerifyEngine {
  import opened Wrappers
  import opened Text
  import opened Json
  import opened Oci
  import opened ImageDirs
  import opened Attest

  datatype VerifyError =
    | BadImage(error: ImageDirError)
    | Io
    | MalformedBlob(digest: string)
    | SlsaMalformed
    | SlsaMissing
    | SbomMissing
    | SignatureMissing
    | SignatureInvalid(detail: string)
    | PolicyViolation(rule: string)

  datatype PillarVerdict = Missing | Found(detail: string) | Failed(detail: string)

  datatype VerifyReport = VerifyReport(manifestDigest: string, slsa: PillarVerdict, sbom: PillarVerdict,
    signature: PillarVerdict)

  datatype CosignVerdict =
    | VerifiedAndRecorded(logIndex: nat)
    | VerifiedNotRecorded(reason: string)
    | InvalidSignature(stderr: string)
    | NotInstalled

  type CosignVerify = (string, Bytes) -> CosignVerdict

  // ── classification ──

  datatype ArtifactClass = Slsa | Sbom | Sig | Unknown

  function Classify(t: string): ArtifactClass
  {
    if t == IN_TOTO then Slsa
    else if t == CYCLONEDX_JSON || t == SPDX_JSON then Sbom
    else if t == COSIGN_SIG then Sig
    else if Contains(t, "cyclonedx") || Contains(t, "spdx") then Sbom
    else if Contains(t, "cosign") then Sig
    else Unknown
  }

  /** What the walk reads of a referrer manifest: its type, and media type and digest of each layer. */
  datatype RefManifest = RefManifest(artifactType: Option<string>, layers: seq<(string, string)>)

  function DecodeLayer(j: Json): Option<(string, string)>
  {
    var mt, dg := StrField(j, "mediaType"), StrField(j, "digest");
    if mt.Some? && dg.Some? && U64Field(j, "size").Some? then Some((mt.value, dg.value)) else None
  }

  function DecodeRefManifest(j: Json): Option<RefManifest>
  {
    var at := OptStrField(j, "artifactType");
    var ls := match Field(j, "layers")
      case None => Some([])
      case Some(JArr(a)) => Every(a, DecodeLayer)
      case Some(_) => None;
    if !j.JObj? || at.None? || ls.None? then None else Some(RefManifest(at.value, ls.value))
  }

  // ── the walk ──

  /** The payload found for each pillar; a later referrer of a class replaces an earlier one. */
  datatype Slots = Slots(slsa: Option<(string, Bytes)>, sbom: Option<(string, string, Bytes)>,
    sig: Option<(string, Bytes)>)

  const NO_SLOTS := Slots(None, None, None)

  function PutIn(class_: ArtifactClass, t: string, digest: string, data: Bytes, s: Slots): Slots
  {
    match class_
    case Slsa => s.(slsa := Some((digest, data)))
    case Sbom => s.(sbom := Some((t, digest, data)))
    case Sig => s.(sig := Some((digest, data)))
    case Unknown => s
  }

  /** What a referrer carries: its artifact type, and digest and bytes of its first layer. */
  datatype Carried = Nothing | Something(artifactType: string, digest: string, data: Bytes)

  function ReadReferrer(c: Codec, dir: Files, d: Descriptor): Result<Carried, VerifyError>
  {
    var b := BlobBytes(dir, d.digest);
    if b.None? then Err(Io)
    else
      var j := c.parse(b.value);
      var m := if j.Some? then DecodeRefManifest(j.value) else None;
      if m.None? then Err(MalformedBlob(d.digest))
      else if m.value.layers == [] then Ok(Nothing)
      else
        var (mt, digest) := m.value.layers[0];
        var t := if m.value.artifactType.Some? then m.value.artifactType.value
                 else if d.artifactType.Some? then d.artifactType.value
                 else mt;
        var data := BlobBytes(dir, digest);
        if data.None? then Err(Io) else Ok(Something(t, digest, data.value))
  }

  function Place(x: Carried, s: Slots): Slots
  {
    if x.Nothing? then s else PutIn(Classify(x.artifactType), x.artifactType, x.digest, x.data, s)
  }

  type Reader = Descriptor -> Result<Carried, VerifyError>

  function Reads(c: Codec, dir: Files): Reader { (d: Descriptor) => ReadReferrer(c, dir, d) }

  function Walk(read: Reader, ds: seq<Descriptor>, s: Slots): Result<Slots, VerifyError>
  {
    if ds == [] then Ok(s)
    else
      var before :- Walk(read, ds[..|ds| - 1], s);
      var x :- read(ds[|ds| - 1]);
      Ok(Place(x, before))
  }

  function PlaceAll(xs: seq<Carried>, s: Slots): Slots
  {
    if xs == [] then s else Place(xs[|xs| - 1], PlaceAll(xs[..|xs| - 1], s))
  }

  lemma {:induction false} WalkPlaces(read: Reader, ds: seq<Descriptor>, xs: seq<Carried>, s: Slots)
    requires |xs| == |ds| && forall i :: 0 <= i < |ds| ==> read(ds[i]) == Ok(xs[i])
    ensures Walk(read, ds, s) == Ok(PlaceAll(xs, s))
  {
    if ds != [] {
      var n := |ds| - 1;
      WalkPlaces(read, ds[..n], xs[..n], s);
    }
  }

  // ── the statement ──

  datatype SlsaInfo = SlsaInfo(specHash: string, builderId: string, claimedLevel: int)

  function Strings(j: Option<Json>): map<string, Json> { if j.Some? && j.value.JObj? then j.value.o else map[] }

  /** Some subject carries this hex under some algorithm. */
  predicate SubjectNamed(subjects: seq<Json>, hex: string)
  {
    exists i :: 0 <= i < |subjects| && Carries(Strings(Field(subjects[i], "digest")), hex)
  }

  predicate Carries(digests: map<string, Json>, hex: string) { exists k :: k in digests && digests[k] == JStr(hex) }

  function HexPart(digest: string): string
  {
    var split := SplitOnce(digest, ':');
    if split.Some? then split.value.1 else digest
  }

  lemma HexPartOf(hex: string)
    ensures HexPart(DigestText(hex)) == hex
  {
    SplitOnceUnique("sha256", ':', hex);
    assert DigestText(hex) == "sha256" + [':'] + hex;
  }

  /** A path of object fields. */
  function Walked(j: Json, ks: seq<string>): Option<Json>
  {
    if ks == [] then Some(j)
    else
      var f := Field(j, ks[0]);
      if f.None? then None else Walked(f.value, ks[1..])
  }

  function StrOf(j: Option<Json>): Option<string> { if j.Some? && j.value.JStr? then Some(j.value.s) else None }

  function LevelOf(j: Option<Json>): int
  {
    if j.Some? && j.value.JInt? && -0x8000_0000_0000_0000 <= j.value.n < 0x8000_0000_0000_0000 then j.value.n else 0
  }

  const PARAMETERS := ["predicate", "buildDefinition", "externalParameters"]
  const BUILDER_ID := ["predicate", "runDetails", "builder", "id"]

  /** What a sound statement says. */
  function InfoOf(j: Json): Option<SlsaInfo>
  {
    var ep := Walked(j, PARAMETERS);
    var hash := if ep.Some? then StrField(ep.value, "spec_hash") else None;
    if hash.None? then None
    else
      var builder := StrOf(Walked(j, BUILDER_ID));
      Some(SlsaInfo(hash.value, if builder.Some? then builder.value else "<unknown>",
        LevelOf(Field(ep.value, "claimed_slsa_level"))))
  }

  /** `validate_slsa_statement` as a function of the bytes. */
  function Statement(c: Codec, data: Bytes, primary: string): Result<SlsaInfo, VerifyError>
  {
    var j := c.parse(data);
    if j.None? || StrField(j.value, "predicateType") != Some(SLSA_PROVENANCE_V1) then Err(SlsaMalformed)
    else
      var subjects := Field(j.value, "subject");
      if subjects.None? || !subjects.value.JArr? || !SubjectNamed(subjects.value.a, HexPart(primary)) then
        Err(SlsaMalformed)
      else
        var info := InfoOf(j.value);
        if info.None? then Err(SlsaMalformed) else Ok(info.value)
  }

  method FindSubject(subjects: seq<Json>, hex: string) returns (found: bool)
    ensures found == SubjectNamed(subjects, hex)
  {
    found := false;
    for i := 0 to |subjects|
      invariant found <==> exists k :: 0 <= k < i && Carries(Strings(Field(subjects[k], "digest")), hex)
    {
      var digests := Strings(Field(subjects[i], "digest"));
      var here := FindHex(digests, hex);
      found := found || here;
    }
  }

  method FindHex(digests: map<string, Json>, hex: string) returns (found: bool)
    ensures found == Carries(digests, hex)
  {
    found := false;
    var left := digests.Keys;
    while left != {}
      invariant left <= digests.Keys
      invariant found <==> exists k :: k in digests && k !in left && digests[k] == JStr(hex)
      decreases |left|
    {
      var k :| k in left;
      if digests[k] == JStr(hex) { found := true; }
      left := left - {k};
    }
  }

  method ValidateSlsaStatement(c: Codec, data: Bytes, primary: string) returns (r: Result<SlsaInfo, VerifyError>)
    ensures r == Statement(c, data, primary)
  {
    var j := c.parse(data);
    if j.None? || StrField(j.value, "predicateType") != Some(SLSA_PROVENANCE_V1) { return Err(SlsaMalformed); }
    var subjects := Field(j.value, "subject");
    if subjects.None? || !subjects.value.JArr? { return Err(SlsaMalformed); }
    var found := FindSubject(subjects.value.a, HexPart(primary));
    if !found { return Err(SlsaMalformed); }
    var info := InfoOf(j.value);
    r := if info.None? then Err(SlsaMalformed) else Ok(info.value);
  }

  // ── the verdicts ──

  predicate SbomOk(j: Json, mediaType: string)
  {
    if Contains(mediaType, "cyclonedx") then StrField(j, "bomFormat") == Some("CycloneDX")
    else if Contains(mediaType, "spdx") then
      var v := StrField(j, "spdxVersion");
      StartsWith(if v.Some? then v.value else "", "SPDX-")
    else true
  }

  function SlsaDetail(info: SlsaInfo, digest: string): string
  {
    "SLSA in-toto v1, builder=" + info.builderId + ", spec_hash=" + info.specHash + ", blob=" + digest
  }

  function SbomDetail(t: string, digest: string): string { t + ", blob=" + digest }

  function SlsaVerdict(c: Codec, slot: Option<(string, Bytes)>, primary: string): Result<PillarVerdict, VerifyError>
  {
    if slot.None? then Ok(Missing)
    else
      var info :- Statement(c, slot.value.1, primary);
      Ok(Found(SlsaDetail(info, slot.value.0)))
  }

  function SbomVerdict(c: Codec, slot: Option<(string, string, Bytes)>): Result<PillarVerdict, VerifyError>
  {
    if slot.None? then Ok(Missing)
    else
      var (t, digest, data) := slot.value;
      var j := c.parse(data);
      if j.None? || !SbomOk(j.value, t) then Err(MalformedBlob("<sbom>")) else Ok(Found(SbomDetail(t, digest)))
  }

  function SignatureVerdict(check: CosignVerify, slot: Option<(string, Bytes)>, primary: string): PillarVerdict
  {
    if slot.None? then Missing
    else
      match check(primary, slot.value.1)
      case VerifiedAndRecorded(n) => Found("cosign verified, rekor logIndex=" + Decimal(n) + ", blob=" + slot.value.0)
      case VerifiedNotRecorded(reason) => Failed("cosign verified but Rekor not recorded: " + reason)
      case InvalidSignature(stderr) => Failed("cosign rejected signature: " + stderr)
      case NotInstalled => Failed("cosign not installed; signature blob present but unverified")
  }

  /** The report on the payloads found. */
  function Judge(c: Codec, check: CosignVerify, s: Slots, primary: string): Result<VerifyReport, VerifyError>
  {
    var slsa :- SlsaVerdict(c, s.slsa, primary);
    var sbom :- SbomVerdict(c, s.sbom);
    Ok(VerifyReport(primary, slsa, sbom, SignatureVerdict(check, s.sig, primary)))
  }

  // ── the policy ──

  datatype Policy = Policy(slsaMinLevel: Option<int>, requireSignature: bool, builderId: Option<string>,
    sbomFormats: Option<seq<string>>)

  predicate LevelMet(info: Option<SlsaInfo>, min: Option<int>)
  {
    min.Some? ==> info.Some? && info.value.claimedLevel >= min.value
  }

  predicate BuilderMet(info: Option<SlsaInfo>, id: Option<string>)
  {
    id.Some? ==> info.Some? && info.value.builderId == id.value
  }

  predicate FormatMet(sbom: PillarVerdict, formats: Option<seq<string>>)
  {
    formats.Some? ==> sbom.Found? && exists f :: f in formats.value && Contains(sbom.detail, f)
  }

  /** Every gate of the policy. */
  predicate PolicyMet(report: VerifyReport, p: Policy, info: Option<SlsaInfo>)
  {
    && LevelMet(info, p.slsaMinLevel) && BuilderMet(info, p.builderId)
    && (p.requireSignature ==> report.signature.Found?) && FormatMet(report.sbom, p.sbomFormats)
  }

  /** `apply_policy`, on the statement the slot holds; the first gate that fails is reported. */
  function ApplyPolicy(report: VerifyReport, p: Policy, info: Option<SlsaInfo>): (r: Result<(), VerifyError>)
    ensures r.Ok? <==> PolicyMet(report, p, info)
  {
    if p.slsaMinLevel.Some? && info.None? then Err(SlsaMissing)
    else if p.slsaMinLevel.Some? && info.value.claimedLevel < p.slsaMinLevel.value then
      Err(PolicyViolation("slsa.level"))
    else if p.builderId.Some? && (info.None? || info.value.builderId != p.builderId.value) then
      Err(PolicyViolation("sign.builder_id"))
    else if p.requireSignature && report.signature.Missing? then Err(SignatureMissing)
    else if p.requireSignature && report.signature.Failed? then Err(SignatureInvalid(report.signature.detail))
    else if p.sbomFormats.Some? && report.sbom.Missing? then Err(SbomMissing)
    else if p.sbomFormats.Some? && report.sbom.Failed? then Err(PolicyViolation("sbom.format"))
    else if p.sbomFormats.Some? && !(exists f :: f in p.sbomFormats.value && Contains(report.sbom.detail, f)) then
      Err(PolicyViolation("sbom.format"))
    else Ok(())
  }

  /** The statement in the slot, if it is sound. */
  function SlotInfo(c: Codec, slot: Option<(string, Bytes)>, primary: string): Option<SlsaInfo>
  {
    if slot.None? then None
    else
      var r := Statement(c, slot.value.1, primary);
      if r.Ok? then Some(r.value) else None
  }

  function Decide(c: Codec, check: CosignVerify, slots: Slots, primary: string,
      policy: Option<Policy>): Result<VerifyReport, VerifyError>
  {
    var report :- Judge(c, check, slots, primary);
    if policy.None? then Ok(report)
    else
      var _ :- ApplyPolicy(report, policy.value, SlotInfo(c, slots.slsa, primary));
      Ok(report)
  }

  /** A verdict with its policy, as a function of the referrers read. */
  function Verdict(c: Codec, check: CosignVerify, read: Reader, image: ImageDir,
      policy: Option<Policy>): Result<VerifyReport, VerifyError>
  {
    var slots :- Walk(read, image.referrers, NO_SLOTS);
    Decide(c, check, slots, image.primary.digest, policy)
  }

  method WalkReferrers(c: Codec, dir: Files, ds: seq<Descriptor>) returns (r: Result<Slots, VerifyError>)
    ensures r == Walk(Reads(c, dir), ds, NO_SLOTS)
  {
    var slots := NO_SLOTS;
    ghost var read := Reads(c, dir);
    for i := 0 to |ds|
      invariant Walk(read, ds[..i], NO_SLOTS) == Ok(slots)
    {
      assert ds[..i + 1][..i] == ds[..i];
      var x := ReadReferrer(c, dir, ds[i]);
      if x.Err? {
        WalkStops(read, ds, i);
        return Err(x.error);
      }
      slots := Place(x.value, slots);
    }
    assert ds[..|ds|] == ds;
    r := Ok(slots);
  }

  /** The three pillars, then the policy. */
  method DecideReport(c: Codec, check: CosignVerify, slots: Slots, primary: string, policy: Option<Policy>)
    returns (r: Result<VerifyReport, VerifyError>)
    ensures r == Decide(c, check, slots, primary, policy)
  {
    var slsa := Missing;
    var info: Option<SlsaInfo> := None;
    if slots.slsa.Some? {
      var sound := ValidateSlsaStatement(c, slots.slsa.value.1, primary);
      if sound.Err? { return Err(sound.error); }
      info := Some(sound.value);
      slsa := Found(SlsaDetail(sound.value, slots.slsa.value.0));
    }
    var sbom := SbomVerdict(c, slots.sbom);
    if sbom.Err? { return Err(sbom.error); }
    var report := VerifyReport(primary, slsa, sbom.value, SignatureVerdict(check, slots.sig, primary));
    if policy.Some? {
      var ok := ApplyPolicy(report, policy.value, info);
      if ok.Err? { return Err(ok.error); }
    }
    r := Ok(report);
  }

  /** `verify`: a directory that does not open is refused with its defect. */
  method Verify(c: Codec, dir: Files, policy: Option<Policy>, check: CosignVerify)
    returns (r: Result<VerifyReport, VerifyError>)
    ensures !WellFormed(c, dir) ==> r.Err? && r.error.BadImage? && Defect(c, dir, r.error.error)
    ensures WellFormed(c, dir) ==> r == Verdict(c, check, Reads(c, dir), View(c, dir), policy)
  {
    var layout := Open(c, dir);
    if layout.Err? { return Err(BadImage(layout.error)); }
    var slots := WalkReferrers(c, dir, layout.value.referrers);
    if slots.Err? { return Err(slots.error); }
    r := DecideReport(c, check, slots.value, layout.value.primary.digest, policy);
  }

  lemma {:induction false} WalkStops(read: Reader, ds: seq<Descriptor>, i: nat)
    requires i < |ds| && Walk(read, ds[..i], NO_SLOTS).Ok? && read(ds[i]).Err?
    ensures Walk(read, ds, NO_SLOTS) == Err(read(ds[i]).error)
    decreases |ds|
  {
    var n := |ds| - 1;
    if i == n {
      assert ds[..n] == ds[..i];
    } else {
      assert ds[..n][..i] == ds[..i];
      WalkStops(read, ds[..n], i);
    }
  }
}
