/** `attest_with_invoker`: three independent pillars, each storing one blob. */
module Attest {
  import opened Wrappers
  import opened Text
  import opened Json
  import opened Oci
  import opened FileSystems
  import opened Staging
  import opened Specs

  const STATEMENT_TYPE := "https://in-toto.io/Statement/v1"
  const SLSA_PROVENANCE_V1 := "https://slsa.dev/provenance/v1"
  const BUILD_TYPE := "https://justoci.dev/buildtype/spec/v1"
  const UNKNOWN_BUILDER := "urn:justoci:builder:unknown"

  const IN_TOTO := "application/vnd.in-toto+json"
  const CYCLONEDX_JSON := "application/vnd.cyclonedx+json"
  const SPDX_JSON := "application/spdx+json"
  const COSIGN_SIG := "application/vnd.dev.cosign.simplesigning.v1+json"

  /** What a build hands over: digests as hex, all of them sha256. */
  datatype BuiltArtifact = BuiltArtifact(manifestHex: string, layerHexes: seq<string>, spec: Spec, specHash: string)

  // ── the SLSA statement ──

  function DigestMap(hex: string): Json { JObj(map["sha256" := JStr(hex)]) }

  function SubjectJson(a: BuiltArtifact): Json
  {
    JArr([JObj(map["name" := JStr(a.spec.id.Form()), "digest" := DigestMap(a.manifestHex)])])
  }

  function ExternalParameters(a: BuiltArtifact, cfg: SlsaConfig): Json
  {
    JObj(map[
      "spec_id" := JStr(a.spec.id.Form()),
      "spec_hash" := JStr(a.specHash),
      "spec_kind" := JStr(a.spec.kind.AsStr()),
      "claimed_slsa_level" := JInt(cfg.level.AsInt())])
  }

  function LayerName(idx: nat, layer: Layer): string
  {
    "layer[" + Decimal(idx) + "]:" +
      match layer.source
      case Blob(path) => path
      case Files(entries) => "files(" + Decimal(|entries|) + ")"
  }

  function Dependency(idx: nat, hex: string, layer: Layer): Json
  {
    JObj(map["name" := JStr(LayerName(idx, layer)), "digest" := DigestMap(hex), "mediaType" := JStr(layer.mediaType)])
  }

  /** Digests and layers are walked together; the shorter list ends the walk. */
  function Pairs(a: BuiltArtifact): nat { if |a.layerHexes| < |a.spec.layers| then |a.layerHexes| else |a.spec.layers| }

  function Dependencies(a: BuiltArtifact): Json
  {
    JArr(seq(Pairs(a), i requires 0 <= i < Pairs(a) => Dependency(i, a.layerHexes[i], a.spec.layers[i])))
  }

  function BuildDefinition(a: BuiltArtifact, cfg: SlsaConfig): Json
  {
    JObj(map[
      "buildType" := JStr(BUILD_TYPE),
      "externalParameters" := ExternalParameters(a, cfg),
      "resolvedDependencies" := Dependencies(a)])
  }

  function BuilderOf(cfg: SlsaConfig): string { if cfg.builderId.Some? then cfg.builderId.value else UNKNOWN_BUILDER }

  function RunDetails(cfg: SlsaConfig): Json { JObj(map["builder" := JObj(map["id" := JStr(BuilderOf(cfg))])]) }

  function StatementJson(a: BuiltArtifact, cfg: SlsaConfig): Json
  {
    JObj(map[
      "_type" := JStr(STATEMENT_TYPE),
      "predicateType" := JStr(SLSA_PROVENANCE_V1),
      "subject" := SubjectJson(a),
      "predicate" := JObj(map["buildDefinition" := BuildDefinition(a, cfg), "runDetails" := RunDetails(cfg)])])
  }

  method BuildResolvedDependencies(a: BuiltArtifact) returns (j: Json)
    ensures j == Dependencies(a)
  {
    var deps := [];
    for i := 0 to Pairs(a)
      invariant |deps| == i && forall k :: 0 <= k < i ==> deps[k] == Dependency(k, a.layerHexes[k], a.spec.layers[k])
    {
      deps := deps + [Dependency(i, a.layerHexes[i], a.spec.layers[i])];
    }
    j := JArr(deps);
  }

  method BuildStatementValue(a: BuiltArtifact, cfg: SlsaConfig) returns (j: Json)
    ensures j == StatementJson(a, cfg)
  {
    var deps := BuildResolvedDependencies(a);
    var bd: map<string, Json> := map["buildType" := JStr(BUILD_TYPE)];
    bd := bd["externalParameters" := ExternalParameters(a, cfg)];
    bd := bd["resolvedDependencies" := deps];
    assert JObj(bd) == BuildDefinition(a, cfg);
    var predicate_: map<string, Json> := map["buildDefinition" := JObj(bd)];
    predicate_ := predicate_["runDetails" := RunDetails(cfg)];
    assert predicate_ == map["buildDefinition" := BuildDefinition(a, cfg), "runDetails" := RunDetails(cfg)];
    var statement: map<string, Json> := map["_type" := JStr(STATEMENT_TYPE)];
    statement := statement["predicateType" := JStr(SLSA_PROVENANCE_V1)];
    statement := statement["subject" := SubjectJson(a)];
    statement := statement["predicate" := JObj(predicate_)];
    j := JObj(statement);
  }

  // ── SBOM and signature ──

  /** The fields of an SBOM besides the one that names its format. */
  type SbomBody = (BuiltArtifact, SbomScope) -> map<string, Json>

  function SbomJson(body: SbomBody, a: BuiltArtifact, cfg: SbomConfig): Option<Json>
  {
    match cfg.format
    case NoSbom => None
    case CycloneDx => Some(JObj(body(a, cfg.scope)["bomFormat" := JStr("CycloneDX")]))
    case Spdx => Some(JObj(body(a, cfg.scope)["spdxVersion" := JStr("SPDX-2.3")]))
  }

  function SbomType(f: SbomFormat): string { if f == CycloneDx then CYCLONEDX_JSON else SPDX_JSON }

  datatype Invocation = Invocation(manifestHex: string, kind: SignKind, identity: Option<string>)

  datatype CosignOutcome =
    | SignedAndRecorded(bundle: Bytes, logIndex: nat)
    | SignedNotRecorded(reason: string)
    | SignFailed(stderr: string)
    | CosignNotInstalled

  type Invoker = Invocation -> CosignOutcome

  // ── outputs ──

  /** A stored attestation blob: its digest, its size and its media type. */
  datatype Evidence = Evidence(digest: string, size: nat, mediaType: string)

  datatype Signature = Signature(evidence: Evidence, rekorLogIndex: nat, identity: string)

  datatype Outputs = Outputs(slsa: Option<Evidence>, sbom: Option<Evidence>, signature: Option<Signature>)

  datatype AttestError = Cas | NotRecorded(reason: string) | Unsigned(stderr: string) | NoCosign

  /** Everything outside: SHA-256 and JSON text, the SBOM bodies, the signer. */
  datatype Tools = Tools(c: Codec, body: SbomBody, invoker: Invoker)

  function EvidenceOf(c: Codec, data: Bytes, mediaType: string): Evidence
  {
    Evidence(c.DigestOf(data), |data|, mediaType)
  }

  function SlsaBytes(t: Tools, a: BuiltArtifact, cfg: SlsaConfig): Option<Bytes>
  {
    if cfg.level == SlsaLevel.Off then None else Some(t.c.compact(StatementJson(a, cfg)))
  }

  function SbomBytes(t: Tools, a: BuiltArtifact, cfg: SbomConfig): Option<Bytes>
  {
    var j := SbomJson(t.body, a, cfg);
    if j.Some? then Some(t.c.compact(j.value)) else None
  }

  function SignOutcome(t: Tools, a: BuiltArtifact, cfg: SignConfig): CosignOutcome
  {
    t.invoker(Invocation(a.manifestHex, cfg.kind, cfg.identity))
  }

  /** The bundle that is stored: only of a signature that was recorded. */
  function SignBytes(t: Tools, a: BuiltArtifact, cfg: SignConfig): Option<Bytes>
  {
    if cfg.kind == NoSign then None
    else
      var o := SignOutcome(t, a, cfg);
      if o.SignedAndRecorded? then Some(o.bundle) else None
  }

  /** Every blob the enabled pillars store. */
  function StoredBlobs(t: Tools, a: BuiltArtifact, cfg: AttestationConfig): seq<Bytes>
  {
    Just(SlsaBytes(t, a, cfg.slsa)) + Just(SbomBytes(t, a, cfg.sbom)) + Just(SignBytes(t, a, cfg.sign))
  }

  function Just(x: Option<Bytes>): seq<Bytes> { if x.Some? then [x.value] else [] }

  /** The signature that is reported: of a bundle that was recorded. */
  function SignatureOf(t: Tools, a: BuiltArtifact, cfg: SignConfig): Option<Signature>
  {
    var sign := SignBytes(t, a, cfg);
    if sign.None? then None
    else
      Some(Signature(
        EvidenceOf(t.c, sign.value, COSIGN_SIG),
        SignOutcome(t, a, cfg).logIndex,
        if cfg.identity.Some? then cfg.identity.value else "<unspecified>"))
  }

  function Described(t: Tools, data: Option<Bytes>, mediaType: string): Option<Evidence>
  {
    if data.Some? then Some(EvidenceOf(t.c, data.value, mediaType)) else None
  }

  function OutputsOf(t: Tools, a: BuiltArtifact, cfg: AttestationConfig): Outputs
  {
    Outputs(
      Described(t, SlsaBytes(t, a, cfg.slsa), IN_TOTO),
      Described(t, SbomBytes(t, a, cfg.sbom), SbomType(cfg.sbom.format)),
      SignatureOf(t, a, cfg.sign))
  }

  /** The data behind the digests of this run has no two preimages in play. */
  ghost predicate Known(c: Codec, b: Base, data: Bytes) { b.store.Some? ==> data == b.store.value(c.hash(data)) }

  function CasTmp(hex: string): string { ".cas-" + hex }

  method CasPut(t: Tools, fs: Fs, data: Bytes, mediaType: string, ghost b: Base)
    returns (r: Result<Evidence, AttestError>)
    requires Safe(t.c, b, fs) && t.c.Lawful() && Known(t.c, b, data)
    modifies fs
    ensures Safe(t.c, b, fs) && Onward(old(fs.files), fs.files) && Gains(t.c, old(fs.files), fs.files, data)
    ensures r.Ok? ==> r.value == EvidenceOf(t.c, data, mediaType) && Has(t.c, fs.files, data)
    ensures r.Err? ==> r.error == Cas
    ensures fs.Reliable() ==> r.Ok?
  {
    assert forall h :: CasTmp(h)[0] == '.';
    var ok := PutBlob(t.c, fs, CasTmp, data, b);
    r := if ok then Ok(EvidenceOf(t.c, data, mediaType)) else Err(Cas);
  }

  method EmitSlsa(t: Tools, fs: Fs, a: BuiltArtifact, cfg: SlsaConfig, ghost b: Base)
    returns (r: Result<Option<Evidence>, AttestError>)
    requires Safe(t.c, b, fs) && t.c.Lawful() && forall x <- Just(SlsaBytes(t, a, cfg)) :: Known(t.c, b, x)
    modifies fs
    ensures Safe(t.c, b, fs) && Onward(old(fs.files), fs.files)
    ensures r.Ok? ==>
      var bytes := SlsaBytes(t, a, cfg);
      r.value == Described(t, bytes, IN_TOTO) && forall x <- Just(bytes) :: Has(t.c, fs.files, x)
    ensures r.Err? ==> r.error == Cas
    ensures fs.Reliable() ==> r.Ok?
  {
    if cfg.level == SlsaLevel.Off { return Ok(None); }
    var j := BuildStatementValue(a, cfg);
    var e :- CasPut(t, fs, t.c.compact(j), IN_TOTO, b);
    r := Ok(Some(e));
  }

  method EmitSbom(t: Tools, fs: Fs, a: BuiltArtifact, cfg: SbomConfig, ghost b: Base)
    returns (r: Result<Option<Evidence>, AttestError>)
    requires Safe(t.c, b, fs) && t.c.Lawful() && forall x <- Just(SbomBytes(t, a, cfg)) :: Known(t.c, b, x)
    modifies fs
    ensures Safe(t.c, b, fs) && Onward(old(fs.files), fs.files)
    ensures r.Ok? ==>
      var bytes := SbomBytes(t, a, cfg);
      r.value == Described(t, bytes, SbomType(cfg.format)) && forall x <- Just(bytes) :: Has(t.c, fs.files, x)
    ensures r.Err? ==> r.error == Cas
    ensures fs.Reliable() ==> r.Ok?
  {
    var j := SbomJson(t.body, a, cfg);
    if j.None? { return Ok(None); }
    var e :- CasPut(t, fs, t.c.compact(j.value), SbomType(cfg.format), b);
    r := Ok(Some(e));
  }

  /**
   * What comes of the signer's answer to a request to sign the manifest, under the kind and
   * the identity of the settings: only a bundle that was recorded is an output, under its log
   * index; any other answer is its own error.
   */
  ghost predicate Signed(t: Tools, a: BuiltArtifact, cfg: SignConfig, f: Files,
      r: Result<Option<Signature>, AttestError>)
  {
    cfg.kind != NoSign ==>
      match t.invoker(Invocation(a.manifestHex, cfg.kind, cfg.identity))
      case SignedAndRecorded(bundle, n) =>
        && (r.Ok? ==>
              && r.value.Some? && r.value.value.rekorLogIndex == n && Has(t.c, f, bundle)
              && r.value.value.evidence == Evidence(t.c.DigestOf(bundle), |bundle|, COSIGN_SIG)
              && r.value.value.identity == if cfg.identity.Some? then cfg.identity.value else "<unspecified>")
        && (r.Err? ==> r.error == Cas)
      case SignedNotRecorded(reason) => r == Err(NotRecorded(reason))
      case SignFailed(stderr) => r == Err(Unsigned(stderr))
      case CosignNotInstalled => r == Err(NoCosign)
  }

  /** `sign_with`: a signature without a Rekor entry is an error, never an output. */
  method SignWith(t: Tools, fs: Fs, a: BuiltArtifact, cfg: SignConfig, ghost b: Base)
    returns (r: Result<Option<Signature>, AttestError>)
    requires Safe(t.c, b, fs) && t.c.Lawful() && forall x <- Just(SignBytes(t, a, cfg)) :: Known(t.c, b, x)
    modifies fs
    ensures Safe(t.c, b, fs) && Onward(old(fs.files), fs.files)
    ensures r.Ok? ==>
      && (cfg.kind == NoSign || SignOutcome(t, a, cfg).SignedAndRecorded?)
      && r.value == SignatureOf(t, a, cfg)
      && forall x <- Just(SignBytes(t, a, cfg)) :: Has(t.c, fs.files, x)
    ensures fs.Reliable() && (cfg.kind == NoSign || SignOutcome(t, a, cfg).SignedAndRecorded?) ==> r.Ok?
    ensures (cfg.kind == NoSign ==> r == Ok(None)) && Signed(t, a, cfg, fs.files, r)
  {
    if cfg.kind == NoSign { return Ok(None); }
    match t.invoker(Invocation(a.manifestHex, cfg.kind, cfg.identity)) {
      case SignedAndRecorded(bundle, logIndex) =>
        var e :- CasPut(t, fs, bundle, COSIGN_SIG, b);
        r := Ok(Some(Signature(e, logIndex, if cfg.identity.Some? then cfg.identity.value else "<unspecified>")));
      case SignedNotRecorded(reason) => r := Err(NotRecorded(reason));
      case SignFailed(stderr) => r := Err(Unsigned(stderr));
      case CosignNotInstalled => r := Err(NoCosign);
    }
  }

  /**
   * `attest_with_invoker`. It succeeds, without file faults, exactly when signing is off or
   * was recorded; a success has stored the blob of every enabled pillar and of no other.
   */
  method AttestWithInvoker(t: Tools, fs: Fs, a: BuiltArtifact, cfg: AttestationConfig, ghost b: Base)
    returns (r: Result<Outputs, AttestError>)
    requires Safe(t.c, b, fs) && t.c.Lawful() && forall x <- StoredBlobs(t, a, cfg) :: Known(t.c, b, x)
    modifies fs
    ensures Safe(t.c, b, fs) && Onward(old(fs.files), fs.files)
    ensures r.Ok? ==>
      && r.value == OutputsOf(t, a, cfg) && (cfg.sign.kind == NoSign || SignOutcome(t, a, cfg.sign).SignedAndRecorded?)
      && forall x <- StoredBlobs(t, a, cfg) :: Has(t.c, fs.files, x)
    ensures fs.Reliable() ==> (r.Ok? <==> cfg.sign.kind == NoSign || SignOutcome(t, a, cfg.sign).SignedAndRecorded?)
  {
    StoredParts(t, a, cfg);
    ghost var x, y := Just(SlsaBytes(t, a, cfg.slsa)), Just(SbomBytes(t, a, cfg.sbom));
    var slsa :- EmitSlsa(t, fs, a, cfg.slsa, b);
    ghost var f1 := fs.files;
    var sbom :- EmitSbom(t, fs, a, cfg.sbom, b);
    ghost var f2 := fs.files;
    HasKept(t.c, f1, f2, x);
    var signature :- SignWith(t, fs, a, cfg.sign, b);
    HasKept(t.c, f2, fs.files, x + y);
    r := Ok(Outputs(slsa, sbom, signature));
  }

  /** Every stored blob belongs to a pillar. */
  lemma StoredParts(t: Tools, a: BuiltArtifact, cfg: AttestationConfig)
    ensures forall x {:trigger x in StoredBlobs(t, a, cfg)} :: x in StoredBlobs(t, a, cfg) <==>
      || x in Just(SlsaBytes(t, a, cfg.slsa))
      || x in Just(SbomBytes(t, a, cfg.sbom))
      || x in Just(SignBytes(t, a, cfg.sign))
  {
  }

  /** A stored blob stays. */
  lemma HasKept(c: Codec, f: Files, f': Files, xs: seq<Bytes>)
    requires c.Lawful() && Onward(f, f') && forall x <- xs :: Has(c, f, x)
    ensures forall x <- xs :: Has(c, f', x)
  {
    forall x | x in xs ensures Has(c, f', x) { assert Has(c, f, x) && IsHex64(c.hash(x)); }
  }
}
