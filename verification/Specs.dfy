/** The typed artifact spec: what `validate` produces and everything downstream consumes. */
module Specs {
  import opened Wrappers
  import opened Text
  import opened Json

  datatype SpecVersion = V0 {
    function AsStr(): string { "0" }
  }

  datatype ArtifactId = ArtifactId(name: string, tag: string) {
    function Form(): string { name + [':'] + tag }
  }

  datatype Kind = OciArtifact | VmImage | RawImage {
    function AsStr(): string
    {
      match this
      case OciArtifact => "oci_artifact"
      case VmImage => "vm_image"
      case RawImage => "raw_image"
    }
  }

  function ParseKind(s: string): (r: Option<Kind>)
    ensures forall k: Kind :: r == Some(k) <==> s == k.AsStr()
  {
    if s == "oci_artifact" then Some(OciArtifact)
    else if s == "vm_image" then Some(VmImage)
    else if s == "raw_image" then Some(RawImage)
    else None
  }

  datatype Platform = Platform(os: Option<string>, arch: Option<string>)

  datatype Compression = NoCompression | Gzip | Zstd {
    function AsStr(): string
    {
      match this
      case NoCompression => "none"
      case Gzip => "gzip"
      case Zstd => "zstd"
    }
  }

  function ParseCompression(s: string): (r: Option<Compression>)
    ensures forall k: Compression :: r == Some(k) <==> s == k.AsStr()
  {
    if s == "none" then Some(NoCompression)
    else if s == "gzip" then Some(Gzip) else if s == "zstd" then Some(Zstd) else None
  }

  datatype LayerFile = LayerFile(source: string, dest: string, mode: nat)

  datatype LayerSource = Blob(path: string) | Files(entries: seq<LayerFile>)

  datatype Layer = Layer(source: LayerSource, mediaType: string, compression: Compression)

  /** `MediaType::parse`: two non-empty restricted names around the first '/'. */
  predicate IsMediaType(s: string)
  {
    var split := SplitOnce(s, '/');
    split.Some? && split.value.0 != "" && split.value.1 != "" && Restricted(split.value.0) && Restricted(split.value.1)
  }

  predicate Restricted(s: string)
  {
    forall i :: 0 <= i < |s| ==> IsAlnum(s[i]) || s[i] == '.' || s[i] == '+' || s[i] == '-' || s[i] == '_'
  }

  // ── attestation settings ──

  datatype SlsaLevel = Off | L1 | L2 | L3 | L4 {
    function AsInt(): int
    {
      match this
      case Off => 0
      case L1 => 1
      case L2 => 2
      case L3 => 3
      case L4 => 4
    }
  }

  function LevelFromInt(n: int): (r: Option<SlsaLevel>)
    ensures forall l: SlsaLevel :: r == Some(l) <==> n == l.AsInt()
  {
    if n == 0 then Some(SlsaLevel.Off) else if n == 1 then Some(L1) else if n == 2 then Some(L2)
    else if n == 3 then Some(L3) else if n == 4 then Some(L4) else None
  }

  datatype SlsaConfig = SlsaConfig(level: SlsaLevel, builderId: Option<string>)

  datatype SbomFormat = CycloneDx | Spdx | NoSbom {
    function AsStr(): string
    {
      match this
      case CycloneDx => "cyclonedx"
      case Spdx => "spdx"
      case NoSbom => "off"
    }
  }

  function ParseSbomFormat(s: string): (r: Option<SbomFormat>)
    ensures forall k: SbomFormat :: r == Some(k) <==> s == k.AsStr()
  {
    if s == "cyclonedx" then Some(CycloneDx)
    else if s == "spdx" then Some(Spdx) else if s == "off" then Some(NoSbom) else None
  }

  datatype SbomScope = OfLayers | OfSources | OfBoth {
    function AsStr(): string
    {
      match this
      case OfLayers => "layers"
      case OfSources => "sources"
      case OfBoth => "both"
    }
  }

  function ParseSbomScope(s: string): (r: Option<SbomScope>)
    ensures forall k: SbomScope :: r == Some(k) <==> s == k.AsStr()
  {
    if s == "layers" then Some(OfLayers)
    else if s == "sources" then Some(OfSources) else if s == "both" then Some(OfBoth) else None
  }

  datatype SbomConfig = SbomConfig(format: SbomFormat, scope: SbomScope)

  datatype SignKind = CosignKeyless | CosignKey | NoSign {
    function AsStr(): string
    {
      match this
      case CosignKeyless => "cosign-keyless"
      case CosignKey => "cosign-key"
      case NoSign => "off"
    }
  }

  function ParseSignKind(s: string): (r: Option<SignKind>)
    ensures forall k: SignKind :: r == Some(k) <==> s == k.AsStr()
  {
    if s == "cosign-keyless" then Some(CosignKeyless)
    else if s == "cosign-key" then Some(CosignKey) else if s == "off" then Some(NoSign) else None
  }

  datatype SignConfig = SignConfig(kind: SignKind, identity: Option<string>)

  datatype AttestationConfig = AttestationConfig(slsa: SlsaConfig, sbom: SbomConfig, sign: SignConfig)

  const DEFAULT_SLSA := SlsaConfig(L2, None)
  const DEFAULT_SBOM := SbomConfig(CycloneDx, OfLayers)
  const DEFAULT_SIGN := SignConfig(CosignKeyless, None)

  const DEFAULT_ATTESTATION := AttestationConfig(DEFAULT_SLSA, DEFAULT_SBOM, DEFAULT_SIGN)

  datatype Spec = Spec(
    version: SpecVersion,
    id: ArtifactId,
    kind: Kind,
    description: Option<string>,
    platform: Platform,
    layers: seq<Layer>,
    config: Json,
    annotations: map<string, string>,
    attestation: AttestationConfig)
}
