/** Raw specs as serde reads them from TOML, and the checks that turn one into a `Spec`. */
module Validate {
  import opened Wrappers
  import opened Text
  import opened Json
  import opened Toml
  import opened Specs

  // ── raw specs ──

  datatype RawLayer = RawLayer(source: Option<string>, mediaType: string, compression: Option<string>,
    files: Option<seq<LayerFile>>)

  datatype RawSlsa = RawSlsa(level: Option<int>, builderId: Option<string>)
  datatype RawSbom = RawSbom(format: Option<string>, scope: Option<string>)
  datatype RawSign = RawSign(kind: Option<string>, identity: Option<string>)
  datatype RawAttestation = RawAttestation(slsa: Option<RawSlsa>, sbom: Option<RawSbom>, sign: Option<RawSign>)

  datatype RawSpec = RawSpec(
    version: string,
    id: string,
    kind: string,
    description: Option<string>,
    platform: Option<Platform>,
    layers: seq<RawLayer>,
    config: Option<Toml>,
    annotations: Option<map<string, string>>,
    attestation: Option<RawAttestation>)

  // ── deserialisation ──

  function At(t: map<string, Toml>, k: string): Option<Toml> { if k in t then Some(t[k]) else None }

  function Str(v: Toml): Option<string> { if v.TStr? then Some(v.s) else None }

  /** A required field. */
  function Req<A>(v: Option<Toml>, read: Toml -> Option<A>): Option<A> { if v.Some? then read(v.value) else None }

  /** An `Option` field: absent reads as `None`, anything malformed refuses the whole. */
  function Opt<A>(v: Option<Toml>, read: Toml -> Option<A>): Option<Option<A>>
  {
    if v.None? then Some(None)
    else
      var a := read(v.value);
      if a.Some? then Some(Some(a.value)) else None
  }

  /** A list whose every element must read. */
  function All<A>(a: seq<Toml>, read: Toml -> Option<A>): (r: Option<seq<A>>)
    ensures r.Some? ==> |r.value| == |a| && forall i :: 0 <= i < |a| ==> read(a[i]) == Some(r.value[i])
    ensures r.None? ==> exists i :: 0 <= i < |a| && read(a[i]).None?
  {
    if a == [] then Some([])
    else
      var x := read(a[0]);
      var rest := All(a[1..], read);
      if x.Some? && rest.Some? then Some([x.value] + rest.value) else None
  }

  function List<A>(v: Toml, read: Toml -> Option<A>): Option<seq<A>>
  {
    if v.TArr? then All(v.a, read) else None
  }

  /** `deny_unknown_fields`. */
  predicate Only(v: Toml, keys: set<string>) { v.TTable? && v.t.Keys <= keys }

  function ReadInt(v: Toml): Option<int> { if v.TInt? then Some(v.n) else None }

  function ReadU32(v: Toml): Option<nat> { if v.TInt? && 0 <= v.n < 0x1_0000_0000 then Some(v.n) else None }

  function ReadStrings(v: Toml): Option<map<string, string>>
  {
    if v.TTable? && forall k :: k in v.t ==> v.t[k].TStr? then Some(map k | k in v.t && v.t[k].TStr? :: v.t[k].s)
    else None
  }

  function ReadPlatform(v: Toml): Option<Platform>
  {
    if !Only(v, {"os", "arch"}) then None
    else
      var os := Opt(At(v.t, "os"), Str);
      var arch := Opt(At(v.t, "arch"), Str);
      if os.Some? && arch.Some? then Some(Platform(os.value, arch.value)) else None
  }

  function ReadFile(v: Toml): Option<LayerFile>
  {
    if !Only(v, {"source", "dest", "mode"}) then None
    else
      var source := Req(At(v.t, "source"), Str);
      var dest := Req(At(v.t, "dest"), Str);
      var mode := Req(At(v.t, "mode"), ReadU32);
      if source.Some? && dest.Some? && mode.Some? then Some(LayerFile(source.value, dest.value, mode.value)) else None
  }

  function ReadFiles(v: Toml): Option<seq<LayerFile>> { List(v, ReadFile) }

  function ReadLayer(v: Toml): Option<RawLayer>
  {
    if !Only(v, {"source", "media_type", "compression", "files"}) then None
    else
      var source := Opt(At(v.t, "source"), Str);
      var mt := Req(At(v.t, "media_type"), Str);
      var compression := Opt(At(v.t, "compression"), Str);
      var files := Opt(At(v.t, "files"), ReadFiles);
      if source.Some? && mt.Some? && compression.Some? && files.Some? then
        Some(RawLayer(source.value, mt.value, compression.value, files.value))
      else None
  }

  function ReadLayers(v: Toml): Option<seq<RawLayer>> { List(v, ReadLayer) }

  function ReadSlsa(v: Toml): Option<RawSlsa>
  {
    if !Only(v, {"level", "builder_id"}) then None
    else
      var level := Opt(At(v.t, "level"), ReadInt);
      var builder := Opt(At(v.t, "builder_id"), Str);
      if level.Some? && builder.Some? then Some(RawSlsa(level.value, builder.value)) else None
  }

  function ReadSbom(v: Toml): Option<RawSbom>
  {
    if !Only(v, {"format", "scope"}) then None
    else
      var format := Opt(At(v.t, "format"), Str);
      var scope := Opt(At(v.t, "scope"), Str);
      if format.Some? && scope.Some? then Some(RawSbom(format.value, scope.value)) else None
  }

  function ReadSign(v: Toml): Option<RawSign>
  {
    if !Only(v, {"kind", "identity"}) then None
    else
      var kind := Opt(At(v.t, "kind"), Str);
      var identity := Opt(At(v.t, "identity"), Str);
      if kind.Some? && identity.Some? then Some(RawSign(kind.value, identity.value)) else None
  }

  function ReadAttestation(v: Toml): Option<RawAttestation>
  {
    if !Only(v, {"slsa", "sbom", "sign"}) then None
    else
      var slsa := Opt(At(v.t, "slsa"), ReadSlsa);
      var sbom := Opt(At(v.t, "sbom"), ReadSbom);
      var sign := Opt(At(v.t, "sign"), ReadSign);
      if slsa.Some? && sbom.Some? && sign.Some? then Some(RawAttestation(slsa.value, sbom.value, sign.value)) else None
  }

  const SPEC_KEYS :=
    {"spec_version", "id", "kind", "description", "platform", "layers", "config", "annotations", "attestation"}

  /** `toml::from_str::<RawSpec>` on a parsed tree. */
  function ReadSpec(v: Toml): Option<RawSpec>
  {
    if !Only(v, SPEC_KEYS) then None
    else
      var version := Req(At(v.t, "spec_version"), Str);
      var id := Req(At(v.t, "id"), Str);
      var kind := Req(At(v.t, "kind"), Str);
      var description := Opt(At(v.t, "description"), Str);
      var platform := Opt(At(v.t, "platform"), ReadPlatform);
      var layers := Req(At(v.t, "layers"), ReadLayers);
      var annotations := Opt(At(v.t, "annotations"), ReadStrings);
      var attestation := Opt(At(v.t, "attestation"), ReadAttestation);
      if version.Some? && id.Some? && kind.Some? && description.Some? && platform.Some? && layers.Some?
        && annotations.Some? && attestation.Some? then
        Some(RawSpec(version.value, id.value, kind.value, description.value, platform.value, layers.value,
          At(v.t, "config"), annotations.value, attestation.value))
      else None
  }

  // ── validation ──

  datatype SpecError =
    | UnsupportedSpecVersion(got: string)
    | MalformedId(got: string)
    | UnknownKind(got: string)
    | WrongLayerCount(kind: Kind, actual: nat)
    | LayerSourceConflict(position: nat)
    | UnreadableSource(position: nat, path: string)
    | EmptyFilesBlock(position: nat)
    | MalformedMediaType(position: nat, got: string)
    | UnknownCompression(position: nat, got: string)
    | WrongLayerOrder(position: nat, got: string)
    | InvalidReservedAnnotation(key: string)
    | SlsaLevelOutOfRange(level: int)
    | UnknownSbomFormat(got: string)
    | UnknownSbomScope(got: string)
    | UnknownSignKind(got: string)
    | MissingSigningKeyPath

  /** What the file system says about a path resolved against the spec directory. */
  datatype Found = Nothing | RegularFile | SomethingElse

  type Oracle = string -> Found

  predicate NameBody(c: char) { IsLower(c) || IsDigit(c) || c == '.' || c == '_' || c == '-' }

  predicate TagChar(c: char) { IsAlnum(c) || c == '.' || c == '_' || c == '-' }

  predicate ValidId(name: string, tag: string)
  {
    && name != "" && tag != "" && (IsLower(name[0]) || IsDigit(name[0]))
    && (forall i :: 1 <= i < |name| ==> NameBody(name[i])) && forall i :: 0 <= i < |tag| ==> TagChar(tag[i])
  }

  function ParseId(s: string): Result<ArtifactId, SpecError>
  {
    var split := SplitOnce(s, ':');
    if split.None? || !ValidId(split.value.0, split.value.1) then Err(MalformedId(s))
    else Ok(ArtifactId(split.value.0, split.value.1))
  }

  predicate CountAllowed(kind: Kind, n: nat)
  {
    match kind
    case OciArtifact => n >= 1
    case VmImage => n == 3
    case RawImage => n == 1
  }

  function DefaultCompression(mediaType: string): Compression
  {
    if EndsWith(mediaType, "+gzip") then Gzip else if EndsWith(mediaType, "+zstd") then Zstd else NoCompression
  }

  /** The first listed file that does not exist. */
  function FirstMissing(files: seq<LayerFile>, look: Oracle): (r: Option<string>)
    ensures r.None? <==> forall f <- files :: look(f.source) != Nothing
  {
    if files == [] then None
    else if look(files[0].source) == Nothing then Some(files[0].source)
    else FirstMissing(files[1..], look)
  }

  function ValidateSource(position: nat, raw: RawLayer, look: Oracle): Result<LayerSource, SpecError>
  {
    match (raw.source, raw.files)
    case (Some(path), None) =>
      if look(path) == RegularFile then Ok(Blob(path)) else Err(UnreadableSource(position, path))
    case (None, Some(files)) =>
      if files == [] then Err(EmptyFilesBlock(position))
      else
        var missing := FirstMissing(files, look);
        if missing.Some? then Err(UnreadableSource(position, missing.value)) else Ok(Files(files))
    case _ => Err(LayerSourceConflict(position))
  }

  function ValidateLayer(position: nat, raw: RawLayer, look: Oracle): Result<Layer, SpecError>
  {
    var source :- ValidateSource(position, raw, look);
    if !IsMediaType(raw.mediaType) then Err(MalformedMediaType(position, raw.mediaType))
    else if raw.compression.None? then Ok(Layer(source, raw.mediaType, DefaultCompression(raw.mediaType)))
    else
      var compression := ParseCompression(raw.compression.value);
      if compression.None? then Err(UnknownCompression(position, raw.compression.value))
      else Ok(Layer(source, raw.mediaType, compression.value))
  }

  /** `collect::<Result<Vec<_>, _>>`: every element in order, or the first defect. */
  function Collect<A, B>(raws: seq<A>, check: (nat, A) -> Result<B, SpecError>): (r: Result<seq<B>, SpecError>)
    ensures r.Ok? ==> |r.value| == |raws| && forall i :: 0 <= i < |raws| ==> check(i, raws[i]) == Ok(r.value[i])
    ensures r.Err? ==> exists i :: 0 <= i < |raws| && check(i, raws[i]) == Err(r.error)
  {
    if raws == [] then Ok([])
    else
      var n := |raws| - 1;
      var rest :- Collect(raws[..n], check);
      var last :- check(n, raws[n]);
      Ok(rest + [last])
  }

  type LayerCheck = (nat, RawLayer) -> Result<Layer, SpecError>

  function Checks(look: Oracle): LayerCheck { (i: nat, l: RawLayer) => ValidateLayer(i, l, look) }

  const VM_MARKERS := ["kernel", "initrd", "rootfs"]

  /** Every layer of a VM image carries the marker of its position. */
  predicate InOrder(kind: Kind, layers: seq<Layer>)
  {
    kind == VmImage ==> forall i :: 0 <= i < 3 && i < |layers| ==> Contains(layers[i].mediaType, VM_MARKERS[i])
  }

  /** Kernel, initrd and rootfs, in this order. */
  function CheckLayerOrder(kind: Kind, layers: seq<Layer>): (r: Result<(), SpecError>)
    requires CountAllowed(kind, |layers|)
    ensures r.Ok? <==> InOrder(kind, layers)
  {
    if kind != VmImage then Ok(())
    else if !Contains(layers[0].mediaType, "kernel") then Err(WrongLayerOrder(0, layers[0].mediaType))
    else if !Contains(layers[1].mediaType, "initrd") then Err(WrongLayerOrder(1, layers[1].mediaType))
    else if !Contains(layers[2].mediaType, "rootfs") then Err(WrongLayerOrder(2, layers[2].mediaType))
    else Ok(())
  }

  const CREATED := "org.opencontainers.image.created"
  const VERSION := "org.opencontainers.image.version"

  /** The check is a sniff, not a date parser. */
  predicate LooksLikeDate(s: string)
  {
    'T' in s && (EndsWith(s, "Z") || '+' in s || multiset(s)['-'] >= 3)
  }

  predicate Blank(s: string) { forall i :: 0 <= i < |s| ==> IsWhite(s[i]) }

  /** Reserved annotations, where present, have sensible values. */
  predicate AnnotationsOk(a: map<string, string>)
  {
    (CREATED in a ==> LooksLikeDate(a[CREATED])) && (VERSION in a ==> !Blank(a[VERSION]))
  }

  function CheckAnnotations(a: map<string, string>): (r: Result<(), SpecError>)
    ensures r.Ok? <==> AnnotationsOk(a)
  {
    if CREATED in a && !LooksLikeDate(a[CREATED]) then Err(InvalidReservedAnnotation(CREATED))
    else if VERSION in a && Blank(a[VERSION]) then Err(InvalidReservedAnnotation(VERSION))
    else Ok(())
  }

  function ValidateSlsa(raw: Option<RawSlsa>): Result<SlsaConfig, SpecError>
  {
    if raw.None? then Ok(DEFAULT_SLSA)
    else if raw.value.level.None? then Ok(SlsaConfig(DEFAULT_SLSA.level, raw.value.builderId))
    else
      var level := LevelFromInt(raw.value.level.value);
      if level.None? then Err(SlsaLevelOutOfRange(raw.value.level.value))
      else Ok(SlsaConfig(level.value, raw.value.builderId))
  }

  function ValidateSbom(raw: Option<RawSbom>): Result<SbomConfig, SpecError>
  {
    if raw.None? then Ok(DEFAULT_SBOM)
    else
      var format :=
        if raw.value.format.Some? then ParseSbomFormat(raw.value.format.value) else Some(DEFAULT_SBOM.format);
      var scope := if raw.value.scope.Some? then ParseSbomScope(raw.value.scope.value) else Some(DEFAULT_SBOM.scope);
      if format.None? then Err(UnknownSbomFormat(raw.value.format.value))
      else if scope.None? then Err(UnknownSbomScope(raw.value.scope.value))
      else Ok(SbomConfig(format.value, scope.value))
  }

  function ValidateSign(raw: Option<RawSign>): Result<SignConfig, SpecError>
  {
    if raw.None? then Ok(DEFAULT_SIGN)
    else
      var kind := if raw.value.kind.Some? then ParseSignKind(raw.value.kind.value) else Some(DEFAULT_SIGN.kind);
      if kind.None? then Err(UnknownSignKind(raw.value.kind.value))
      else if kind.value == CosignKey && raw.value.identity.None? then Err(MissingSigningKeyPath)
      else Ok(SignConfig(kind.value, raw.value.identity))
  }

  function ValidateAttestation(raw: Option<RawAttestation>): Result<AttestationConfig, SpecError>
  {
    if raw.None? then Ok(DEFAULT_ATTESTATION)
    else
      var slsa :- ValidateSlsa(raw.value.slsa);
      var sbom :- ValidateSbom(raw.value.sbom);
      var sign :- ValidateSign(raw.value.sign);
      Ok(AttestationConfig(slsa, sbom, sign))
  }

  /** The version, the id and the kind. */
  function ValidateHead(version: string, id: string, kind: string): Result<(ArtifactId, Kind), SpecError>
  {
    if version != V0.AsStr() then Err(UnsupportedSpecVersion(version))
    else
      var parsed :- ParseId(id);
      var k := ParseKind(kind);
      if k.None? then Err(UnknownKind(kind)) else Ok((parsed, k.value))
  }

  /** The number of layers, each layer, and their order. */
  function ValidateLayers(kind: Kind, raws: seq<RawLayer>, look: Oracle): Result<seq<Layer>, SpecError>
  {
    if !CountAllowed(kind, |raws|) then Err(WrongLayerCount(kind, |raws|))
    else
      var layers :- Collect(raws, Checks(look));
      var _ :- CheckLayerOrder(kind, layers);
      Ok(layers)
  }

  function ValidateAnnotations(raw: Option<map<string, string>>): Result<map<string, string>, SpecError>
  {
    var annotations := if raw.Some? then raw.value else map[];
    var _ :- CheckAnnotations(annotations);
    Ok(annotations)
  }

  function ConfigOf(raw: Option<Toml>): Json { if raw.Some? then ToJson(raw.value) else JObj(map[]) }

  /** `validate`. */
  function ValidateSpec(raw: RawSpec, look: Oracle): Result<Spec, SpecError>
  {
    var head :- ValidateHead(raw.version, raw.id, raw.kind);
    var platform := if raw.platform.Some? then raw.platform.value else Platform(None, None);
    var layers :- ValidateLayers(head.1, raw.layers, look);
    var annotations :- ValidateAnnotations(raw.annotations);
    var attestation :- ValidateAttestation(raw.attestation);
    Ok(Spec(V0, head.0, head.1, raw.description, platform, layers, ConfigOf(raw.config), annotations, attestation))
  }
}
