/**
 * The rules of the spec format written out on the raw spec, and the proof that `validate`
 * accepts by them, produces what they say, and reports a rule that is broken.
 */
module SpecRules {
  import opened Wrappers
  import opened Text
  import opened Json
  import opened Toml
  import opened Specs
  import opened Validate

  // ── the tables of a spec file ──

  /** A table without any but these keys. */
  predicate TableOf(v: Toml, keys: set<string>) { v.TTable? && forall k <- v.t :: k in keys }

  /** A string that may be absent, and nothing else. */
  predicate MayBeText(t: map<string, Toml>, k: string, s: Option<string>)
  {
    if s.Some? then k in t && t[k] == TStr(s.value) else k !in t
  }

  predicate IsText(t: map<string, Toml>, k: string, s: string) { k in t && t[k] == TStr(s) }

  predicate FileWritten(v: Toml, f: LayerFile)
  {
    && TableOf(v, {"source", "dest", "mode"}) && IsText(v.t, "source", f.source) && IsText(v.t, "dest", f.dest)
    && "mode" in v.t && v.t["mode"] == TInt(f.mode) && f.mode < 0x1_0000_0000
  }

  ghost predicate FilesWritten(t: map<string, Toml>, fs: Option<seq<LayerFile>>)
  {
    if fs.None? then "files" !in t
    else
      && "files" in t && t["files"].TArr? && |t["files"].a| == |fs.value|
      && forall i :: 0 <= i < |fs.value| ==> FileWritten(t["files"].a[i], fs.value[i])
  }

  ghost predicate LayerWritten(v: Toml, l: RawLayer)
  {
    && TableOf(v, {"source", "media_type", "compression", "files"}) && MayBeText(v.t, "source", l.source)
    && IsText(v.t, "media_type", l.mediaType) && MayBeText(v.t, "compression", l.compression)
    && FilesWritten(v.t, l.files)
  }

  predicate SlsaWritten(v: Toml, s: RawSlsa)
  {
    && TableOf(v, {"level", "builder_id"}) && MayBeText(v.t, "builder_id", s.builderId)
    && if s.level.Some? then "level" in v.t && v.t["level"] == TInt(s.level.value) else "level" !in v.t
  }

  predicate SbomWritten(v: Toml, s: RawSbom)
  {
    TableOf(v, {"format", "scope"}) && MayBeText(v.t, "format", s.format) && MayBeText(v.t, "scope", s.scope)
  }

  predicate SignWritten(v: Toml, s: RawSign)
  {
    TableOf(v, {"kind", "identity"}) && MayBeText(v.t, "kind", s.kind) && MayBeText(v.t, "identity", s.identity)
  }

  predicate AttestationWritten(v: Toml, a: RawAttestation)
  {
    && TableOf(v, {"slsa", "sbom", "sign"})
    && (if a.slsa.Some? then "slsa" in v.t && SlsaWritten(v.t["slsa"], a.slsa.value) else "slsa" !in v.t)
    && (if a.sbom.Some? then "sbom" in v.t && SbomWritten(v.t["sbom"], a.sbom.value) else "sbom" !in v.t)
    && (if a.sign.Some? then "sign" in v.t && SignWritten(v.t["sign"], a.sign.value) else "sign" !in v.t)
  }

  predicate PlatformWritten(v: Toml, p: Platform)
  {
    TableOf(v, {"os", "arch"}) && MayBeText(v.t, "os", p.os) && MayBeText(v.t, "arch", p.arch)
  }

  ghost predicate LayersWritten(v: Toml, ls: seq<RawLayer>)
  {
    v.TArr? && |v.a| == |ls| && forall i :: 0 <= i < |ls| ==> LayerWritten(v.a[i], ls[i])
  }

  predicate AnnotationsWritten(v: Toml, a: map<string, string>)
  {
    v.TTable? && v.t.Keys == a.Keys && forall k <- a :: v.t[k] == TStr(a[k])
  }

  /** The spec file says exactly this; a key the format does not know refuses it. */
  ghost predicate Written(v: Toml, raw: RawSpec)
  {
    && TableOf(v,
         {"spec_version", "id", "kind", "description", "platform", "layers", "config", "annotations", "attestation"})
    && IsText(v.t, "spec_version", raw.version) && IsText(v.t, "id", raw.id) && IsText(v.t, "kind", raw.kind)
    && MayBeText(v.t, "description", raw.description)
    && (if raw.platform.Some? then "platform" in v.t && PlatformWritten(v.t["platform"], raw.platform.value)
        else "platform" !in v.t)
    && "layers" in v.t && LayersWritten(v.t["layers"], raw.layers)
    && raw.config == (if "config" in v.t then Some(v.t["config"]) else None)
    && (if raw.annotations.Some? then
          "annotations" in v.t && AnnotationsWritten(v.t["annotations"], raw.annotations.value)
        else "annotations" !in v.t)
    && (if raw.attestation.Some? then
          "attestation" in v.t && AttestationWritten(v.t["attestation"], raw.attestation.value)
        else "attestation" !in v.t)
  }

  lemma OnlyKeys(v: Toml, keys: set<string>)
    ensures TableOf(v, keys) <==> Only(v, keys)
  {
  }

  lemma TextRead(t: map<string, Toml>, k: string)
    ensures forall s :: MayBeText(t, k, s) <==> Opt(At(t, k), Str) == Some(s)
    ensures forall s :: IsText(t, k, s) <==> Req(At(t, k), Str) == Some(s)
  {
  }

  lemma FileRead(v: Toml, f: LayerFile)
    ensures ReadFile(v) == Some(f) <==> FileWritten(v, f)
  {
    OnlyKeys(v, {"source", "dest", "mode"});
    if v.TTable? {
      TextRead(v.t, "source");
      TextRead(v.t, "dest");
    }
  }

  lemma AllExactly<A>(vs: seq<Toml>, read: Toml -> Option<A>, xs: seq<A>)
    ensures All(vs, read) == Some(xs) <==> |xs| == |vs| && forall i :: 0 <= i < |vs| ==> read(vs[i]) == Some(xs[i])
  {
    if |xs| == |vs| && forall i :: 0 <= i < |vs| ==> read(vs[i]) == Some(xs[i]) {
      assert All(vs, read).Some? && All(vs, read).value == xs;
    }
  }

  lemma FilesRead(t: map<string, Toml>, fs: Option<seq<LayerFile>>)
    ensures Opt(At(t, "files"), ReadFiles) == Some(fs) <==> FilesWritten(t, fs)
  {
    if fs.Some? && "files" in t && t["files"].TArr? {
      AllExactly(t["files"].a, ReadFile, fs.value);
      forall x, f ensures ReadFile(x) == Some(f) <==> FileWritten(x, f) { FileRead(x, f); }
    }
  }

  lemma LayerRead(v: Toml, l: RawLayer)
    ensures ReadLayer(v) == Some(l) <==> LayerWritten(v, l)
  {
    OnlyKeys(v, {"source", "media_type", "compression", "files"});
    if v.TTable? {
      TextRead(v.t, "source");
      TextRead(v.t, "media_type");
      TextRead(v.t, "compression");
      FilesRead(v.t, l.files);
    }
  }

  lemma LayersRead(v: Toml, ls: seq<RawLayer>)
    ensures ReadLayers(v) == Some(ls) <==> LayersWritten(v, ls)
  {
    if v.TArr? {
      AllExactly(v.a, ReadLayer, ls);
      forall x, l ensures ReadLayer(x) == Some(l) <==> LayerWritten(x, l) { LayerRead(x, l); }
    }
  }

  lemma PlatformRead(v: Toml, p: Platform)
    ensures ReadPlatform(v) == Some(p) <==> PlatformWritten(v, p)
  {
    OnlyKeys(v, {"os", "arch"});
    if v.TTable? {
      TextRead(v.t, "os");
      TextRead(v.t, "arch");
    }
  }

  lemma AnnotationsRead(v: Toml, a: map<string, string>)
    ensures ReadStrings(v) == Some(a) <==> AnnotationsWritten(v, a)
  {
    if AnnotationsWritten(v, a) { assert ReadStrings(v).Some? && ReadStrings(v).value == a; }
  }

  lemma SlsaRead(v: Toml, s: RawSlsa)
    ensures ReadSlsa(v) == Some(s) <==> SlsaWritten(v, s)
  {
    OnlyKeys(v, {"level", "builder_id"});
    if v.TTable? { TextRead(v.t, "builder_id"); }
  }

  lemma SbomRead(v: Toml, s: RawSbom)
    ensures ReadSbom(v) == Some(s) <==> SbomWritten(v, s)
  {
    OnlyKeys(v, {"format", "scope"});
    if v.TTable? {
      TextRead(v.t, "format");
      TextRead(v.t, "scope");
    }
  }

  lemma SignRead(v: Toml, s: RawSign)
    ensures ReadSign(v) == Some(s) <==> SignWritten(v, s)
  {
    OnlyKeys(v, {"kind", "identity"});
    if v.TTable? {
      TextRead(v.t, "kind");
      TextRead(v.t, "identity");
    }
  }

  lemma AttestationRead(v: Toml, a: RawAttestation)
    ensures ReadAttestation(v) == Some(a) <==> AttestationWritten(v, a)
  {
    OnlyKeys(v, {"slsa", "sbom", "sign"});
    forall x, y ensures ReadSlsa(x) == Some(y) <==> SlsaWritten(x, y) { SlsaRead(x, y); }
    forall x, y ensures ReadSbom(x) == Some(y) <==> SbomWritten(x, y) { SbomRead(x, y); }
    forall x, y ensures ReadSign(x) == Some(y) <==> SignWritten(x, y) { SignRead(x, y); }
  }

  /** A spec file is read as a raw spec exactly when it says that and nothing else. */
  lemma SpecFileExactly(v: Toml, raw: RawSpec)
    ensures ReadSpec(v) == Some(raw) <==> Written(v, raw)
  {
    OnlyKeys(v, SPEC_KEYS);
    if v.TTable? {
      TextRead(v.t, "spec_version");
      TextRead(v.t, "id");
      TextRead(v.t, "kind");
      TextRead(v.t, "description");
      NestedRead(v.t, raw);
    }
  }

  lemma NestedRead(t: map<string, Toml>, raw: RawSpec)
    ensures Opt(At(t, "platform"), ReadPlatform) == Some(raw.platform) <==>
      if raw.platform.Some? then "platform" in t && PlatformWritten(t["platform"], raw.platform.value)
      else "platform" !in t
    ensures Req(At(t, "layers"), ReadLayers) == Some(raw.layers) <==>
      "layers" in t && LayersWritten(t["layers"], raw.layers)
    ensures Opt(At(t, "annotations"), ReadStrings) == Some(raw.annotations) <==>
      if raw.annotations.Some? then "annotations" in t && AnnotationsWritten(t["annotations"], raw.annotations.value)
      else "annotations" !in t
    ensures Opt(At(t, "attestation"), ReadAttestation) == Some(raw.attestation) <==>
      if raw.attestation.Some? then "attestation" in t && AttestationWritten(t["attestation"], raw.attestation.value)
      else "attestation" !in t
  {
    if raw.platform.Some? && "platform" in t { PlatformRead(t["platform"], raw.platform.value); }
    if "layers" in t { LayersRead(t["layers"], raw.layers); }
    if raw.annotations.Some? && "annotations" in t { AnnotationsRead(t["annotations"], raw.annotations.value); }
    if raw.attestation.Some? && "attestation" in t { AttestationRead(t["attestation"], raw.attestation.value); }
  }

  // ── text ──

  predicate Lowercase(c: char) { 'a' <= c <= 'z' || '0' <= c <= '9' }

  predicate Alphanumeric(c: char) { 'a' <= c <= 'z' || 'A' <= c <= 'Z' || '0' <= c <= '9' }

  ghost predicate EndsIn(s: string, tail: string) { exists front :: s == front + tail }

  ghost predicate HasPart(s: string, part: string) { exists front, back :: s == front + part + back }

  lemma EndsInExactly(s: string, tail: string)
    ensures EndsIn(s, tail) <==> EndsWith(s, tail)
  {
    if EndsWith(s, tail) { assert s == s[..|s| - |tail|] + tail; }
  }

  lemma HasPartExactly(s: string, part: string)
    ensures HasPart(s, part) <==> Contains(s, part)
  {
    if Contains(s, part) {
      var i: nat :| i <= |s| && OccursAt(s, part, i);
      assert s == s[..i] + part + s[i + |part|..];
    }
    if front, back :| s == front + part + back { assert OccursAt(s, part, |front|); }
  }

  // ── the rules ──

  /** `name:tag`. */
  ghost predicate IdSplits(id: string, name: string, tag: string)
  {
    && id == name + ":" + tag && name != "" && tag != "" && Lowercase(name[0])
    && (forall c <- name :: Lowercase(c) || c == '.' || c == '_' || c == '-')
    && (forall c <- tag :: Alphanumeric(c) || c == '.' || c == '_' || c == '-')
  }

  /** `type/subtype`. */
  ghost predicate MediaTypeOk(s: string)
  {
    exists t, u :: s == t + "/" + u && t != "" && u != "" && forall c <- t + u ::
      Alphanumeric(c) || c == '.' || c == '+' || c == '-' || c == '_'
  }

  /** Either a source that is a regular file, or a list of files that all exist. */
  predicate SourceOk(l: RawLayer, look: Oracle)
  {
    && (l.source.Some? <==> l.files.None?)
    && (l.source.Some? ==> look(l.source.value) == RegularFile)
    && (l.files.Some? ==> l.files.value != [] && forall f <- l.files.value :: look(f.source) != Nothing)
  }

  predicate CompressionOk(l: RawLayer) { l.compression.Some? ==> l.compression.value in {"none", "gzip", "zstd"} }

  ghost predicate LayerOk(l: RawLayer, look: Oracle)
  {
    SourceOk(l, look) && MediaTypeOk(l.mediaType) && CompressionOk(l)
  }

  predicate CountOk(kind: string, n: nat)
  {
    && kind in {"oci_artifact", "vm_image", "raw_image"}
    && (kind == "oci_artifact" ==> n >= 1) && (kind == "vm_image" ==> n == 3) && (kind == "raw_image" ==> n == 1)
  }

  /** The layers of a VM image are kernel, initrd and rootfs. */
  ghost predicate OrderOk(kind: string, layers: seq<RawLayer>)
  {
    kind == "vm_image" && |layers| == 3 ==>
      && HasPart(layers[0].mediaType, "kernel") && HasPart(layers[1].mediaType, "initrd")
      && HasPart(layers[2].mediaType, "rootfs")
  }

  predicate DateOk(s: string)
  {
    'T' in s && ((s != "" && s[|s| - 1] == 'Z') || '+' in s
      || exists i, j, k :: 0 <= i < j < k < |s| && s[i] == s[j] == s[k] == '-')
  }

  predicate CreatedOk(a: map<string, string>)
  {
    "org.opencontainers.image.created" in a ==> DateOk(a["org.opencontainers.image.created"])
  }

  predicate VersionOk(a: map<string, string>)
  {
    "org.opencontainers.image.version" in a ==>
      exists i :: 0 <= i < |a["org.opencontainers.image.version"]| && !IsWhite(a["org.opencontainers.image.version"][i])
  }

  predicate SlsaOk(s: Option<RawSlsa>) { s.Some? && s.value.level.Some? ==> 0 <= s.value.level.value <= 4 }

  predicate FormatOk(s: Option<RawSbom>)
  {
    s.Some? && s.value.format.Some? ==> s.value.format.value in {"cyclonedx", "spdx", "off"}
  }

  predicate ScopeOk(s: Option<RawSbom>)
  {
    s.Some? && s.value.scope.Some? ==> s.value.scope.value in {"layers", "sources", "both"}
  }

  predicate SignKindOk(s: Option<RawSign>)
  {
    s.Some? && s.value.kind.Some? ==> s.value.kind.value in {"cosign-keyless", "cosign-key", "off"}
  }

  predicate KeyNamed(s: Option<RawSign>)
  {
    s.Some? && s.value.kind == Some("cosign-key") ==> s.value.identity.Some?
  }

  predicate AttestationOk(a: Option<RawAttestation>)
  {
    a.Some? ==>
      && SlsaOk(a.value.slsa) && FormatOk(a.value.sbom) && ScopeOk(a.value.sbom)
      && SignKindOk(a.value.sign) && KeyNamed(a.value.sign)
  }

  function Annotations(raw: RawSpec): map<string, string>
  {
    if raw.annotations.Some? then raw.annotations.value else map[]
  }

  /** The spec keeps every rule of the format. */
  ghost predicate Accepted(raw: RawSpec, look: Oracle)
  {
    && raw.version == "0" && (exists name, tag :: IdSplits(raw.id, name, tag)) && CountOk(raw.kind, |raw.layers|)
    && (forall l <- raw.layers :: LayerOk(l, look)) && OrderOk(raw.kind, raw.layers)
    && CreatedOk(Annotations(raw)) && VersionOk(Annotations(raw)) && AttestationOk(raw.attestation)
  }

  // ── what the rules make of it ──

  /** Without a compression the ending of the media type decides. */
  ghost predicate CompressedAs(l: RawLayer, c: Compression)
  {
    match l.compression
    case Some(s) => s == (match c case NoCompression => "none" case Gzip => "gzip" case Zstd => "zstd")
    case None =>
      if EndsIn(l.mediaType, "+gzip") then c == Gzip
      else if EndsIn(l.mediaType, "+zstd") then c == Zstd
      else c == NoCompression
  }

  ghost predicate LayerIs(l: RawLayer, r: Layer)
  {
    && r.mediaType == l.mediaType && CompressedAs(l, r.compression)
    && match r.source
       case Blob(path) => l.source == Some(path)
       case Files(entries) => l.files == Some(entries)
  }

  predicate KindIs(s: string, k: Kind)
  {
    s == match k case OciArtifact => "oci_artifact" case VmImage => "vm_image" case RawImage => "raw_image"
  }

  /** Level 2 unless stated. */
  predicate SlsaIs(s: Option<RawSlsa>, r: SlsaConfig)
  {
    var n := match r.level case Off => 0 case L1 => 1 case L2 => 2 case L3 => 3 case L4 => 4;
    && n == (if s.Some? && s.value.level.Some? then s.value.level.value else 2)
    && r.builderId == if s.Some? then s.value.builderId else None
  }

  /** CycloneDX over layers unless stated. */
  predicate SbomIs(s: Option<RawSbom>, r: SbomConfig)
  {
    var format := match r.format case CycloneDx => "cyclonedx" case Spdx => "spdx" case NoSbom => "off";
    var scope := match r.scope case OfLayers => "layers" case OfSources => "sources" case OfBoth => "both";
    && format == (if s.Some? && s.value.format.Some? then s.value.format.value else "cyclonedx")
    && scope == if s.Some? && s.value.scope.Some? then s.value.scope.value else "layers"
  }

  /** Keyless unless stated. */
  predicate SignIs(s: Option<RawSign>, r: SignConfig)
  {
    var kind := match r.kind case CosignKeyless => "cosign-keyless" case CosignKey => "cosign-key" case NoSign => "off";
    && kind == (if s.Some? && s.value.kind.Some? then s.value.kind.value else "cosign-keyless")
    && r.identity == if s.Some? then s.value.identity else None
  }

  predicate AttestationIs(a: Option<RawAttestation>, r: AttestationConfig)
  {
    && SlsaIs(if a.Some? then a.value.slsa else None, r.slsa) && SbomIs(if a.Some? then a.value.sbom else None, r.sbom)
    && SignIs(if a.Some? then a.value.sign else None, r.sign)
  }

  ghost predicate Describes(raw: RawSpec, s: Spec)
  {
    && raw.id == s.id.name + ":" + s.id.tag && ':' !in s.id.name && KindIs(raw.kind, s.kind)
    && s.description == raw.description
    && s.platform == (if raw.platform.Some? then raw.platform.value else Platform(None, None))
    && |s.layers| == |raw.layers| && (forall i :: 0 <= i < |s.layers| ==> LayerIs(raw.layers[i], s.layers[i]))
    && s.config == (if raw.config.Some? then ToJson(raw.config.value) else JObj(map[]))
    && s.annotations == Annotations(raw) && AttestationIs(raw.attestation, s.attestation)
  }

  // ── what an error says ──

  /** The error names a rule that the spec breaks, and quotes what breaks it. */
  ghost predicate Broken(raw: RawSpec, look: Oracle, e: SpecError)
  {
    match e
    case UnsupportedSpecVersion(got) => got == raw.version && got != "0"
    case MalformedId(got) => got == raw.id && forall name, tag :: !IdSplits(got, name, tag)
    case UnknownKind(got) => got == raw.kind && got !in {"oci_artifact", "vm_image", "raw_image"}
    case WrongLayerCount(kind, n) => KindIs(raw.kind, kind) && n == |raw.layers| && !CountOk(raw.kind, n)
    case LayerSourceConflict(i) =>
      i < |raw.layers| && (raw.layers[i].source.Some? <==> raw.layers[i].files.Some?)
    case UnreadableSource(i, path) =>
      i < |raw.layers| && Unreadable(raw.layers[i], look, path)
    case EmptyFilesBlock(i) => i < |raw.layers| && raw.layers[i].files == Some([])
    case MalformedMediaType(i, got) => i < |raw.layers| && got == raw.layers[i].mediaType && !MediaTypeOk(got)
    case UnknownCompression(i, got) =>
      i < |raw.layers| && raw.layers[i].compression == Some(got) && !CompressionOk(raw.layers[i])
    case WrongLayerOrder(i, got) =>
      && i < 3 && raw.kind == "vm_image" && |raw.layers| == 3 && got == raw.layers[i].mediaType
      && !HasPart(got, if i == 0 then "kernel" else if i == 1 then "initrd" else "rootfs")
    case InvalidReservedAnnotation(key) =>
      || (key == "org.opencontainers.image.created" && !CreatedOk(Annotations(raw)))
      || (key == "org.opencontainers.image.version" && !VersionOk(Annotations(raw)))
    case _ => AttestationBroken(raw.attestation, e)
  }

  /** The path is the layer's source, or one of its files, and is not what it must be. */
  predicate Unreadable(l: RawLayer, look: Oracle, path: string)
  {
    || (l.source == Some(path) && look(path) != RegularFile)
    || (l.files.Some? && look(path) == Nothing && exists f <- l.files.value :: f.source == path)
  }

  predicate AttestationBroken(a: Option<RawAttestation>, e: SpecError)
  {
    a.Some? &&
    match e
    case SlsaLevelOutOfRange(n) => a.value.slsa.Some? && a.value.slsa.value.level == Some(n) && !(0 <= n <= 4)
    case UnknownSbomFormat(got) =>
      a.value.sbom.Some? && a.value.sbom.value.format == Some(got) && !FormatOk(a.value.sbom)
    case UnknownSbomScope(got) =>
      a.value.sbom.Some? && a.value.sbom.value.scope == Some(got) && !ScopeOk(a.value.sbom)
    case UnknownSignKind(got) =>
      a.value.sign.Some? && a.value.sign.value.kind == Some(got) && !SignKindOk(a.value.sign)
    case MissingSigningKeyPath => !KeyNamed(a.value.sign)
    case _ => false
  }

  // ── one rule at a time ──

  lemma SplitsParse(id: string, name: string, tag: string)
    requires IdSplits(id, name, tag)
    ensures ParseId(id) == Ok(ArtifactId(name, tag))
  {
    assert ':' !in name;
    SplitOnceUnique(name, ':', tag);
    assert id == name + [':'] + tag;
    forall i | 0 <= i < |name| ensures NameBody(name[i]) { assert name[i] in name; }
    forall i | 0 <= i < |tag| ensures TagChar(tag[i]) { assert tag[i] in tag; }
  }

  lemma IdExactly(id: string)
    ensures match ParseId(id)
      case Ok(a) => IdSplits(id, a.name, a.tag) && ':' !in a.name
      case Err(e) => e == MalformedId(id) && forall name, tag :: !IdSplits(id, name, tag)
  {
    if ParseId(id).Err? {
      forall name, tag ensures !IdSplits(id, name, tag) {
        if IdSplits(id, name, tag) { SplitsParse(id, name, tag); }
      }
    } else {
      var a := ParseId(id).value;
      assert id == a.name + [':'] + a.tag;
      forall c | c in a.name ensures Lowercase(c) || c == '.' || c == '_' || c == '-' {
        var i :| 0 <= i < |a.name| && a.name[i] == c;
      }
    }
  }

  lemma MediaTypeExactly(s: string)
    ensures MediaTypeOk(s) <==> IsMediaType(s)
  {
    if IsMediaType(s) {
      var (t, u) := SplitOnce(s, '/').value;
      assert s == t + "/" + u;
      forall c | c in t + u ensures Alphanumeric(c) || c == '.' || c == '+' || c == '-' || c == '_' {
        if c in t {
          var i :| 0 <= i < |t| && t[i] == c;
        } else {
          var i :| 0 <= i < |u| && u[i] == c;
        }
      }
    }
    if MediaTypeOk(s) {
      var t, u :| s == t + "/" + u && t != "" && u != "" && forall c <- t + u ::
        Alphanumeric(c) || c == '.' || c == '+' || c == '-' || c == '_';
      assert '/' !in t by { forall c | c in t ensures c != '/' { assert c in t + u; } }
      SplitOnceUnique(t, '/', u);
      assert s == t + ['/'] + u;
      forall i | 0 <= i < |t| ensures t[i] in t + u { }
      forall i | 0 <= i < |u| ensures u[i] in t + u { }
    }
  }

  lemma CompressionExactly(mediaType: string)
    ensures CompressedAs(RawLayer(None, mediaType, None, None), DefaultCompression(mediaType))
  {
    EndsInExactly(mediaType, "+gzip");
    EndsInExactly(mediaType, "+zstd");
  }

  /** A layer that validates is as the rules say, and one that does not breaks the rule that is reported. */
  ghost predicate LayerRight(i: nat, l: RawLayer, look: Oracle, r: Result<Layer, SpecError>)
  {
    match r
    case Ok(layer) => LayerOk(l, look) && LayerIs(l, layer)
    case Err(e) => !LayerOk(l, look) && LayerBroken(i, l, look, e)
  }

  ghost predicate LayerBroken(i: nat, l: RawLayer, look: Oracle, e: SpecError)
  {
    match e
    case LayerSourceConflict(at) => at == i && (l.source.Some? <==> l.files.Some?)
    case UnreadableSource(at, path) => at == i && Unreadable(l, look, path)
    case EmptyFilesBlock(at) => at == i && l.files == Some([])
    case MalformedMediaType(at, got) => at == i && got == l.mediaType && !MediaTypeOk(got)
    case UnknownCompression(at, got) => at == i && l.compression == Some(got) && !CompressionOk(l)
    case _ => false
  }

  lemma {:induction false} MissingExactly(files: seq<LayerFile>, look: Oracle)
    ensures var m := FirstMissing(files, look);
      m.Some? ==> look(m.value) == Nothing && exists f <- files :: f.source == m.value
  {
    if files != [] && look(files[0].source) != Nothing { MissingExactly(files[1..], look); }
  }

  lemma SourceRight(i: nat, l: RawLayer, look: Oracle)
    ensures match ValidateSource(i, l, look)
      case Ok(Blob(path)) => SourceOk(l, look) && l.source == Some(path)
      case Ok(Files(entries)) => SourceOk(l, look) && l.files == Some(entries)
      case Err(e) => !SourceOk(l, look) && LayerBroken(i, l, look, e)
  {
    if l.files.Some? { MissingExactly(l.files.value, look); }
  }

  lemma LayerExactly(i: nat, l: RawLayer, look: Oracle)
    ensures LayerRight(i, l, look, ValidateLayer(i, l, look))
  {
    SourceRight(i, l, look);
    MediaTypeExactly(l.mediaType);
    CompressionExactly(l.mediaType);
  }

  lemma OrderExactly(kind: Kind, raws: seq<RawLayer>, ls: seq<Layer>, name: string)
    requires KindIs(name, kind) && CountAllowed(kind, |ls|) && |raws| == |ls|
    requires forall i :: 0 <= i < |ls| ==> ls[i].mediaType == raws[i].mediaType
    ensures match CheckLayerOrder(kind, ls)
      case Ok(_) => OrderOk(name, raws)
      case Err(WrongLayerOrder(i, got)) =>
        && i < 3 && name == "vm_image" && |raws| == 3 && got == raws[i].mediaType && !OrderOk(name, raws)
        && !HasPart(got, if i == 0 then "kernel" else if i == 1 then "initrd" else "rootfs")
      case Err(_) => false
  {
    if kind == VmImage {
      HasPartExactly(raws[0].mediaType, "kernel");
      HasPartExactly(raws[1].mediaType, "initrd");
      HasPartExactly(raws[2].mediaType, "rootfs");
    }
  }

  predicate OneDash(s: string) { exists i :: 0 <= i < |s| && s[i] == '-' }
  predicate TwoDashes(s: string) { exists i, j :: 0 <= i < j < |s| && s[i] == s[j] == '-' }
  predicate ThreeDashes(s: string) { exists i, j, k :: 0 <= i < j < k < |s| && s[i] == s[j] == s[k] == '-' }

  lemma DashStep(front: string, c: char)
    ensures var s := front + [c];
      && (OneDash(s) <==> OneDash(front) || c == '-')
      && (TwoDashes(s) <==> TwoDashes(front) || (OneDash(front) && c == '-'))
      && (ThreeDashes(s) <==> ThreeDashes(front) || (TwoDashes(front) && c == '-'))
  {
    var s, n := front + [c], |front|;
    assert forall i :: 0 <= i < n ==> s[i] == front[i];
    if i :| 0 <= i < n && front[i] == '-' { assert s[i] == '-'; }
    if i, j :| 0 <= i < j < n && front[i] == front[j] == '-' { assert s[i] == s[j] == '-'; }
    if i, j, k :| 0 <= i < j < k < n && front[i] == front[j] == front[k] == '-' {
      assert s[i] == s[j] == s[k] == '-';
    }
    if c == '-' { assert s[n] == '-'; }
  }

  lemma {:induction false} Dashes(s: string)
    ensures multiset(s)['-'] >= 1 <==> OneDash(s)
    ensures multiset(s)['-'] >= 2 <==> TwoDashes(s)
    ensures multiset(s)['-'] >= 3 <==> ThreeDashes(s)
  {
    if s != [] {
      var n := |s| - 1;
      Dashes(s[..n]);
      DashStep(s[..n], s[n]);
      assert s == s[..n] + [s[n]];
    }
  }

  lemma AnnotationsExactly(a: map<string, string>)
    ensures match CheckAnnotations(a)
      case Ok(_) => CreatedOk(a) && VersionOk(a)
      case Err(InvalidReservedAnnotation(key)) =>
        || (key == "org.opencontainers.image.created" && !CreatedOk(a))
        || (key == "org.opencontainers.image.version" && !VersionOk(a))
      case Err(_) => false
  {
    if CREATED in a { DateExactly(a[CREATED]); }
  }

  lemma DateExactly(s: string)
    ensures DateOk(s) <==> LooksLikeDate(s)
  {
    Dashes(s);
  }

  lemma SlsaExactly(s: Option<RawSlsa>)
    ensures match ValidateSlsa(s)
      case Ok(r) => SlsaOk(s) && SlsaIs(s, r)
      case Err(e) => e == SlsaLevelOutOfRange(s.value.level.value) && !SlsaOk(s)
  {
  }

  lemma SbomExactly(s: Option<RawSbom>)
    ensures match ValidateSbom(s)
      case Ok(r) => FormatOk(s) && ScopeOk(s) && SbomIs(s, r)
      case Err(UnknownSbomFormat(got)) => s.Some? && s.value.format == Some(got) && !FormatOk(s)
      case Err(UnknownSbomScope(got)) => s.Some? && s.value.scope == Some(got) && !ScopeOk(s)
      case Err(_) => false
  {
  }

  lemma SignExactly(s: Option<RawSign>)
    ensures match ValidateSign(s)
      case Ok(r) => SignKindOk(s) && KeyNamed(s) && SignIs(s, r)
      case Err(UnknownSignKind(got)) => s.Some? && s.value.kind == Some(got) && !SignKindOk(s)
      case Err(MissingSigningKeyPath) => !KeyNamed(s)
      case Err(_) => false
  {
  }

  lemma AttestationExactly(a: Option<RawAttestation>)
    ensures match ValidateAttestation(a)
      case Ok(r) => AttestationOk(a) && AttestationIs(a, r)
      case Err(e) => !AttestationOk(a) && AttestationBroken(a, e)
  {
    if a.Some? {
      SlsaExactly(a.value.slsa);
      SbomExactly(a.value.sbom);
      SignExactly(a.value.sign);
    } else {
      SlsaExactly(None);
      SbomExactly(None);
      SignExactly(None);
    }
  }

  lemma CountExactly(name: string, kind: Kind, n: nat)
    requires KindIs(name, kind)
    ensures CountAllowed(kind, n) <==> CountOk(name, n)
  {
  }

  lemma KindExactly(name: string)
    ensures match ParseKind(name)
      case Some(k) => KindIs(name, k)
      case None => name !in {"oci_artifact", "vm_image", "raw_image"}
  {
  }

  // ── the whole spec ──

  /** The layers of a spec of this kind. */
  lemma LayersExactly(name: string, kind: Kind, raws: seq<RawLayer>, look: Oracle)
    requires KindIs(name, kind)
    ensures match ValidateLayers(kind, raws, look)
      case Ok(ls) =>
        && CountOk(name, |raws|) && (forall l <- raws :: LayerOk(l, look)) && OrderOk(name, raws)
        && |ls| == |raws| && forall i :: 0 <= i < |ls| ==> LayerIs(raws[i], ls[i])
      case Err(e) => LayersBroken(name, raws, look, e)
  {
    CountExactly(name, kind, |raws|);
    if CountAllowed(kind, |raws|) {
      var check := Checks(look);
      var ls := Collect(raws, check);
      if ls.Ok? {
        forall i | 0 <= i < |raws| ensures LayerOk(raws[i], look) && LayerIs(raws[i], ls.value[i]) {
          assert check(i, raws[i]) == Ok(ls.value[i]);
          LayerExactly(i, raws[i], look);
        }
        OrderExactly(kind, raws, ls.value, name);
      } else {
        var i :| 0 <= i < |raws| && check(i, raws[i]) == Err(ls.error);
        LayerExactly(i, raws[i], look);
        assert raws[i] in raws;
      }
    }
  }

  ghost predicate LayersBroken(name: string, raws: seq<RawLayer>, look: Oracle, e: SpecError)
  {
    match e
    case WrongLayerCount(kind, n) => KindIs(name, kind) && n == |raws| && !CountOk(name, n)
    case WrongLayerOrder(i, got) =>
      && i < 3 && name == "vm_image" && |raws| == 3 && got == raws[i].mediaType && !OrderOk(name, raws)
      && !HasPart(got, if i == 0 then "kernel" else if i == 1 then "initrd" else "rootfs")
    case _ => exists i :: 0 <= i < |raws| && !LayerOk(raws[i], look) && LayerBroken(i, raws[i], look, e)
  }

  lemma BrokenLayers(raw: RawSpec, look: Oracle, e: SpecError)
    requires LayersBroken(raw.kind, raw.layers, look, e)
    ensures Broken(raw, look, e) && !Accepted(raw, look)
  {
    if !e.WrongLayerCount? && !e.WrongLayerOrder? {
      var i :| 0 <= i < |raw.layers| && !LayerOk(raw.layers[i], look) && LayerBroken(i, raw.layers[i], look, e);
      assert raw.layers[i] in raw.layers;
    }
  }

  /**
   * `validate` accepts a raw spec exactly when it keeps every rule; what it returns is what the
   * rules make of it, absent fields included; an error names a broken rule and quotes it.
   */
  lemma ValidatesExactly(raw: RawSpec, look: Oracle)
    ensures var r := ValidateSpec(raw, look);
      && (r.Ok? <==> Accepted(raw, look))
      && (r.Ok? ==> Describes(raw, r.value)) && (r.Err? ==> Broken(raw, look, r.error))
  {
    IdExactly(raw.id);
    KindExactly(raw.kind);
    AnnotationsExactly(Annotations(raw));
    AttestationExactly(raw.attestation);
    var head := ValidateHead(raw.version, raw.id, raw.kind);
    if head.Ok? {
      LayersExactly(raw.kind, head.value.1, raw.layers, look);
      var ls := ValidateLayers(head.value.1, raw.layers, look);
      if ls.Err? { BrokenLayers(raw, look, ls.error); }
    }
  }
}
