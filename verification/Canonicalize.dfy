/** `spec_to_json`, and why it loses nothing that validation let through. */
module Canonicalize {
  import opened Wrappers
  import opened Text
  import opened Json
  import opened Toml
  import opened Specs
  import opened Validate

  // ── the projection ──

  type Obj = map<string, Json>

  /** Absent fields are omitted, not null. */
  function With(o: Obj, k: string, v: Option<Json>): Obj { if v.Some? then o[k := v.value] else o }

  function OptStr(s: Option<string>): Option<Json> { if s.Some? then Some(JStr(s.value)) else None }

  function NormalisePath(p: string): (r: string)
    ensures |r| == |p| && '\\' !in r
    ensures r == p <==> '\\' !in p
  {
    var r := seq(|p|, i requires 0 <= i < |p| => if p[i] == '\\' then '/' else p[i]);
    assert r == p ==> forall i :: 0 <= i < |p| ==> p[i] == r[i];
    r
  }

  function PlatformJson(p: Platform): Option<Json>
  {
    if p.os.None? && p.arch.None? then None
    else Some(JObj(With(With(map[], "os", OptStr(p.os)), "arch", OptStr(p.arch))))
  }

  function FileJson(f: LayerFile): Json
  {
    JObj(map["source" := JStr(NormalisePath(f.source)), "dest" := JStr(f.dest), "mode" := JInt(f.mode)])
  }

  function FilesJson(fs: seq<LayerFile>): Json { JArr(seq(|fs|, i requires 0 <= i < |fs| => FileJson(fs[i]))) }

  function LayerJson(l: Layer): Json
  {
    var o := map["media_type" := JStr(l.mediaType), "compression" := JStr(l.compression.AsStr())];
    JObj(match l.source
         case Blob(path) => o["source" := JStr(NormalisePath(path))]
         case Files(entries) => o["files" := FilesJson(entries)])
  }

  function LayersJson(ls: seq<Layer>): Json { JArr(seq(|ls|, i requires 0 <= i < |ls| => LayerJson(ls[i]))) }

  /** An empty object stands for "no config block". */
  function ConfigJson(c: Json): Option<Json> { if c == JObj(map[]) then None else Some(c) }

  function AnnotationsJson(a: map<string, string>): Option<Json>
  {
    if a == map[] then None else Some(JObj(AnnotationsObj(a)))
  }

  function AnnotationsObj(a: map<string, string>): Obj { map k | k in a :: JStr(a[k]) }

  function SlsaJson(s: SlsaConfig): Json
  {
    JObj(With(map["level" := JInt(s.level.AsInt())], "builder_id", OptStr(s.builderId)))
  }

  function SbomJson(s: SbomConfig): Json
  {
    JObj(map["format" := JStr(s.format.AsStr()), "scope" := JStr(s.scope.AsStr())])
  }

  function SignJson(s: SignConfig): Json
  {
    JObj(With(map["kind" := JStr(s.kind.AsStr())], "identity", OptStr(s.identity)))
  }

  function AttestationJson(a: AttestationConfig): Json
  {
    JObj(map["slsa" := SlsaJson(a.slsa), "sbom" := SbomJson(a.sbom), "sign" := SignJson(a.sign)])
  }

  /** The values of the nested fields of a spec object. */
  datatype Parts = Parts(platform: Option<Json>, layers: Json, config: Option<Json>, annotations: Option<Json>,
    attestation: Json)

  function PartsOf(s: Spec): Parts
  {
    Parts(PlatformJson(s.platform), LayersJson(s.layers), ConfigJson(s.config), AnnotationsJson(s.annotations),
      AttestationJson(s.attestation))
  }

  /** The object of a spec, field by field. */
  function Build(version: Json, id: Json, kind: Json, description: Option<Json>, p: Parts): Obj
  {
    BuildRest(BuildHead(version, id, kind, description, p.platform), p)
  }

  function BuildHead(version: Json, id: Json, kind: Json, description: Option<Json>, platform: Option<Json>): Obj
  {
    With(With(map["spec_version" := version]["id" := id]["kind" := kind], "description", description), "platform",
      platform)
  }

  function BuildRest(o: Obj, p: Parts): Obj
  {
    With(With(o["layers" := p.layers], "config", p.config), "annotations",
      p.annotations)["attestation" := p.attestation]
  }

  function SpecObj(s: Spec): Obj
  {
    Build(JStr(s.version.AsStr()), JStr(s.id.Form()), JStr(s.kind.AsStr()), OptStr(s.description), PartsOf(s))
  }

  function SpecJson(s: Spec): Json { JObj(SpecObj(s)) }

  // ── the code that fills the maps ──

  method LayerToJson(l: Layer) returns (j: Json)
    ensures j == LayerJson(l)
  {
    var o: Obj := map[];
    o := o["media_type" := JStr(l.mediaType)];
    o := o["compression" := JStr(l.compression.AsStr())];
    match l.source {
      case Blob(path) => o := o["source" := JStr(NormalisePath(path))];
      case Files(entries) => o := o["files" := FilesJson(entries)];
    }
    j := JObj(o);
  }

  method SlsaToJson(s: SlsaConfig) returns (j: Json)
    ensures j == SlsaJson(s)
  {
    var o: Obj := map[];
    o := o["level" := JInt(s.level.AsInt())];
    if s.builderId.Some? { o := o["builder_id" := JStr(s.builderId.value)]; }
    j := JObj(o);
  }

  method AttestationToJson(a: AttestationConfig) returns (j: Json)
    ensures j == AttestationJson(a)
  {
    var slsa := SlsaToJson(a.slsa);
    j := JObj(map["slsa" := slsa, "sbom" := SbomJson(a.sbom), "sign" := SignJson(a.sign)]);
  }

  method AnnotationsToJson(a: map<string, string>) returns (j: Json)
    requires a != map[]
    ensures AnnotationsJson(a) == Some(j)
  {
    var o: Obj := map[];
    var left := a.Keys;
    while left != {}
      invariant left <= a.Keys && o.Keys == a.Keys - left
      invariant forall k :: k in o ==> o[k] == JStr(a[k])
      decreases |left|
    {
      var k :| k in left;
      o := o[k := JStr(a[k])];
      left := left - {k};
    }
    assert o == AnnotationsObj(a);
    j := JObj(o);
  }

  method LayersToJson(ls: seq<Layer>) returns (j: Json)
    ensures j == LayersJson(ls)
  {
    var layers := [];
    for i := 0 to |ls|
      invariant |layers| == i && forall k :: 0 <= k < i ==> layers[k] == LayerJson(ls[k])
    {
      var l := LayerToJson(ls[i]);
      layers := layers + [l];
    }
    j := JArr(layers);
  }

  method SpecToJson(s: Spec) returns (j: Json)
    ensures j == SpecJson(s)
  {
    var obj: Obj := map["spec_version" := JStr(s.version.AsStr())];
    obj := obj["id" := JStr(s.id.Form())];
    obj := obj["kind" := JStr(s.kind.AsStr())];
    if s.description.Some? { obj := obj["description" := JStr(s.description.value)]; }
    var p := PlatformJson(s.platform);
    if p.Some? { obj := obj["platform" := p.value]; }
    var layers := LayersToJson(s.layers);
    obj := obj["layers" := layers];
    var c := ConfigJson(s.config);
    if c.Some? { obj := obj["config" := c.value]; }
    if s.annotations != map[] {
      var a := AnnotationsToJson(s.annotations);
      obj := obj["annotations" := a];
    }
    var attestation := AttestationToJson(s.attestation);
    obj := obj["attestation" := attestation];
    j := JObj(obj);
  }

  // ── reading back ──

  /** A spec loaded from a TOML tree, if it reads and validates. */
  function Load(v: Toml, look: Oracle): Option<Spec>
  {
    var raw := ReadSpec(v);
    if raw.None? then None
    else
      var s := ValidateSpec(raw.value, look);
      if s.Ok? then Some(s.value) else None
  }

  /** The projection, taken for a spec again. */
  function ReadBack(j: Json, look: Oracle): Option<Spec>
  {
    var v := FromJson(j);
    if v.Some? then Load(v.value, look) else None
  }

  function RawFileOf(f: LayerFile): LayerFile { f.(source := NormalisePath(f.source)) }

  function RawFilesOf(fs: seq<LayerFile>): seq<LayerFile> { seq(|fs|, i requires 0 <= i < |fs| => RawFileOf(fs[i])) }

  function RawLayerOf(l: Layer): RawLayer
  {
    match l.source
    case Blob(path) => RawLayer(Some(NormalisePath(path)), l.mediaType, Some(l.compression.AsStr()), None)
    case Files(entries) => RawLayer(None, l.mediaType, Some(l.compression.AsStr()), Some(RawFilesOf(entries)))
  }

  function RawLayersOf(ls: seq<Layer>): seq<RawLayer> { seq(|ls|, i requires 0 <= i < |ls| => RawLayerOf(ls[i])) }

  function RawAttestationOf(a: AttestationConfig): RawAttestation
  {
    RawAttestation(
      Some(RawSlsa(Some(a.slsa.level.AsInt()), a.slsa.builderId)),
      Some(RawSbom(Some(a.sbom.format.AsStr()), Some(a.sbom.scope.AsStr()))),
      Some(RawSign(Some(a.sign.kind.AsStr()), a.sign.identity)))
  }

  /** The raw spec the projection denotes. */
  function RawOf(s: Spec): RawSpec
    requires NoNull(s.config)
  {
    RawSpec(
      s.version.AsStr(), s.id.Form(), s.kind.AsStr(), s.description,
      if s.platform == Platform(None, None) then None else Some(s.platform),
      RawLayersOf(s.layers),
      if s.config == JObj(map[]) then None else FromJson(s.config),
      if s.annotations == map[] then None else Some(s.annotations),
      Some(RawAttestationOf(s.attestation)))
  }

  /** Reading one field of a printed object. */
  lemma FieldReads(o: Obj, k: string)
    requires NoNull(JObj(o))
    ensures FromJson(JObj(o)).value.TTable? && FromJson(JObj(o)).value.t.Keys == o.Keys
    ensures At(FromJson(JObj(o)).value.t, k) == if k in o then FromJson(o[k]) else None
  {
  }

  lemma PlatformReads(p: Platform)
    requires PlatformJson(p).Some?
    ensures NoNull(PlatformJson(p).value) && ReadPlatform(FromJson(PlatformJson(p).value).value) == Some(p)
  {
    var o := PlatformJson(p).value.o;
    FieldReads(o, "os");
    FieldReads(o, "arch");
  }

  predicate U32(f: LayerFile) { f.mode < 0x1_0000_0000 }

  lemma FileReads(f: LayerFile)
    requires U32(f)
    ensures NoNull(FileJson(f)) && ReadFile(FromJson(FileJson(f)).value) == Some(RawFileOf(f))
  {
    var o := FileJson(f).o;
    FieldReads(o, "source");
    FieldReads(o, "dest");
    FieldReads(o, "mode");
  }

  lemma ListReads<A>(js: seq<Json>, read: Toml -> Option<A>, xs: seq<A>)
    requires |xs| == |js| && forall i :: 0 <= i < |js| ==> NoNull(js[i]) && read(FromJson(js[i]).value) == Some(xs[i])
    ensures NoNull(JArr(js)) && List(FromJson(JArr(js)).value, read) == Some(xs)
  {
    var a := FromJson(JArr(js)).value.a;
    assert forall i :: 0 <= i < |js| ==> a[i] == FromJson(js[i]).value;
    assert All(a, read).value == xs;
  }

  lemma FilesRead(fs: seq<LayerFile>)
    requires forall f <- fs :: U32(f)
    ensures NoNull(FilesJson(fs)) && ReadFiles(FromJson(FilesJson(fs)).value) == Some(RawFilesOf(fs))
  {
    forall i | 0 <= i < |fs|
      ensures NoNull(FileJson(fs[i])) && ReadFile(FromJson(FileJson(fs[i])).value) == Some(RawFileOf(fs[i]))
    {
      FileReads(fs[i]);
    }
    ListReads(FilesJson(fs).a, ReadFile, RawFilesOf(fs));
  }

  predicate LayerU32(l: Layer) { l.source.Files? ==> forall f <- l.source.entries :: U32(f) }

  lemma LayerReads(l: Layer)
    requires LayerU32(l)
    ensures NoNull(LayerJson(l)) && ReadLayer(FromJson(LayerJson(l)).value) == Some(RawLayerOf(l))
  {
    match l.source
    case Blob(path) =>
      BlobLayerReads(l.mediaType, l.compression.AsStr(), NormalisePath(path));
    case Files(entries) =>
      FilesRead(entries);
      FilesLayerReads(l.mediaType, l.compression.AsStr(), FilesJson(entries), RawFilesOf(entries));
  }

  lemma BlobLayerReads(mt: string, compression: string, path: string)
    ensures var j := JObj(map["media_type" := JStr(mt), "compression" := JStr(compression)]["source" := JStr(path)]);
      NoNull(j) && ReadLayer(FromJson(j).value) == Some(RawLayer(Some(path), mt, Some(compression), None))
  {
    var o := map["media_type" := JStr(mt), "compression" := JStr(compression)]["source" := JStr(path)];
    FieldReads(o, "media_type");
    FieldReads(o, "compression");
    FieldReads(o, "source");
    FieldReads(o, "files");
  }

  lemma FilesLayerReads(mt: string, compression: string, files: Json, raws: seq<LayerFile>)
    requires NoNull(files) && ReadFiles(FromJson(files).value) == Some(raws)
    ensures var j := JObj(map["media_type" := JStr(mt), "compression" := JStr(compression)]["files" := files]);
      NoNull(j) && ReadLayer(FromJson(j).value) == Some(RawLayer(None, mt, Some(compression), Some(raws)))
  {
    var o := map["media_type" := JStr(mt), "compression" := JStr(compression)]["files" := files];
    FieldReads(o, "media_type");
    FieldReads(o, "compression");
    FieldReads(o, "source");
    FieldReads(o, "files");
  }

  lemma LayersRead(ls: seq<Layer>)
    requires forall l <- ls :: LayerU32(l)
    ensures NoNull(LayersJson(ls)) && ReadLayers(FromJson(LayersJson(ls)).value) == Some(RawLayersOf(ls))
  {
    forall i | 0 <= i < |ls|
      ensures NoNull(LayerJson(ls[i])) && ReadLayer(FromJson(LayerJson(ls[i])).value) == Some(RawLayerOf(ls[i]))
    {
      LayerReads(ls[i]);
    }
    ListReads(LayersJson(ls).a, ReadLayer, RawLayersOf(ls));
  }

  lemma AnnotationsRead(a: map<string, string>)
    requires a != map[]
    ensures NoNull(AnnotationsJson(a).value) && ReadStrings(FromJson(AnnotationsJson(a).value).value) == Some(a)
  {
    var o := AnnotationsObj(a);
    var t := FromJson(JObj(o)).value.t;
    forall k ensures k in t <==> k in a
      ensures k in a ==> t[k] == TStr(a[k])
    {
      FieldReads(o, k);
    }
    StringsRead(t, a);
  }

  lemma StringsRead(t: map<string, Toml>, a: map<string, string>)
    requires forall k :: (k in t <==> k in a) && (k in a ==> t[k] == TStr(a[k]))
    ensures ReadStrings(TTable(t)) == Some(a)
  {
    assert ReadStrings(TTable(t)).value == a;
  }

  lemma SlsaReads(s: SlsaConfig)
    ensures NoNull(SlsaJson(s))
    ensures ReadSlsa(FromJson(SlsaJson(s)).value) == Some(RawSlsa(Some(s.level.AsInt()), s.builderId))
  {
    FieldReads(SlsaJson(s).o, "level");
    FieldReads(SlsaJson(s).o, "builder_id");
  }

  lemma SbomReads(s: SbomConfig)
    ensures NoNull(SbomJson(s))
    ensures ReadSbom(FromJson(SbomJson(s)).value) == Some(RawSbom(Some(s.format.AsStr()), Some(s.scope.AsStr())))
  {
    FieldReads(SbomJson(s).o, "format");
    FieldReads(SbomJson(s).o, "scope");
  }

  lemma SignReads(s: SignConfig)
    ensures NoNull(SignJson(s))
    ensures ReadSign(FromJson(SignJson(s)).value) == Some(RawSign(Some(s.kind.AsStr()), s.identity))
  {
    FieldReads(SignJson(s).o, "kind");
    FieldReads(SignJson(s).o, "identity");
  }

  lemma AttestationReads(a: AttestationConfig)
    ensures NoNull(AttestationJson(a))
    ensures ReadAttestation(FromJson(AttestationJson(a)).value) == Some(RawAttestationOf(a))
  {
    SlsaReads(a.slsa);
    SbomReads(a.sbom);
    SignReads(a.sign);
    ThreeRead(SlsaJson(a.slsa), SbomJson(a.sbom), SignJson(a.sign), RawAttestationOf(a));
  }

  lemma ThreeRead(slsa: Json, sbom: Json, sign: Json, raw: RawAttestation)
    requires NoNull(slsa) && NoNull(sbom) && NoNull(sign) && raw.slsa.Some? && raw.sbom.Some? && raw.sign.Some?
    requires ReadSlsa(FromJson(slsa).value) == raw.slsa && ReadSbom(FromJson(sbom).value) == raw.sbom
    requires ReadSign(FromJson(sign).value) == raw.sign
    ensures var j := JObj(map["slsa" := slsa, "sbom" := sbom, "sign" := sign]);
      NoNull(j) && ReadAttestation(FromJson(j).value) == Some(raw)
  {
    var o := map["slsa" := slsa, "sbom" := sbom, "sign" := sign];
    FieldReads(o, "slsa");
    FieldReads(o, "sbom");
    FieldReads(o, "sign");
    AttestationOf(FromJson(JObj(o)).value.t, raw);
  }

  lemma AttestationOf(t: map<string, Toml>, raw: RawAttestation)
    requires t.Keys == {"slsa", "sbom", "sign"} && raw.slsa.Some? && raw.sbom.Some? && raw.sign.Some?
    requires ReadSlsa(t["slsa"]) == raw.slsa && ReadSbom(t["sbom"]) == raw.sbom && ReadSign(t["sign"]) == raw.sign
    ensures ReadAttestation(TTable(t)) == Some(raw)
  {
  }

  function Look(o: Obj, k: string): Option<Json> { if k in o then Some(o[k]) else None }

  predicate OptNoNull(j: Option<Json>) { j.Some? ==> NoNull(j.value) }

  predicate PartsNoNull(p: Parts)
  {
    OptNoNull(p.platform) && NoNull(p.layers) && OptNoNull(p.config) && OptNoNull(p.annotations)
      && NoNull(p.attestation)
  }

  /** Which fields a spec object has. */
  predicate Fields(o: Obj, version: Json, id: Json, kind: Json, description: Option<Json>, p: Parts)
  {
    && o.Keys <= SPEC_KEYS
    && Look(o, "spec_version") == Some(version) && Look(o, "id") == Some(id)
    && Look(o, "kind") == Some(kind) && Look(o, "description") == description
    && Look(o, "platform") == p.platform && Look(o, "layers") == Some(p.layers)
    && Look(o, "config") == p.config && Look(o, "annotations") == p.annotations
    && Look(o, "attestation") == Some(p.attestation)
  }

  lemma BuildFields(version: Json, id: Json, kind: Json, description: Option<Json>, p: Parts)
    ensures Fields(Build(version, id, kind, description, p), version, id, kind, description, p)
  {
    HeadFields(version, id, kind, description, p.platform);
    RestFields(BuildHead(version, id, kind, description, p.platform), p);
  }

  const HEAD_KEYS := {"spec_version", "id", "kind", "description", "platform"}

  lemma HeadFields(version: Json, id: Json, kind: Json, description: Option<Json>, platform: Option<Json>)
    ensures var o := BuildHead(version, id, kind, description, platform);
      && o.Keys <= HEAD_KEYS && Look(o, "spec_version") == Some(version) && Look(o, "id") == Some(id)
      && Look(o, "kind") == Some(kind) && Look(o, "description") == description && Look(o, "platform") == platform
  {
  }

  lemma RestFields(o: Obj, p: Parts)
    requires o.Keys <= HEAD_KEYS
    ensures var r := BuildRest(o, p);
      && r.Keys <= SPEC_KEYS && (forall k <- HEAD_KEYS :: Look(r, k) == Look(o, k))
      && Look(r, "layers") == Some(p.layers) && Look(r, "config") == p.config
      && Look(r, "annotations") == p.annotations && Look(r, "attestation") == Some(p.attestation)
  {
  }

  lemma SpecFields(s: Spec)
    ensures Fields(SpecObj(s), JStr(s.version.AsStr()), JStr(s.id.Form()), JStr(s.kind.AsStr()), OptStr(s.description),
      PartsOf(s))
  {
    BuildFields(JStr(s.version.AsStr()), JStr(s.id.Form()), JStr(s.kind.AsStr()), OptStr(s.description), PartsOf(s));
  }

  lemma FieldsNoNull(o: Obj, version: Json, id: Json, kind: Json, description: Option<Json>, p: Parts)
    requires Fields(o, version, id, kind, description, p) && PartsNoNull(p)
    requires NoNull(version) && NoNull(id) && NoNull(kind) && OptNoNull(description)
    ensures NoNull(JObj(o))
  {
    forall k | k in o ensures NoNull(o[k]) { assert k in SPEC_KEYS && Look(o, k) == Some(o[k]); }
  }

  /** How the nested fields read. */
  ghost predicate PartsRead(p: Parts, raw: RawSpec)
  {
    && (if p.platform.None? then raw.platform == None
        else
          NoNull(p.platform.value) && ReadPlatform(FromJson(p.platform.value).value) == raw.platform
            && raw.platform.Some?)
    && NoNull(p.layers) && ReadLayers(FromJson(p.layers).value) == Some(raw.layers)
    && (if p.config.None? then raw.config == None else NoNull(p.config.value) && raw.config == FromJson(p.config.value))
    && (if p.annotations.None? then raw.annotations == None
        else
          NoNull(p.annotations.value) && ReadStrings(FromJson(p.annotations.value).value) == raw.annotations
            && raw.annotations.Some?)
    && NoNull(p.attestation) && ReadAttestation(FromJson(p.attestation).value) == raw.attestation
      && raw.attestation.Some?
  }

  lemma FieldsRead(o: Obj, raw: RawSpec, p: Parts)
    requires Fields(o, JStr(raw.version), JStr(raw.id), JStr(raw.kind), OptStr(raw.description), p) && PartsRead(p, raw)
    ensures NoNull(JObj(o)) && ReadSpec(FromJson(JObj(o)).value) == Some(raw)
  {
    FieldsNoNull(o, JStr(raw.version), JStr(raw.id), JStr(raw.kind), OptStr(raw.description), p);
    forall k { FieldReads(o, k); }
    var t := FromJson(JObj(o)).value.t;
    assert HeadReads(t, raw);
    NestedRead(t, o, raw, p);
    SpecOfFields(t, raw);
  }

  predicate HeadReads(t: map<string, Toml>, raw: RawSpec)
  {
    && Req(At(t, "spec_version"), Str) == Some(raw.version) && Req(At(t, "id"), Str) == Some(raw.id)
    && Req(At(t, "kind"), Str) == Some(raw.kind) && Opt(At(t, "description"), Str) == Some(raw.description)
  }

  predicate RestReads(t: map<string, Toml>, raw: RawSpec)
  {
    && Opt(At(t, "platform"), ReadPlatform) == Some(raw.platform)
    && Req(At(t, "layers"), ReadLayers) == Some(raw.layers)
    && At(t, "config") == raw.config && Opt(At(t, "annotations"), ReadStrings) == Some(raw.annotations)
    && Opt(At(t, "attestation"), ReadAttestation) == Some(raw.attestation)
  }

  lemma NestedRead(t: map<string, Toml>, o: Obj, raw: RawSpec, p: Parts)
    requires PartsRead(p, raw) && forall k :: At(t, k) == if k in o then FromJson(o[k]) else None
    requires Look(o, "platform") == p.platform && Look(o, "layers") == Some(p.layers) && Look(o, "config") == p.config
    requires Look(o, "annotations") == p.annotations && Look(o, "attestation") == Some(p.attestation)
    ensures RestReads(t, raw)
  {
  }

  lemma SpecOfFields(t: map<string, Toml>, raw: RawSpec)
    requires t.Keys <= SPEC_KEYS && HeadReads(t, raw) && RestReads(t, raw)
    ensures ReadSpec(TTable(t)) == Some(raw)
  {
  }

  lemma PartsOfRead(s: Spec)
    requires NoNull(s.config) && forall l <- s.layers :: LayerU32(l)
    ensures PartsRead(PartsOf(s), RawOf(s))
  {
    if PlatformJson(s.platform).Some? { PlatformReads(s.platform); }
    LayersRead(s.layers);
    if s.annotations != map[] { AnnotationsRead(s.annotations); }
    AttestationReads(s.attestation);
  }

  /** The projection reads back as the raw spec it denotes. */
  lemma SpecReads(s: Spec)
    requires NoNull(s.config) && forall l <- s.layers :: LayerU32(l)
    ensures NoNull(SpecJson(s)) && ReadSpec(FromJson(SpecJson(s)).value) == Some(RawOf(s))
  {
    SpecFields(s);
    PartsOfRead(s);
    FieldsRead(SpecObj(s), RawOf(s), PartsOf(s));
  }

  // ── what validation guarantees ──

  predicate SourceChecked(l: LayerSource, look: Oracle)
  {
    match l
    case Blob(path) => look(path) == RegularFile
    case Files(entries) => entries != [] && forall f <- entries :: look(f.source) != Nothing
  }

  predicate LayerChecked(l: Layer, look: Oracle) { SourceChecked(l.source, look) && IsMediaType(l.mediaType) }

  ghost predicate LayersChecked(kind: Kind, ls: seq<Layer>, look: Oracle)
  {
    CountAllowed(kind, |ls|) && (forall i :: 0 <= i < |ls| ==> LayerChecked(ls[i], look)) && InOrder(kind, ls)
  }

  /** Every rule of the spec format holds. */
  ghost predicate Checked(s: Spec, look: Oracle)
  {
    && ValidId(s.id.name, s.id.tag) && LayersChecked(s.kind, s.layers, look)
    && AnnotationsOk(s.annotations)
    && (s.attestation.sign.kind == CosignKey ==> s.attestation.sign.identity.Some?)
    && Numeric(s.config)
  }

  function SourceOf(raw: RawLayer): LayerSource
  {
    if raw.source.Some? then Blob(raw.source.value) else Files(if raw.files.Some? then raw.files.value else [])
  }

  lemma SourceIsChecked(i: nat, raw: RawLayer, look: Oracle)
    requires ValidateSource(i, raw, look).Ok?
    ensures SourceChecked(ValidateSource(i, raw, look).value, look)
    ensures ValidateSource(i, raw, look).value == SourceOf(raw)
    ensures raw.source.Some? <==> raw.files.None?
    ensures raw.files.Some? ==> raw.files.value != []
  {
  }

  lemma LayerIsChecked(i: nat, raw: RawLayer, look: Oracle)
    requires ValidateLayer(i, raw, look).Ok?
    ensures var l := ValidateLayer(i, raw, look).value;
      LayerChecked(l, look) && l.source == SourceOf(raw) && l.mediaType == raw.mediaType
    ensures (raw.source.Some? <==> raw.files.None?) && (raw.files.Some? ==> raw.files.value != [])
  {
    SourceIsChecked(i, raw, look);
  }

  lemma AttestationIsChecked(raw: Option<RawAttestation>)
    requires ValidateAttestation(raw).Ok?
    ensures var sign := ValidateAttestation(raw).value.sign; sign.kind == CosignKey ==> sign.identity.Some?
  {
  }

  /** Layers keep their sources. */
  predicate SameSources(raws: seq<RawLayer>, ls: seq<Layer>)
  {
    |ls| == |raws| && forall i :: 0 <= i < |ls| ==> ls[i].source == SourceOf(raws[i])
  }

  lemma LayersAreChecked(kind: Kind, raws: seq<RawLayer>, look: Oracle)
    requires ValidateLayers(kind, raws, look).Ok?
    ensures LayersChecked(kind, ValidateLayers(kind, raws, look).value, look)
    ensures SameSources(raws, ValidateLayers(kind, raws, look).value)
  {
    var check, ls := Checks(look), Collect(raws, Checks(look)).value;
    forall i | 0 <= i < |ls| ensures LayerChecked(ls[i], look) && ls[i].source == SourceOf(raws[i]) {
      assert check(i, raws[i]) == Ok(ls[i]);
      LayerIsChecked(i, raws[i], look);
    }
  }

  lemma HeadIsChecked(version: string, id: string, kind: string)
    requires ValidateHead(version, id, kind).Ok?
    ensures var a := ValidateHead(version, id, kind).value.0; ValidId(a.name, a.tag)
  {
  }

  lemma AnnotationsAreChecked(raw: Option<map<string, string>>)
    requires ValidateAnnotations(raw).Ok?
    ensures AnnotationsOk(ValidateAnnotations(raw).value)
  {
  }

  lemma ConfigIsNumeric(raw: Option<Toml>)
    ensures Numeric(ConfigOf(raw))
  {
    if raw.Some? { ToJsonNumeric(raw.value); }
  }

  /** Validation is complete: what it accepts satisfies every rule. */
  lemma ValidatedIsChecked(raw: RawSpec, look: Oracle)
    requires ValidateSpec(raw, look).Ok?
    ensures Checked(ValidateSpec(raw, look).value, look)
    ensures SameSources(raw.layers, ValidateSpec(raw, look).value.layers)
  {
    var kind := ValidateHead(raw.version, raw.id, raw.kind).value.1;
    HeadIsChecked(raw.version, raw.id, raw.kind);
    LayersAreChecked(kind, raw.layers, look);
    AnnotationsAreChecked(raw.annotations);
    AttestationIsChecked(raw.attestation);
    ConfigIsNumeric(raw.config);
  }

  predicate LayerClean(l: Layer)
  {
    match l.source
    case Blob(path) => '\\' !in path
    case Files(entries) => forall f <- entries :: '\\' !in f.source
  }

  /** No backslash in a path and no null in the config. */
  predicate Clean(s: Spec) { (forall l <- s.layers :: LayerClean(l)) && NoNull(s.config) }

  // ── the round trip ──

  lemma CollectAll<A, B>(raws: seq<A>, check: (nat, A) -> Result<B, SpecError>, xs: seq<B>)
    requires |xs| == |raws| && forall i :: 0 <= i < |raws| ==> check(i, raws[i]) == Ok(xs[i])
    ensures Collect(raws, check) == Ok(xs)
  {
    var r := Collect(raws, check);
    if r.Ok? { assert r.value == xs; }
  }

  lemma LayerRoundTrip(i: nat, l: Layer, look: Oracle)
    requires LayerChecked(l, look) && LayerClean(l)
    ensures ValidateLayer(i, RawLayerOf(l), look) == Ok(l)
  {
    if l.source.Files? {
      var entries := l.source.entries;
      forall k | 0 <= k < |entries| ensures RawFileOf(entries[k]) == entries[k] { assert entries[k] in entries; }
      assert RawFilesOf(entries) == entries;
    }
  }

  lemma LayersRoundTrip(kind: Kind, ls: seq<Layer>, look: Oracle)
    requires LayersChecked(kind, ls, look) && forall i :: 0 <= i < |ls| ==> LayerClean(ls[i])
    ensures ValidateLayers(kind, RawLayersOf(ls), look) == Ok(ls)
  {
    var raws, check := RawLayersOf(ls), Checks(look);
    forall i | 0 <= i < |raws| ensures check(i, raws[i]) == Ok(ls[i]) { LayerRoundTrip(i, ls[i], look); }
    CollectAll(raws, check, ls);
  }

  lemma HeadRoundTrip(id: ArtifactId, kind: Kind)
    requires ValidId(id.name, id.tag)
    ensures ValidateHead(V0.AsStr(), id.Form(), kind.AsStr()) == Ok((id, kind))
  {
    SplitOnceUnique(id.name, ':', id.tag);
    assert ParseKind(kind.AsStr()) == Some(kind);
  }

  lemma AttestationRoundTrip(a: AttestationConfig)
    requires a.sign.kind == CosignKey ==> a.sign.identity.Some?
    ensures ValidateAttestation(Some(RawAttestationOf(a))) == Ok(a)
  {
    var raw := RawAttestationOf(a);
    assert ValidateSlsa(raw.slsa) == Ok(a.slsa);
    assert ValidateSbom(raw.sbom) == Ok(a.sbom);
    assert ValidateSign(raw.sign) == Ok(a.sign);
  }

  lemma AnnotationsRoundTrip(a: map<string, string>)
    requires AnnotationsOk(a)
    ensures ValidateAnnotations(if a == map[] then None else Some(a)) == Ok(a)
  {
  }

  lemma ConfigRoundTrip(c: Json)
    requires Numeric(c) && NoNull(c)
    ensures ConfigOf(if c == JObj(map[]) then None else FromJson(c)) == c
  {
    FromJsonToJson(c);
  }

  /** The parts of a raw spec make up the spec. */
  lemma Assembles(raw: RawSpec, s: Spec, look: Oracle)
    requires ValidateHead(raw.version, raw.id, raw.kind) == Ok((s.id, s.kind)) && s.version == V0
    requires ValidateLayers(s.kind, raw.layers, look) == Ok(s.layers)
    requires ValidateAnnotations(raw.annotations) == Ok(s.annotations)
    requires ValidateAttestation(raw.attestation) == Ok(s.attestation)
    requires ConfigOf(raw.config) == s.config && raw.description == s.description
    requires s.platform == if raw.platform.Some? then raw.platform.value else Platform(None, None)
    ensures ValidateSpec(raw, look) == Ok(s)
  {
  }

  /** A checked and clean spec is what its own raw form validates to. */
  lemma CheckedRoundTrip(s: Spec, look: Oracle)
    requires Checked(s, look) && Clean(s)
    ensures ValidateSpec(RawOf(s), look) == Ok(s)
  {
    HeadRoundTrip(s.id, s.kind);
    LayersRoundTrip(s.kind, s.layers, look);
    AnnotationsRoundTrip(s.annotations);
    AttestationRoundTrip(s.attestation);
    ConfigRoundTrip(s.config);
    Assembles(RawOf(s), s, look);
  }

  lemma FilesU32(v: Toml)
    requires ReadFiles(v).Some?
    ensures forall f <- ReadFiles(v).value :: U32(f)
  {
    var fs := ReadFiles(v).value;
    forall f | f in fs ensures U32(f) {
      var i :| 0 <= i < |fs| && fs[i] == f;
      assert ReadFile(v.a[i]) == Some(fs[i]);
    }
  }

  predicate RawU32(l: RawLayer) { l.files.Some? ==> forall f <- l.files.value :: U32(f) }

  lemma LayerReadU32(v: Toml)
    requires ReadLayer(v).Some?
    ensures RawU32(ReadLayer(v).value)
  {
    var files := At(v.t, "files");
    if files.Some? { FilesU32(files.value); }
  }

  lemma LayersReadU32(v: Toml)
    requires ReadLayers(v).Some?
    ensures forall i :: 0 <= i < |ReadLayers(v).value| ==> RawU32(ReadLayers(v).value[i])
  {
    var ls := ReadLayers(v).value;
    forall i | 0 <= i < |ls| ensures RawU32(ls[i]) {
      assert ReadLayer(v.a[i]) == Some(ls[i]);
      LayerReadU32(v.a[i]);
    }
  }

  lemma SourcesU32(raws: seq<RawLayer>, ls: seq<Layer>)
    requires SameSources(raws, ls) && forall i :: 0 <= i < |raws| ==> RawU32(raws[i])
    ensures forall l <- ls :: LayerU32(l)
  {
    forall l | l in ls ensures LayerU32(l) {
      var i :| 0 <= i < |ls| && ls[i] == l;
      assert RawU32(raws[i]);
    }
  }

  lemma SpecReadU32(v: Toml)
    requires ReadSpec(v).Some?
    ensures forall i :: 0 <= i < |ReadSpec(v).value.layers| ==> RawU32(ReadSpec(v).value.layers[i])
  {
    LayersReadU32(At(v.t, "layers").value);
  }

  /** Everything that loads is checked, and its file modes fit 32 bits. */
  lemma LoadedIsChecked(v: Toml, look: Oracle)
    requires Load(v, look).Some?
    ensures Checked(Load(v, look).value, look) && forall l <- Load(v, look).value.layers :: LayerU32(l)
  {
    var raw := ReadSpec(v).value;
    ValidatedIsChecked(raw, look);
    SpecReadU32(v);
    SourcesU32(raw.layers, Load(v, look).value.layers);
  }

  /** A path that comes back from its normalised form had no backslash. */
  lemma LayerBackIsClean(l: Layer)
    requires SourceOf(RawLayerOf(l)) == l.source
    ensures LayerClean(l)
  {
    if l.source.Files? {
      var entries := l.source.entries;
      forall f | f in entries ensures '\\' !in f.source {
        var k :| 0 <= k < |entries| && entries[k] == f;
        assert RawFilesOf(entries)[k].source == f.source;
      }
    }
  }

  lemma BackIsClean(s: Spec)
    requires SameSources(RawLayersOf(s.layers), s.layers)
    ensures forall l <- s.layers :: LayerClean(l)
  {
    forall l | l in s.layers ensures LayerClean(l) {
      var i :| 0 <= i < |s.layers| && s.layers[i] == l;
      assert RawLayersOf(s.layers)[i] == RawLayerOf(l);
      LayerBackIsClean(l);
    }
  }

  /** For a spec with no null, reading back is validating its raw form. */
  lemma ReadBackIs(s: Spec, look: Oracle)
    requires NoNull(s.config) && forall l <- s.layers :: LayerU32(l)
    ensures ReadBack(SpecJson(s), look) ==
      (var r := ValidateSpec(RawOf(s), look); if r.Ok? then Some(r.value) else None)
  {
    SpecReads(s);
  }

  /**
   * Validate, project and read back under the same file oracle: the same spec comes back
   * exactly when no path has a backslash and the config has no null.
   */
  lemma ProjectionRoundTrip(v: Toml, look: Oracle)
    requires Load(v, look).Some?
    ensures var s := Load(v, look).value; ReadBack(SpecJson(s), look) == Some(s) <==> Clean(s)
  {
    var s := Load(v, look).value;
    LoadedIsChecked(v, look);
    if NoNull(s.config) {
      ReadBackIs(s, look);
      if Clean(s) { CheckedRoundTrip(s, look); }
      if ValidateSpec(RawOf(s), look) == Ok(s) {
        ValidatedIsChecked(RawOf(s), look);
        BackIsClean(s);
      }
    } else {
      ConfigBlocks(s);
    }
  }

  /** A null in the config has no TOML form. */
  lemma ConfigBlocks(s: Spec)
    requires !NoNull(s.config)
    ensures FromJson(SpecJson(s)).None?
  {
    SpecFields(s);
    assert Look(SpecObj(s), "config") == Some(s.config);
    assert !NoNull(SpecObj(s)["config"]);
  }

  /** Two oracles that both accept a layer make the same of it. */
  lemma LayerSame(i: nat, raw: RawLayer, look1: Oracle, look2: Oracle)
    requires ValidateLayer(i, raw, look1).Ok? && ValidateLayer(i, raw, look2).Ok?
    ensures ValidateLayer(i, raw, look1) == ValidateLayer(i, raw, look2)
  {
    assert ValidateSource(i, raw, look1) == ValidateSource(i, raw, look2);
  }

  lemma LayersSame(kind: Kind, raws: seq<RawLayer>, look1: Oracle, look2: Oracle)
    requires ValidateLayers(kind, raws, look1).Ok? && ValidateLayers(kind, raws, look2).Ok?
    ensures ValidateLayers(kind, raws, look1) == ValidateLayers(kind, raws, look2)
  {
    var ls1, ls2 := ValidateLayers(kind, raws, look1).value, ValidateLayers(kind, raws, look2).value;
    var check1, check2 := Checks(look1), Checks(look2);
    assert Collect(raws, check1) == Ok(ls1) && Collect(raws, check2) == Ok(ls2);
    forall i | 0 <= i < |raws| ensures ls1[i] == ls2[i] {
      assert check1(i, raws[i]) == Ok(ls1[i]) && check2(i, raws[i]) == Ok(ls2[i]);
      LayerSame(i, raws[i], look1, look2);
    }
    assert ls1 == ls2;
  }

  lemma SpecSame(raw: RawSpec, look1: Oracle, look2: Oracle)
    requires ValidateSpec(raw, look1).Ok? && ValidateSpec(raw, look2).Ok?
    ensures ValidateSpec(raw, look1) == ValidateSpec(raw, look2)
  {
    LayersSame(ValidateHead(raw.version, raw.id, raw.kind).value.1, raw.layers, look1, look2);
  }

  /** A clean spec is what its projection validates to. */
  lemma CleanComesBack(v: Toml, look: Oracle)
    requires Load(v, look).Some? && Clean(Load(v, look).value)
    ensures var s := Load(v, look).value;
      RawOfJson(SpecJson(s)) == Some(RawOf(s)) && ValidateSpec(RawOf(s), look) == Ok(s)
  {
    var s := Load(v, look).value;
    LoadedIsChecked(v, look);
    SpecReads(s);
    CheckedRoundTrip(s, look);
  }

  /** The raw spec a projection denotes. */
  function RawOfJson(j: Json): Option<RawSpec>
  {
    var v := FromJson(j);
    if v.Some? then ReadSpec(v.value) else None
  }

  /** Two clean specs with the same projection are the same spec, whatever files each was validated against. */
  lemma ProjectionInjective(v1: Toml, look1: Oracle, v2: Toml, look2: Oracle)
    requires Load(v1, look1).Some? && Load(v2, look2).Some?
    requires Clean(Load(v1, look1).value) && Clean(Load(v2, look2).value)
    requires SpecJson(Load(v1, look1).value) == SpecJson(Load(v2, look2).value)
    ensures Load(v1, look1) == Load(v2, look2)
  {
    CleanComesBack(v1, look1);
    CleanComesBack(v2, look2);
    SpecSame(RawOf(Load(v1, look1).value), look1, look2);
  }
}
