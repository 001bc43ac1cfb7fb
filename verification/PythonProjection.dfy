/**
 * The projection re-implemented in Python, on the same TOML tree. `None` is an exception.
 */
module PythonProjection {
  import opened Wrappers
  import opened Text
  import opened Json
  import opened Toml
  import opened Specs
  import opened Validate
  import opened Canonicalize

  type Dict = map<string, Toml>

  // ── Python's view of a value ──

  predicate Truthy(v: Toml)
  {
    match v
    case TStr(s) => s != ""
    case TInt(n) => n != 0
    case TFloat(bits) => bits % 0x8000_0000_0000_0000 != 0
    case TBool(b) => b
    case TDate(_, _) => true
    case TArr(a) => a != []
    case TTable(t) => t != map[]
  }

  /** `x or {}`, where only a table can then be read. */
  function TableOr(v: Option<Toml>): Option<Dict>
  {
    if v.None? || !Truthy(v.value) then Some(map[]) else if v.value.TTable? then Some(v.value.t) else None
  }

  /** `int(x)` of an integer or a boolean. */
  function PyInt(v: Toml): Option<int>
  {
    if v.TInt? then Some(v.n) else if v.TBool? then Some(if v.b then 1 else 0) else None
  }

  function PyOpt(v: Option<Toml>): Option<Json> { if v.Some? then Some(ToPython(v.value)) else None }

  /** `d.get(k, default)`. */
  function GetOr(d: Dict, k: string, default: string): Json { if k in d then ToPython(d[k]) else JStr(default) }

  /** `p.replace("\\", "/")`. */
  function PyNormalise(p: string): string
  {
    if p == "" then "" else [if p[0] == '\\' then '/' else p[0]] + PyNormalise(p[1..])
  }

  function PyPath(v: Option<Toml>): Option<Json>
  {
    if v.Some? && v.value.TStr? then Some(JStr(PyNormalise(v.value.s))) else None
  }

  /** `s.endswith(p)`: character by character from the end. */
  predicate PyEndsWith(s: string, p: string)
  {
    p == "" || (s != "" && s[|s| - 1] == p[|p| - 1] && PyEndsWith(s[..|s| - 1], p[..|p| - 1]))
  }

  /** `default_compression`. */
  function PyDefault(mediaType: string): string
  {
    if PyEndsWith(mediaType, "+gzip") then "gzip" else if PyEndsWith(mediaType, "+zstd") then "zstd" else "none"
  }

  // ── the parts ──

  function PyPlatform(v: Option<Toml>): Option<Option<Json>>
  {
    if v.None? then Some(None)
    else if !v.value.TTable? then None
    else
      var p := v.value.t;
      if "os" !in p && "arch" !in p then Some(None)
      else Some(Some(JObj(With(With(map[], "os", PyOpt(At(p, "os"))), "arch", PyOpt(At(p, "arch"))))))
  }

  function PyFile(f: Toml): Option<Json>
  {
    if !f.TTable? then None
    else
      var source := PyPath(At(f.t, "source"));
      var mode := if "mode" in f.t then PyInt(f.t["mode"]) else None;
      if source.None? || mode.None? || "dest" !in f.t then None
      else Some(JObj(map["source" := source.value, "dest" := ToPython(f.t["dest"]), "mode" := JInt(mode.value)]))
  }

  function PyCompression(d: Dict): Option<Json>
    requires "media_type" in d
  {
    if "compression" in d && Truthy(d["compression"]) then Some(ToPython(d["compression"]))
    else if d["media_type"].TStr? then Some(JStr(PyDefault(d["media_type"].s)))
    else None
  }

  function PyLayer(l: Toml): Option<Json>
  {
    if !l.TTable? || "media_type" !in l.t || ("files" in l.t && !l.t["files"].TArr?) then None
    else
      var d := l.t;
      var hasSource, hasFiles := "source" in d, "files" in d && d["files"].a != [];
      var compression := PyCompression(d);
      if hasSource == hasFiles || compression.None? then None
      else
        var o := map["media_type" := ToPython(d["media_type"]), "compression" := compression.value];
        if hasSource then
          var source := PyPath(Some(d["source"]));
          if source.None? then None else Some(JObj(o["source" := source.value]))
        else
          var files := All(d["files"].a, PyFile);
          if files.None? then None else Some(JObj(o["files" := JArr(files.value)]))
  }

  function PyLayers(v: Option<Toml>): Option<Json>
  {
    if v.None? then Some(JArr([]))
    else if !v.value.TArr? then None
    else
      var ls := All(v.value.a, PyLayer);
      if ls.None? then None else Some(JArr(ls.value))
  }

  function PyConfig(v: Option<Toml>): Option<Json>
  {
    if v.None? || v.value == TTable(map[]) then None else Some(ToPython(v.value))
  }

  function PyAnnotations(v: Option<Toml>): Option<Option<Json>>
  {
    if v.None? || !Truthy(v.value) then Some(None) else if v.value.TTable? then Some(Some(ToPython(v.value))) else None
  }

  function PySlsa(v: Option<Toml>): Option<Json>
  {
    var s := TableOr(v);
    if s.None? then None
    else
      var level := if "level" in s.value then PyInt(s.value["level"]) else Some(2);
      if level.None? then None
      else Some(JObj(With(map["level" := JInt(level.value)], "builder_id", PyOpt(At(s.value, "builder_id")))))
  }

  function PySbom(v: Option<Toml>): Option<Json>
  {
    var s := TableOr(v);
    if s.None? then None
    else
      Some(JObj(map["format" := GetOr(s.value, "format", "cyclonedx"), "scope" := GetOr(s.value, "scope", "layers")]))
  }

  function PySign(v: Option<Toml>): Option<Json>
  {
    var s := TableOr(v);
    if s.None? then None
    else
      Some(JObj(With(
        map["kind" := GetOr(s.value, "kind", "cosign-keyless")], "identity", PyOpt(At(s.value, "identity")))))
  }

  function PyAttestation(v: Option<Toml>): Option<Json>
  {
    var a := TableOr(v);
    if a.None? then None
    else
      var slsa, sbom, sign := PySlsa(At(a.value, "slsa")), PySbom(At(a.value, "sbom")), PySign(At(a.value, "sign"));
      if slsa.None? || sbom.None? || sign.None? then None
      else Some(JObj(map["slsa" := slsa.value, "sbom" := sbom.value, "sign" := sign.value]))
  }

  /** `project_spec`. */
  function PySpec(d: Dict): Option<Json>
  {
    var platform, layers := PyPlatform(At(d, "platform")), PyLayers(At(d, "layers"));
    var annotations, attestation := PyAnnotations(At(d, "annotations")), PyAttestation(At(d, "attestation"));
    if "spec_version" !in d || "id" !in d || "kind" !in d || platform.None? || layers.None? || annotations.None?
      || attestation.None? then
      None
    else
      var p := Parts(platform.value, layers.value, PyConfig(At(d, "config")), annotations.value, attestation.value);
      Some(JObj(Build(
        ToPython(d["spec_version"]), ToPython(d["id"]), ToPython(d["kind"]), PyOpt(At(d, "description")), p)))
  }

  // ── the code ──

  method ProjectFiles(fs: seq<Toml>) returns (r: Option<seq<Json>>)
    ensures r == All(fs, PyFile)
  {
    var files := [];
    for i := 0 to |fs|
      invariant |files| == i && forall k :: 0 <= k < i ==> PyFile(fs[k]) == Some(files[k])
    {
      var f := PyFile(fs[i]);
      if f.None? { return None; }
      files := files + [f.value];
    }
    assert All(fs, PyFile).Some? ==> All(fs, PyFile).value == files;
    r := Some(files);
  }

  method ProjectLayers(layers: seq<Toml>) returns (r: Option<seq<Json>>)
    ensures r == All(layers, PyLayer)
  {
    var out := [];
    for i := 0 to |layers|
      invariant |out| == i && forall k :: 0 <= k < i ==> PyLayer(layers[k]) == Some(out[k])
    {
      var obj := ProjectLayer(layers[i]);
      if obj.None? { return None; }
      out := out + [obj.value];
    }
    assert All(layers, PyLayer).Some? ==> All(layers, PyLayer).value == out;
    r := Some(out);
  }

  method ProjectLayer(l: Toml) returns (r: Option<Json>)
    ensures r == PyLayer(l)
  {
    if !l.TTable? || "media_type" !in l.t || ("files" in l.t && !l.t["files"].TArr?) { return None; }
    var d := l.t;
    var hasSource, hasFiles := "source" in d, "files" in d && |d["files"].a| > 0;
    if hasSource == hasFiles { return None; }
    var compression := PyCompression(d);
    if compression.None? { return None; }
    var obj: Obj := map["media_type" := ToPython(d["media_type"]), "compression" := compression.value];
    if hasSource {
      var source := PyPath(Some(d["source"]));
      if source.None? { return None; }
      obj := obj["source" := source.value];
    } else {
      var files := ProjectFiles(d["files"].a);
      if files.None? { return None; }
      obj := obj["files" := JArr(files.value)];
    }
    r := Some(JObj(obj));
  }

  method ProjectSlsa(v: Option<Toml>) returns (r: Option<Json>)
    ensures r == PySlsa(v)
  {
    var s := TableOr(v);
    if s.None? { return None; }
    var level := if "level" in s.value then PyInt(s.value["level"]) else Some(2);
    if level.None? { return None; }
    var out: Obj := map["level" := JInt(level.value)];
    if "builder_id" in s.value { out := out["builder_id" := ToPython(s.value["builder_id"])]; }
    r := Some(JObj(out));
  }

  method ProjectSign(v: Option<Toml>) returns (r: Option<Json>)
    ensures r == PySign(v)
  {
    var s := TableOr(v);
    if s.None? { return None; }
    var out: Obj := map["kind" := GetOr(s.value, "kind", "cosign-keyless")];
    if "identity" in s.value { out := out["identity" := ToPython(s.value["identity"])]; }
    r := Some(JObj(out));
  }

  method ProjectAttestation(v: Option<Toml>) returns (r: Option<Json>)
    ensures r == PyAttestation(v)
  {
    var a := TableOr(v);
    if a.None? { return None; }
    var slsa := ProjectSlsa(At(a.value, "slsa"));
    var sbom := PySbom(At(a.value, "sbom"));
    var sign := ProjectSign(At(a.value, "sign"));
    if slsa.None? || sbom.None? || sign.None? { return None; }
    r := Some(JObj(map["slsa" := slsa.value, "sbom" := sbom.value, "sign" := sign.value]));
  }

  method ProjectSpec(d: Dict) returns (r: Option<Json>)
    ensures r == PySpec(d)
  {
    if "spec_version" !in d || "id" !in d || "kind" !in d { return None; }
    var out: Obj := map["spec_version" := ToPython(d["spec_version"])];
    out := out["id" := ToPython(d["id"])];
    out := out["kind" := ToPython(d["kind"])];
    if "description" in d { out := out["description" := ToPython(d["description"])]; }
    var plat := PyPlatform(At(d, "platform"));
    if plat.None? { return None; }
    if plat.value.Some? { out := out["platform" := plat.value.value]; }
    if "layers" in d && !d["layers"].TArr? { return None; }
    var layers := ProjectLayers(if "layers" in d then d["layers"].a else []);
    if layers.None? { return None; }
    out := out["layers" := JArr(layers.value)];
    var cfg := PyConfig(At(d, "config"));
    if cfg.Some? { out := out["config" := cfg.value]; }
    var ann := PyAnnotations(At(d, "annotations"));
    if ann.None? { return None; }
    if ann.value.Some? { out := out["annotations" := ann.value.value]; }
    var att := ProjectAttestation(At(d, "attestation"));
    if att.None? { return None; }
    out := out["attestation" := att.value];
    r := Some(JObj(out));
  }

  // ── agreement ──

  lemma PlatformAgrees(v: Option<Toml>)
    requires Opt(v, ReadPlatform).Some?
    ensures var p := Opt(v, ReadPlatform).value;
      PyPlatform(v) == Some(PlatformJson(if p.Some? then p.value else Platform(None, None)))
  {
  }

  lemma {:induction false} NormaliseAgrees(p: string)
    ensures PyNormalise(p) == NormalisePath(p)
  {
    if p != "" {
      NormaliseAgrees(p[1..]);
      assert NormalisePath(p) == [if p[0] == '\\' then '/' else p[0]] + NormalisePath(p[1..]);
    }
  }

  lemma {:induction false} EndsAgree(s: string, p: string)
    ensures PyEndsWith(s, p) <==> EndsWith(s, p)
  {
    if p != "" && s != "" {
      var front, head := s[..|s| - 1], p[..|p| - 1];
      EndsAgree(front, head);
      if |p| <= |s| {
        assert p == head + [p[|p| - 1]] && s[|s| - |p|..] == front[|front| - |head|..] + [s[|s| - 1]];
      }
    }
  }

  lemma DefaultAgrees(mediaType: string)
    ensures PyDefault(mediaType) == DefaultCompression(mediaType).AsStr()
  {
    EndsAgree(mediaType, "+gzip");
    EndsAgree(mediaType, "+zstd");
  }

  lemma FileAgrees(v: Toml)
    requires ReadFile(v).Some?
    ensures PyFile(v) == Some(FileJson(ReadFile(v).value))
  {
    NormaliseAgrees(ReadFile(v).value.source);
  }

  lemma FilesAgree(v: Toml)
    requires ReadFiles(v).Some?
    ensures v.TArr? && All(v.a, PyFile).Some? && JArr(All(v.a, PyFile).value) == FilesJson(ReadFiles(v).value)
    ensures |v.a| == |ReadFiles(v).value|
  {
    var fs := ReadFiles(v).value;
    forall i | 0 <= i < |fs| ensures PyFile(v.a[i]) == Some(FileJson(fs[i])) {
      assert ReadFile(v.a[i]) == Some(fs[i]);
      FileAgrees(v.a[i]);
    }
  }

  lemma CompressionAgrees(v: Toml, i: nat, look: Oracle)
    requires ReadLayer(v).Some? && ValidateLayer(i, ReadLayer(v).value, look).Ok?
    ensures "media_type" in v.t
    ensures PyCompression(v.t) == Some(JStr(ValidateLayer(i, ReadLayer(v).value, look).value.compression.AsStr()))
  {
    var raw := ReadLayer(v).value;
    DefaultAgrees(raw.mediaType);
    if "compression" in v.t {
      assert v.t["compression"] == TStr(raw.compression.value);
      assert ParseCompression("").None?;
    }
  }

  lemma LayerAgrees(v: Toml, i: nat, look: Oracle)
    requires ReadLayer(v).Some? && ValidateLayer(i, ReadLayer(v).value, look).Ok?
    ensures PyLayer(v) == Some(LayerJson(ValidateLayer(i, ReadLayer(v).value, look).value))
  {
    CompressionAgrees(v, i, look);
    LayerIsChecked(i, ReadLayer(v).value, look);
    var raw, l := ReadLayer(v).value, ValidateLayer(i, ReadLayer(v).value, look).value;
    if raw.source.Some? {
      BlobAgrees(v, raw, l);
    } else {
      FilesLayerAgrees(v, raw, l);
    }
  }

  lemma BlobAgrees(v: Toml, raw: RawLayer, l: Layer)
    requires ReadLayer(v) == Some(raw) && raw.source.Some? && raw.files.None? && l.source == Blob(raw.source.value)
    requires "media_type" in v.t && PyCompression(v.t) == Some(JStr(l.compression.AsStr()))
    requires l.mediaType == raw.mediaType
    ensures PyLayer(v) == Some(LayerJson(l))
  {
    NormaliseAgrees(raw.source.value);
  }

  lemma FilesLayerAgrees(v: Toml, raw: RawLayer, l: Layer)
    requires ReadLayer(v) == Some(raw) && raw.source.None? && raw.files.Some? && raw.files.value != []
    requires l.source == Files(raw.files.value)
    requires "media_type" in v.t && PyCompression(v.t) == Some(JStr(l.compression.AsStr()))
    requires l.mediaType == raw.mediaType
    ensures PyLayer(v) == Some(LayerJson(l))
  {
    FilesAgree(v.t["files"]);
  }

  lemma LayersAgree(v: Toml, raws: seq<RawLayer>, ls: seq<Layer>, kind: Kind, look: Oracle)
    requires ReadLayers(v) == Some(raws) && ValidateLayers(kind, raws, look) == Ok(ls)
    ensures PyLayers(Some(v)) == Some(LayersJson(ls))
  {
    assert Collect(raws, Checks(look)) == Ok(ls) && All(v.a, ReadLayer) == Some(raws);
    EachAgrees(v.a, raws, ls, look);
    AllIs(v.a, PyLayer, LayersJson(ls).a);
  }

  lemma EachAgrees(vs: seq<Toml>, raws: seq<RawLayer>, ls: seq<Layer>, look: Oracle)
    requires |vs| == |raws| == |ls| && forall i :: 0 <= i < |vs| ==> ReadLayer(vs[i]) == Some(raws[i])
    requires forall i :: 0 <= i < |vs| ==> Checks(look)(i, raws[i]) == Ok(ls[i])
    ensures forall i :: 0 <= i < |vs| ==> PyLayer(vs[i]) == Some(LayerJson(ls[i]))
  {
    var check := Checks(look);
    forall i | 0 <= i < |vs| ensures PyLayer(vs[i]) == Some(LayerJson(ls[i])) {
      assert check(i, raws[i]) == Ok(ls[i]);
      LayerAgrees(vs[i], i, look);
    }
  }

  lemma AllIs<A>(vs: seq<Toml>, read: Toml -> Option<A>, out: seq<A>)
    requires |out| == |vs| && forall i :: 0 <= i < |vs| ==> read(vs[i]) == Some(out[i])
    ensures All(vs, read) == Some(out)
  {
    assert All(vs, read).value == out;
  }

  lemma AnnotationsAgree(v: Option<Toml>)
    requires Opt(v, ReadStrings).Some?
    ensures var a := Opt(v, ReadStrings).value;
      PyAnnotations(v) == Some(AnnotationsJson(if a.Some? then a.value else map[]))
  {
    if v.Some? && Truthy(v.value) {
      var a := ReadStrings(v.value).value;
      assert a.Keys == v.value.t.Keys;
      assert ToPython(v.value).o == AnnotationsObj(a);
    }
  }

  lemma SlsaAgrees(v: Option<Toml>)
    requires Opt(v, ReadSlsa).Some? && ValidateSlsa(Opt(v, ReadSlsa).value).Ok?
    ensures PySlsa(v) == Some(SlsaJson(ValidateSlsa(Opt(v, ReadSlsa).value).value))
  {
  }

  lemma SbomAgrees(v: Option<Toml>)
    requires Opt(v, ReadSbom).Some? && ValidateSbom(Opt(v, ReadSbom).value).Ok?
    ensures PySbom(v) == Some(SbomJson(ValidateSbom(Opt(v, ReadSbom).value).value))
  {
  }

  lemma SignAgrees(v: Option<Toml>)
    requires Opt(v, ReadSign).Some? && ValidateSign(Opt(v, ReadSign).value).Ok?
    ensures PySign(v) == Some(SignJson(ValidateSign(Opt(v, ReadSign).value).value))
  {
  }

  lemma AttestationAgrees(v: Option<Toml>)
    requires Opt(v, ReadAttestation).Some? && ValidateAttestation(Opt(v, ReadAttestation).value).Ok?
    ensures PyAttestation(v) == Some(AttestationJson(ValidateAttestation(Opt(v, ReadAttestation).value).value))
  {
    if v.Some? {
      TablesAgree(v.value);
    } else {
      SlsaAgrees(None);
      SbomAgrees(None);
      SignAgrees(None);
    }
  }

  lemma TablesAgree(v: Toml)
    requires ReadAttestation(v).Some? && ValidateAttestation(Some(ReadAttestation(v).value)).Ok?
    ensures PyAttestation(Some(v)) == Some(AttestationJson(ValidateAttestation(Some(ReadAttestation(v).value)).value))
  {
    var slsa, sbom, sign := At(v.t, "slsa"), At(v.t, "sbom"), At(v.t, "sign");
    SlsaAgrees(slsa);
    SbomAgrees(sbom);
    SignAgrees(sign);
    ThreeAgree(v, PySlsa(slsa), PySbom(sbom), PySign(sign));
  }

  lemma ThreeAgree(v: Toml, slsa: Option<Json>, sbom: Option<Json>, sign: Option<Json>)
    requires v.TTable? && slsa.Some? && sbom.Some? && sign.Some?
    requires slsa == PySlsa(At(v.t, "slsa")) && sbom == PySbom(At(v.t, "sbom")) && sign == PySign(At(v.t, "sign"))
    ensures PyAttestation(Some(v)) == Some(JObj(map["slsa" := slsa.value, "sbom" := sbom.value, "sign" := sign.value]))
  {
  }

  lemma ConfigAgrees(v: Option<Toml>)
    ensures PyConfig(v) == ConfigJson(ConfigOf(v)) <==> (v.Some? ==> Portable(v.value))
  {
    if v.Some? {
      ProjectionsAgree(v.value);
      if v.value.TTable? && ToJson(v.value).o == map[] {
        assert v.value.t.Keys == ToJson(v.value).o.Keys;
        assert v.value == TTable(map[]);
      }
    }
  }

  /** The nested fields can be read off a spec object. */
  lemma BuildInjective(version: Json, id: Json, kind: Json, description: Option<Json>, p: Parts, p': Parts)
    requires Build(version, id, kind, description, p) == Build(version, id, kind, description, p')
    ensures p == p'
  {
    BuildFields(version, id, kind, description, p);
    BuildFields(version, id, kind, description, p');
  }

  /** The nested fields as Python projects them. */
  function PyParts(d: Dict, s: Spec): Parts { PartsOf(s).(config := PyConfig(At(d, "config"))) }

  /** What a raw spec says of its tree. */
  lemma ReadParts(v: Toml, raw: RawSpec)
    requires ReadSpec(v) == Some(raw)
    ensures v.TTable? && Opt(At(v.t, "platform"), ReadPlatform) == Some(raw.platform)
    ensures At(v.t, "layers").Some? && ReadLayers(At(v.t, "layers").value) == Some(raw.layers)
    ensures Opt(At(v.t, "annotations"), ReadStrings) == Some(raw.annotations)
    ensures Opt(At(v.t, "attestation"), ReadAttestation) == Some(raw.attestation)
  {
  }

  /** What a validated spec says of its raw form. */
  lemma ValidatedParts(raw: RawSpec, look: Oracle, s: Spec)
    requires ValidateSpec(raw, look) == Ok(s)
    ensures s.platform == (if raw.platform.Some? then raw.platform.value else Platform(None, None))
    ensures ValidateLayers(s.kind, raw.layers, look) == Ok(s.layers)
    ensures s.annotations == (if raw.annotations.Some? then raw.annotations.value else map[])
    ensures ValidateAttestation(raw.attestation) == Ok(s.attestation)
  {
    AnnotationsKept(raw.annotations);
  }

  lemma AnnotationsKept(raw: Option<map<string, string>>)
    requires ValidateAnnotations(raw).Ok?
    ensures ValidateAnnotations(raw).value == if raw.Some? then raw.value else map[]
  {
  }

  /** Everything but the config is projected alike. */
  lemma PartsAgree(v: Toml, look: Oracle)
    requires Load(v, look).Some?
    ensures v.TTable? && var d, s := v.t, Load(v, look).value;
      && PyPlatform(At(d, "platform")) == Some(PlatformJson(s.platform))
        && PyLayers(At(d, "layers")) == Some(LayersJson(s.layers))
      && PyAnnotations(At(d, "annotations")) == Some(AnnotationsJson(s.annotations))
      && PyAttestation(At(d, "attestation")) == Some(AttestationJson(s.attestation))
  {
    var raw, s := ReadSpec(v).value, Load(v, look).value;
    ReadParts(v, raw);
    ValidatedParts(raw, look, s);
    PlatformAgrees(At(v.t, "platform"));
    LayersAgree(At(v.t, "layers").value, raw.layers, s.layers, s.kind, look);
    AnnotationsAgree(At(v.t, "annotations"));
    AttestationAgrees(At(v.t, "attestation"));
  }

  /** The plain fields are strings and stay themselves. */
  lemma HeadAgrees(v: Toml, look: Oracle)
    requires Load(v, look).Some?
    ensures v.TTable? && var d, s := v.t, Load(v, look).value;
      && At(d, "spec_version") == Some(TStr(s.version.AsStr())) && At(d, "id") == Some(TStr(s.id.Form()))
      && At(d, "kind") == Some(TStr(s.kind.AsStr())) && PyOpt(At(d, "description")) == OptStr(s.description)
      && s.config == ConfigOf(At(d, "config"))
  {
    var raw := ReadSpec(v).value;
    var s := Load(v, look).value;
    assert ValidateHead(raw.version, raw.id, raw.kind) == Ok((s.id, s.kind));
    assert ParseKind(raw.kind) == Some(s.kind);
    assert ParseId(raw.id) == Ok(s.id);
    assert raw.id == s.id.name + [':'] + s.id.tag;
  }

  lemma PySpecIs(d: Dict, version: string, id: string, kind: string, description: Option<string>, p: Parts)
    requires At(d, "spec_version") == Some(TStr(version)) && At(d, "id") == Some(TStr(id))
    requires At(d, "kind") == Some(TStr(kind))
    requires PyOpt(At(d, "description")) == OptStr(description) && PyConfig(At(d, "config")) == p.config
    requires PyPlatform(At(d, "platform")) == Some(p.platform) && PyLayers(At(d, "layers")) == Some(p.layers)
    requires PyAnnotations(At(d, "annotations")) == Some(p.annotations)
    requires PyAttestation(At(d, "attestation")) == Some(p.attestation)
    ensures PySpec(d) == Some(JObj(Build(JStr(version), JStr(id), JStr(kind), OptStr(description), p)))
  {
  }

  lemma PySpecOf(v: Toml, look: Oracle)
    requires Load(v, look).Some?
    ensures v.TTable? && var s := Load(v, look).value;
      PySpec(v.t) ==
        Some(JObj(Build(
          JStr(s.version.AsStr()), JStr(s.id.Form()), JStr(s.kind.AsStr()), OptStr(s.description), PyParts(v.t, s))))
  {
    var s := Load(v, look).value;
    PartsAgree(v, look);
    HeadAgrees(v, look);
    PySpecIs(v.t, s.version.AsStr(), s.id.Form(), s.kind.AsStr(), s.description, PyParts(v.t, s));
  }

  /**
   * On every tree that validates, the two projections agree exactly when the config has no
   * non-finite float and no date-time that the two languages print differently.
   */
  lemma PythonAgrees(v: Toml, look: Oracle)
    requires Load(v, look).Some?
    ensures v.TTable? && PySpec(v.t).Some?
    ensures PySpec(v.t) == Some(SpecJson(Load(v, look).value)) <==> ("config" in v.t ==> Portable(v.t["config"]))
  {
    var s := Load(v, look).value;
    PySpecOf(v, look);
    HeadAgrees(v, look);
    ConfigAgrees(At(v.t, "config"));
    if PySpec(v.t) == Some(SpecJson(s)) {
      BuildInjective(JStr(s.version.AsStr()), JStr(s.id.Form()), JStr(s.kind.AsStr()), OptStr(s.description),
        PyParts(v.t, s), PartsOf(s));
    }
  }
}
