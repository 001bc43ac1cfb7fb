/**
 * What a verdict of `verify` says about the bytes in the directory: rules written out on the
 * JSON of referrers, statements and SBOMs, and the verdict that follows them.
 */
module VerdictFacts {
  import opened Wrappers
  import opened Text
  import opened Json
  import opened Oci
  import Specs
  import opened ImageDirs
  import opened Attest
  import opened VerifyEngine

  // ── provenance ──

  /** Some element of `subject` has a `digest` object that maps some algorithm to this hex. */
  ghost predicate About(j: Json, hex: string)
  {
    exists subjects, i, digests, algorithm ::
      && HasField(j, "subject", JArr(subjects)) && 0 <= i < |subjects|
      && HasField(subjects[i], "digest", JObj(digests)) && algorithm in digests && digests[algorithm] == JStr(hex)
  }

  /** The external parameters of the build. */
  ghost predicate HasParameters(j: Json, ps: Json)
  {
    exists p, b ::
      HasField(j, "predicate", p) && HasField(p, "buildDefinition", b) && HasField(b, "externalParameters", ps)
  }

  /** The string at `predicate.runDetails.builder.id`. */
  ghost predicate BuiltBy(j: Json, id: string)
  {
    exists p, d, b ::
      && HasField(j, "predicate", p) && HasField(p, "runDetails", d)
      && HasField(d, "builder", b) && HasField(b, "id", JStr(id))
  }

  predicate Claims(ps: Json, level: int)
  {
    HasField(ps, "claimed_slsa_level", JInt(level)) && -0x8000_0000_0000_0000 <= level < 0x8000_0000_0000_0000
  }

  /** What a statement says; without a builder it is unknown, without a level that fits an `i64` it is 0. */
  ghost predicate Tells(j: Json, info: SlsaInfo)
  {
    && (exists ps ::
          && HasParameters(j, ps) && HasField(ps, "spec_hash", JStr(info.specHash))
          && (Claims(ps, info.claimedLevel) || (info.claimedLevel == 0 && forall n :: !Claims(ps, n))))
    && (BuiltBy(j, info.builderId) || (info.builderId == "<unknown>" && forall id :: !BuiltBy(j, id)))
  }

  /** The bytes are an in-toto provenance statement about this hex digest, and say this. */
  ghost predicate Provenance(c: Codec, data: Bytes, hex: string, info: SlsaInfo)
  {
    exists j :: c.parse(data) == Some(j) && ProvenanceOf(j, hex, info)
  }

  ghost predicate ProvenanceOf(j: Json, hex: string, info: SlsaInfo)
  {
    HasField(j, "predicateType", JStr("https://slsa.dev/provenance/v1")) && About(j, hex) && Tells(j, info)
  }

  lemma SubjectsAbout(j: Json, hex: string)
    ensures About(j, hex) <==>
      (var s := Field(j, "subject"); s.Some? && s.value.JArr? && SubjectNamed(s.value.a, hex))
  {
    if About(j, hex) {
      var subjects, i, digests, algorithm :|
        && HasField(j, "subject", JArr(subjects)) && 0 <= i < |subjects|
        && HasField(subjects[i], "digest", JObj(digests)) && algorithm in digests && digests[algorithm] == JStr(hex);
      assert Carries(Strings(Field(subjects[i], "digest")), hex);
    }
    var s := Field(j, "subject");
    if s.Some? && s.value.JArr? && SubjectNamed(s.value.a, hex) {
      var i :| 0 <= i < |s.value.a| && Carries(Strings(Field(s.value.a[i], "digest")), hex);
      var digests := Strings(Field(s.value.a[i], "digest"));
      assert HasField(j, "subject", JArr(s.value.a)) && HasField(s.value.a[i], "digest", JObj(digests));
    }
  }

  /** A path of three fields. */
  lemma ThreeFields(j: Json, a: string, b: string, d: string, v: Json)
    ensures Walked(j, [a, b, d]) == Some(v) <==>
      exists p, q :: HasField(j, a, p) && HasField(p, b, q) && HasField(q, d, v)
  {
    assert [a, b, d][1..] == [b, d] && [b, d][1..] == [d] && [d][1..] == [];
    if Walked(j, [a, b, d]) == Some(v) {
      var p := Field(j, a).value;
      assert Walked(j, [a, b, d]) == Walked(p, [b, d]);
      var q := Field(p, b).value;
      assert Walked(p, [b, d]) == Walked(q, [d]);
      assert Field(q, d).Some? && Walked(q, [d]) == Walked(Field(q, d).value, []);
      assert HasField(j, a, p) && HasField(p, b, q) && HasField(q, d, v);
    }
    if p, q :| HasField(j, a, p) && HasField(p, b, q) && HasField(q, d, v) {
      assert Walked(q, [d]) == Walked(v, []);
      assert Walked(p, [b, d]) == Walked(q, [d]);
      assert Walked(j, [a, b, d]) == Walked(p, [b, d]);
    }
  }

  lemma ParametersRead(j: Json)
    ensures forall ps :: HasParameters(j, ps) <==> Walked(j, PARAMETERS) == Some(ps)
  {
    forall ps ensures HasParameters(j, ps) <==> Walked(j, PARAMETERS) == Some(ps) {
      ThreeFields(j, "predicate", "buildDefinition", "externalParameters", ps);
    }
  }

  lemma BuilderRead(j: Json)
    ensures forall id :: BuiltBy(j, id) <==> StrOf(Walked(j, BUILDER_ID)) == Some(id)
  {
    assert BUILDER_ID[1..] == ["runDetails", "builder", "id"];
    forall id ensures BuiltBy(j, id) <==> Walked(j, BUILDER_ID) == Some(JStr(id)) {
      var f := Field(j, "predicate");
      if f.Some? {
        assert Walked(j, BUILDER_ID) == Walked(f.value, BUILDER_ID[1..]);
        ThreeFields(f.value, "runDetails", "builder", "id", JStr(id));
        assert HasField(j, "predicate", f.value);
      }
    }
  }

  lemma LevelRead(ps: Json, n: int)
    ensures LevelOf(Field(ps, "claimed_slsa_level")) == n <==> Claims(ps, n) || (n == 0 && forall m :: !Claims(ps, m))
  {
    var f := Field(ps, "claimed_slsa_level");
    if f.Some? && f.value.JInt? {
      var m := f.value.n;
      assert HasField(ps, "claimed_slsa_level", JInt(m));
      assert -0x8000_0000_0000_0000 <= m < 0x8000_0000_0000_0000 ==> Claims(ps, m);
    }
  }

  lemma InfoRead(j: Json, info: SlsaInfo)
    ensures InfoOf(j) == Some(info) <==> Tells(j, info)
  {
    ParametersRead(j);
    BuilderRead(j);
    var ep := Walked(j, PARAMETERS);
    if ep.Some? {
      LevelRead(ep.value, info.claimedLevel);
      FieldHolds(ep.value, "spec_hash");
      assert HasParameters(j, ep.value);
    }
  }

  /** A statement is accepted, with what it says, exactly when it is sound provenance about this manifest. */
  lemma StatementExactly(c: Codec, data: Bytes, hex: string)
    ensures forall info :: Statement(c, data, DigestText(hex)) == Ok(info) <==> Provenance(c, data, hex, info)
    ensures Statement(c, data, DigestText(hex)).Err? ==> Statement(c, data, DigestText(hex)) == Err(SlsaMalformed)
  {
    HexPartOf(hex);
    var j := c.parse(data);
    if j.Some? {
      FieldHolds(j.value, "predicateType");
      SubjectsAbout(j.value, hex);
      forall info ensures InfoOf(j.value) == Some(info) <==> Tells(j.value, info) { InfoRead(j.value, info); }
    }
    forall info ensures Statement(c, data, DigestText(hex)) == Ok(info) <==> Provenance(c, data, hex, info) { }
  }

  /** What was emitted for another manifest is refused. */
  lemma ForeignStatement(c: Codec, a: BuiltArtifact, cfg: Specs.SlsaConfig, hex: string)
    requires c.Lawful() && hex != a.manifestHex
    ensures Statement(c, c.compact(StatementJson(a, cfg)), DigestText(hex)) == Err(SlsaMalformed)
  {
    var j := StatementJson(a, cfg);
    assert c.parse(c.compact(j)) == Some(j);
    StatementExactly(c, c.compact(j), hex);
    OneSubject(j, SubjectJson(a).a[0], a.manifestHex, hex);
  }

  lemma OneSubject(j: Json, subject: Json, mine: string, hex: string)
    requires HasField(j, "subject", JArr([subject])) && HasField(subject, "digest", JObj(map["sha256" := JStr(mine)]))
    requires hex != mine
    ensures !About(j, hex)
  {
  }

  // ── SBOMs ──

  /** The bytes are JSON and name the format their type names. */
  ghost predicate SbomSound(c: Codec, t: string, data: Bytes)
  {
    exists j ::
      && c.parse(data) == Some(j)
      && (Contains(t, "cyclonedx") ==> HasField(j, "bomFormat", JStr("CycloneDX")))
      && (!Contains(t, "cyclonedx") && Contains(t, "spdx") ==>
            exists v :: HasField(j, "spdxVersion", JStr(v)) && "SPDX-" <= v)
  }

  lemma SbomExactly(c: Codec, t: string, g: string, data: Bytes)
    ensures SbomVerdict(c, Some((t, g, data))) ==
      if SbomSound(c, t, data) then Ok(Found(t + ", blob=" + g)) else Err(MalformedBlob("<sbom>"))
  {
    var j := c.parse(data);
    if j.Some? {
      FieldHolds(j.value, "bomFormat");
      FieldHolds(j.value, "spdxVersion");
    }
  }

  // ── classes of payloads ──

  predicate InToto(t: string) { t == "application/vnd.in-toto+json" }

  const SIGNATURE_TYPE := "application/vnd.dev.cosign.simplesigning.v1+json"

  predicate IsSbom(t: string) { t != SIGNATURE_TYPE && (Contains(t, "cyclonedx") || Contains(t, "spdx")) }

  predicate IsSignature(t: string) { t == SIGNATURE_TYPE || (Contains(t, "cosign") && !IsSbom(t)) }

  /** The exact types of the other pillars are among those the substrings recognise. */
  lemma ClassifiedExactly(t: string)
    ensures Classify(t) ==
      if InToto(t) then Slsa else if IsSbom(t) then Sbom else if IsSignature(t) then Sig else Unknown
    ensures InToto(t) ==> !IsSbom(t) && !IsSignature(t)
  {
    TypesApart();
  }

  lemma TypesApart()
    ensures !Contains(IN_TOTO, "cyclonedx") && !Contains(IN_TOTO, "spdx") && !Contains(IN_TOTO, "cosign")
    ensures Contains(CYCLONEDX_JSON, "cyclonedx") && Contains(SPDX_JSON, "spdx")
  {
    assert OccursAt(CYCLONEDX_JSON, "cyclonedx", 16) && OccursAt(SPDX_JSON, "spdx", 12);
    forall i: nat | i <= |IN_TOTO|
      ensures !OccursAt(IN_TOTO, "cyclonedx", i) && !OccursAt(IN_TOTO, "spdx", i) && !OccursAt(IN_TOTO, "cosign", i)
    {
      PairMissing(IN_TOTO, "cyclonedx", i);
      PairMissing(IN_TOTO, "spdx", i);
      PairMissing(IN_TOTO, "cosign", i);
    }
  }

  /** A string without the first two characters of `p` in a row does not contain `p`. */
  lemma PairMissing(t: string, p: string, i: nat)
    requires |p| >= 2 && forall k :: 0 <= k < |t| - 1 && t[k] == p[0] ==> t[k + 1] != p[1]
    ensures !OccursAt(t, p, i)
  {
    if i + |p| <= |t| { assert t[i..i + |p|][0] == t[i] && t[i..i + |p|][1] == t[i + 1]; }
  }

  // ── what a referrer carries ──

  ghost predicate LayerShaped(l: Json)
  {
    (exists mt :: HasField(l, "mediaType", JStr(mt))) && (exists g :: HasField(l, "digest", JStr(g)))
    && exists n :: HasField(l, "size", JInt(n)) && 0 <= n < 0x1_0000_0000_0000_0000
  }

  /** The type and the layers of a referrer manifest; both may be left out. */
  ghost predicate ReferrerShaped(m: Json, t: Option<string>, layers: seq<Json>)
  {
    && m.JObj?
    && (if t.Some? then HasField(m, "artifactType", JStr(t.value))
        else "artifactType" !in m.o || HasField(m, "artifactType", JNull))
    && (if "layers" in m.o then HasField(m, "layers", JArr(layers)) else layers == [])
    && forall i :: 0 <= i < |layers| ==> LayerShaped(layers[i])
  }

  /** The type of a payload: the manifest's, else the index entry's, else the layer's. */
  predicate TypeIs(t: Option<string>, d: Descriptor, layer: Json, it: string)
  {
    if t.Some? then it == t.value
    else if d.artifactType.Some? then it == d.artifactType.value
    else HasField(layer, "mediaType", JStr(it))
  }

  /** The payload of a referrer is its first layer. */
  predicate PayloadIs(dir: Files, d: Descriptor, t: Option<string>, layers: seq<Json>, x: Carried)
  {
    match x
    case Nothing => layers == []
    case Something(it, g, data) =>
      && layers != [] && TypeIs(t, d, layers[0], it) && HasField(layers[0], "digest", JStr(g))
      && BlobBytes(dir, g) == Some(data)
  }

  ghost predicate Carrying(c: Codec, dir: Files, d: Descriptor, x: Carried)
  {
    var b := BlobBytes(dir, d.digest);
    b.Some? && exists m, t, layers ::
      c.parse(b.value) == Some(m) && ReferrerShaped(m, t, layers) && PayloadIs(dir, d, t, layers, x)
  }

  lemma LayerDecodes(l: Json)
    ensures DecodeLayer(l).Some? <==> LayerShaped(l)
    ensures DecodeLayer(l).Some? ==>
      HasField(l, "mediaType", JStr(DecodeLayer(l).value.0)) && HasField(l, "digest", JStr(DecodeLayer(l).value.1))
  {
    FieldHolds(l, "mediaType");
    FieldHolds(l, "digest");
    FieldHolds(l, "size");
  }

  lemma ManifestDecodes(m: Json, t: Option<string>, layers: seq<Json>)
    requires ReferrerShaped(m, t, layers)
    ensures var r := DecodeRefManifest(m);
      && r.Some? && r.value.artifactType == t && |r.value.layers| == |layers|
      && forall i :: 0 <= i < |layers| ==> DecodeLayer(layers[i]) == Some(r.value.layers[i])
  {
    forall i | 0 <= i < |layers| ensures DecodeLayer(layers[i]).Some? { LayerDecodes(layers[i]); }
    assert Every(layers, DecodeLayer).Some?;
  }

  lemma DecodedShaped(m: Json) returns (layers: seq<Json>)
    requires DecodeRefManifest(m).Some?
    ensures ReferrerShaped(m, DecodeRefManifest(m).value.artifactType, layers)
    ensures |layers| == |DecodeRefManifest(m).value.layers|
  {
    layers := if "layers" in m.o then m.o["layers"].a else [];
    forall i | 0 <= i < |layers| ensures LayerShaped(layers[i]) {
      LayerDecodes(layers[i]);
    }
  }

  /** A referrer is read as what it carries, and refused when it carries nothing that reads. */
  lemma ReferrerExactly(c: Codec, dir: Files, d: Descriptor)
    ensures forall x :: ReadReferrer(c, dir, d) == Ok(x) <==> Carrying(c, dir, d, x)
  {
    var r := ReadReferrer(c, dir, d);
    if r.Ok? { ReadCarries(c, dir, d); }
    forall x | Carrying(c, dir, d, x) ensures r == Ok(x) { CarryingReads(c, dir, d, x); }
  }

  lemma ReadCarries(c: Codec, dir: Files, d: Descriptor)
    requires ReadReferrer(c, dir, d).Ok?
    ensures Carrying(c, dir, d, ReadReferrer(c, dir, d).value)
  {
    var m := c.parse(BlobBytes(dir, d.digest).value).value;
    var layers := DecodedShaped(m);
    var t := DecodeRefManifest(m).value.artifactType;
    ManifestDecodes(m, t, layers);
    if layers != [] { LayerDecodes(layers[0]); }
    assert ReferrerShaped(m, t, layers);
  }

  lemma CarryingReads(c: Codec, dir: Files, d: Descriptor, x: Carried)
    requires Carrying(c, dir, d, x)
    ensures ReadReferrer(c, dir, d) == Ok(x)
  {
    var m, t, layers :|
      c.parse(BlobBytes(dir, d.digest).value) == Some(m) && ReferrerShaped(m, t, layers)
      && PayloadIs(dir, d, t, layers, x);
    ManifestDecodes(m, t, layers);
    if layers != [] { LayerDecodes(layers[0]); }
  }

  // ── the payload that counts ──

  predicate OfType(x: Carried, kind: string -> bool) { x.Something? && kind(x.artifactType) }

  /** The last payload of a class. */
  ghost predicate Last(xs: seq<Carried>, kind: string -> bool, x: Carried)
  {
    exists i :: 0 <= i < |xs| && xs[i] == x && OfType(x, kind) && forall k :: i < k < |xs| ==> !OfType(xs[k], kind)
  }

  ghost predicate Absent(xs: seq<Carried>, kind: string -> bool) { forall x <- xs :: !OfType(x, kind) }

  lemma LastOnly(xs: seq<Carried>, kind: string -> bool, x: Carried, y: Carried)
    requires Last(xs, kind, x)
    ensures !Absent(xs, kind) && (Last(xs, kind, y) ==> x == y)
  {
  }

  lemma LastStep(xs: seq<Carried>, kind: string -> bool)
    requires xs != []
    ensures var front, x := xs[..|xs| - 1], xs[|xs| - 1];
      && (OfType(x, kind) ==> Last(xs, kind, x) && !Absent(xs, kind))
      && (!OfType(x, kind) ==>
        (Absent(xs, kind) <==> Absent(front, kind)) && forall y :: Last(front, kind, y) ==> Last(xs, kind, y))
  {
    var n := |xs| - 1;
    var front, x := xs[..n], xs[n];
    assert xs == front + [x];
    if !OfType(x, kind) {
      forall y | Last(front, kind, y) ensures Last(xs, kind, y) {
        var i :| 0 <= i < n && front[i] == y && OfType(y, kind) && forall k :: i < k < n ==> !OfType(front[k], kind);
        assert xs[i] == y && forall k :: i < k < |xs| ==> !OfType(xs[k], kind);
      }
    }
  }

  /** The slot of a class holds its last payload. */
  ghost predicate Holding(xs: seq<Carried>, s: Slots)
  {
    && (match s.slsa
        case None => Absent(xs, InToto)
        case Some((g, data)) => exists t :: Last(xs, InToto, Something(t, g, data)))
    && (match s.sbom
        case None => Absent(xs, IsSbom)
        case Some((t, g, data)) => Last(xs, IsSbom, Something(t, g, data)))
    && (match s.sig
        case None => Absent(xs, IsSignature)
        case Some((g, data)) => exists t :: Last(xs, IsSignature, Something(t, g, data)))
  }

  lemma {:induction false} SlotsHold(xs: seq<Carried>)
    ensures Holding(xs, PlaceAll(xs, NO_SLOTS))
  {
    if xs != [] {
      var n := |xs| - 1;
      SlotsHold(xs[..n]);
      LastStep(xs, InToto);
      LastStep(xs, IsSbom);
      LastStep(xs, IsSignature);
      if xs[n].Something? { ClassifiedExactly(xs[n].artifactType); }
    }
  }

  // ── the verdict ──

  /** What the referrers carry, one by one. */
  ghost predicate Payloads(c: Codec, dir: Files, ds: seq<Descriptor>, xs: seq<Carried>)
  {
    |xs| == |ds| && forall i :: 0 <= i < |ds| ==> Carrying(c, dir, ds[i], xs[i])
  }

  /** The last statement, if there is one, kind provenance about the primary. */
  ghost predicate StatementOk(c: Codec, xs: seq<Carried>, hex: string)
  {
    forall x {:trigger Last(xs, InToto, x)} :: Last(xs, InToto, x) ==> exists info :: Provenance(c, x.data, hex, info)
  }

  /** The last SBOM, if there is one, has the format of its type. */
  ghost predicate FormatOk(c: Codec, xs: seq<Carried>)
  {
    forall x {:trigger Last(xs, IsSbom, x)} :: Last(xs, IsSbom, x) ==> SbomSound(c, x.artifactType, x.data)
  }

  /** The report says what was found, and with what the last payload of each class says. */
  ghost predicate Reported(c: Codec, check: CosignVerify, hex: string, xs: seq<Carried>, report: VerifyReport)
  {
    && report.manifestDigest == DigestText(hex)
    && SlsaReported(c, hex, xs, report.slsa)
    && (if Absent(xs, IsSbom) then report.sbom == Missing
        else exists x :: Last(xs, IsSbom, x) && report.sbom == Found(x.artifactType + ", blob=" + x.digest))
    && SignatureReported(check, hex, xs, report.signature)
  }

  ghost predicate SlsaReported(c: Codec, hex: string, xs: seq<Carried>, v: PillarVerdict)
  {
    if Absent(xs, InToto) then v == Missing
    else exists x, info ::
      && Last(xs, InToto, x) && Provenance(c, x.data, hex, info)
      && v == Found(
           "SLSA in-toto v1, builder=" + info.builderId + ", spec_hash=" + info.specHash + ", blob=" + x.digest)
  }

  ghost predicate SignatureReported(check: CosignVerify, hex: string, xs: seq<Carried>, v: PillarVerdict)
  {
    if Absent(xs, IsSignature) then v == Missing
    else exists x ::
      && Last(xs, IsSignature, x)
      && if check(DigestText(hex), x.data).VerifiedAndRecorded? then v.Found? else v.Failed?
  }

  lemma SlsaJudged(c: Codec, hex: string, xs: seq<Carried>, s: Slots)
    requires Holding(xs, s)
    ensures var r := SlsaVerdict(c, s.slsa, DigestText(hex));
      && (r.Ok? <==> StatementOk(c, xs, hex)) && (r.Ok? ==> SlsaReported(c, hex, xs, r.value))
      && (r.Err? ==> r == Err(SlsaMalformed))
  {
    if s.slsa.Some? {
      var (g, data) := s.slsa.value;
      var t :| Last(xs, InToto, Something(t, g, data));
      forall y ensures Last(xs, InToto, y) ==> y == Something(t, g, data) {
        LastOnly(xs, InToto, Something(t, g, data), y);
      }
      StatementExactly(c, data, hex);
      var r := Statement(c, data, DigestText(hex));
      if r.Ok? { assert Provenance(c, data, hex, r.value); }
      LastOnly(xs, InToto, Something(t, g, data), Something(t, g, data));
    } else {
      NoLast(xs, InToto);
    }
  }

  lemma NoLast(xs: seq<Carried>, kind: string -> bool)
    requires Absent(xs, kind)
    ensures forall x :: !Last(xs, kind, x)
  {
  }

  lemma SbomJudged(c: Codec, xs: seq<Carried>, s: Slots)
    requires Holding(xs, s)
    ensures var r := SbomVerdict(c, s.sbom);
      && (r.Ok? <==> FormatOk(c, xs)) && (r.Err? ==> r == Err(MalformedBlob("<sbom>")))
      && (r.Ok? ==>
        if Absent(xs, IsSbom) then r.value == Missing
        else exists x :: Last(xs, IsSbom, x) && r.value == Found(x.artifactType + ", blob=" + x.digest))
  {
    if s.sbom.Some? {
      var (t, g, data) := s.sbom.value;
      var x := Something(t, g, data);
      forall y ensures Last(xs, IsSbom, y) ==> y == x { LastOnly(xs, IsSbom, x, y); }
      LastOnly(xs, IsSbom, x, x);
      SbomExactly(c, t, g, data);
    } else {
      NoLast(xs, IsSbom);
    }
  }

  lemma SignatureJudged(check: CosignVerify, hex: string, xs: seq<Carried>, s: Slots)
    requires Holding(xs, s)
    ensures SignatureReported(check, hex, xs, SignatureVerdict(check, s.sig, DigestText(hex)))
  {
    if s.sig.Some? {
      var (g, data) := s.sig.value;
      var t :| Last(xs, IsSignature, Something(t, g, data));
      LastOnly(xs, IsSignature, Something(t, g, data), Something(t, g, data));
    }
  }

  /** The report on what the referrers carry. */
  lemma Judged(c: Codec, check: CosignVerify, hex: string, xs: seq<Carried>, s: Slots)
    requires Holding(xs, s)
    ensures var r := Judge(c, check, s, DigestText(hex));
      && (r.Ok? <==> StatementOk(c, xs, hex) && FormatOk(c, xs)) && (r.Ok? ==> Reported(c, check, hex, xs, r.value))
      && (!StatementOk(c, xs, hex) ==> r == Err(SlsaMalformed))
      && (StatementOk(c, xs, hex) && !FormatOk(c, xs) ==> r == Err(MalformedBlob("<sbom>")))
  {
    SlsaJudged(c, hex, xs, s);
    SbomJudged(c, xs, s);
    SignatureJudged(check, hex, xs, s);
  }

  // ── the policy ──

  /** Some statement counts, and it says this. */
  ghost predicate Told(c: Codec, hex: string, xs: seq<Carried>, info: SlsaInfo)
  {
    exists x :: Last(xs, InToto, x) && Provenance(c, x.data, hex, info)
  }

  /** Every gate of the policy, read off the payloads. */
  ghost predicate GatesOpen(c: Codec, check: CosignVerify, hex: string, xs: seq<Carried>, p: Policy)
  {
    && (p.slsaMinLevel.Some? ==> exists info :: Told(c, hex, xs, info) && info.claimedLevel >= p.slsaMinLevel.value)
    && (p.builderId.Some? ==> exists info :: Told(c, hex, xs, info) && info.builderId == p.builderId.value)
    && (p.requireSignature ==> exists x ::
          Last(xs, IsSignature, x) && check(DigestText(hex), x.data).VerifiedAndRecorded?)
    && (p.sbomFormats.Some? ==> exists x, f ::
          Last(xs, IsSbom, x) && f in p.sbomFormats.value && Contains(x.artifactType + ", blob=" + x.digest, f))
  }

  predicate NoneOccurs(s: string, fs: seq<string>) { forall f <- fs :: !Contains(s, f) }

  /** The gate an error names is shut. */
  ghost predicate GateShut(c: Codec, check: CosignVerify, hex: string, xs: seq<Carried>, p: Policy, e: VerifyError)
  {
    match e
    case SlsaMissing => p.slsaMinLevel.Some? && Absent(xs, InToto)
    case SignatureMissing => p.requireSignature && Absent(xs, IsSignature)
    case SignatureInvalid(_) => p.requireSignature && exists x ::
      Last(xs, IsSignature, x) && !check(DigestText(hex), x.data).VerifiedAndRecorded?
    case SbomMissing => p.sbomFormats.Some? && Absent(xs, IsSbom)
    case PolicyViolation(rule) =>
      || (rule == "slsa.level" && p.slsaMinLevel.Some? &&
            exists info :: Told(c, hex, xs, info) && info.claimedLevel < p.slsaMinLevel.value)
      || (rule == "sign.builder_id" && p.builderId.Some? &&
            (Absent(xs, InToto) || exists info :: Told(c, hex, xs, info) && info.builderId != p.builderId.value))
      || (rule == "sbom.format" && p.sbomFormats.Some? &&
            exists x :: Last(xs, IsSbom, x) && NoneOccurs(x.artifactType + ", blob=" + x.digest, p.sbomFormats.value))
    case _ => false
  }

  /** The statement a policy is applied to is the one that counts. */
  lemma InfoTold(c: Codec, hex: string, xs: seq<Carried>, s: Slots)
    requires Holding(xs, s) && StatementOk(c, xs, hex)
    ensures var i := SlotInfo(c, s.slsa, DigestText(hex));
      && (i.None? <==> Absent(xs, InToto)) && forall info :: Told(c, hex, xs, info) <==> i == Some(info)
  {
    if s.slsa.Some? {
      var (g, data) := s.slsa.value;
      var t :| Last(xs, InToto, Something(t, g, data));
      var x := Something(t, g, data);
      forall y ensures Last(xs, InToto, y) ==> y == x { LastOnly(xs, InToto, x, y); }
      LastOnly(xs, InToto, x, x);
      StatementExactly(c, data, hex);
    } else {
      NoLast(xs, InToto);
    }
  }

  /** What the gates look at, in the report. */
  ghost predicate Looks(check: CosignVerify, hex: string, xs: seq<Carried>, report: VerifyReport)
  {
    && (report.signature.Found? <==>
          exists x :: Last(xs, IsSignature, x) && check(DigestText(hex), x.data).VerifiedAndRecorded?)
    && (report.signature.Missing? <==> Absent(xs, IsSignature))
    && (report.signature.Failed? ==>
          exists x :: Last(xs, IsSignature, x) && !check(DigestText(hex), x.data).VerifiedAndRecorded?)
    && (report.sbom.Missing? <==> Absent(xs, IsSbom)) && !report.sbom.Failed?
    && forall x {:trigger Last(xs, IsSbom, x)} :: Last(xs, IsSbom, x) ==>
      report.sbom == Found(x.artifactType + ", blob=" + x.digest)
  }

  lemma ReportLooks(c: Codec, check: CosignVerify, hex: string, xs: seq<Carried>, report: VerifyReport)
    requires Reported(c, check, hex, xs, report)
    ensures Looks(check, hex, xs, report) && (!Absent(xs, IsSbom) ==> exists x :: Last(xs, IsSbom, x))
  {
    SignatureGate(check, hex, xs, report.signature);
    if !Absent(xs, IsSbom) {
      var x :| Last(xs, IsSbom, x) && report.sbom == Found(x.artifactType + ", blob=" + x.digest);
      forall y ensures Last(xs, IsSbom, y) ==> y == x { LastOnly(xs, IsSbom, x, y); }
    } else {
      NoLast(xs, IsSbom);
    }
  }

  lemma GatesRead(c: Codec, check: CosignVerify, hex: string, xs: seq<Carried>, p: Policy, info: Option<SlsaInfo>,
      report: VerifyReport)
    requires Looks(check, hex, xs, report) && (!Absent(xs, IsSbom) ==> exists x :: Last(xs, IsSbom, x))
    requires forall i :: Told(c, hex, xs, i) <==> info == Some(i)
    ensures PolicyMet(report, p, info) <==> GatesOpen(c, check, hex, xs, p)
  {
  }

  lemma ShutRead(c: Codec, check: CosignVerify, hex: string, xs: seq<Carried>, p: Policy, info: Option<SlsaInfo>,
      report: VerifyReport)
    requires Looks(check, hex, xs, report) && (!Absent(xs, IsSbom) ==> exists x :: Last(xs, IsSbom, x))
    requires (info.None? <==> Absent(xs, InToto)) && forall i :: Told(c, hex, xs, i) <==> info == Some(i)
    requires ApplyPolicy(report, p, info).Err?
    ensures GateShut(c, check, hex, xs, p, ApplyPolicy(report, p, info).error)
  {
    if info.Some? { assert Told(c, hex, xs, info.value); }
  }

  lemma SignatureGate(check: CosignVerify, hex: string, xs: seq<Carried>, v: PillarVerdict)
    requires SignatureReported(check, hex, xs, v)
    ensures v.Found? <==> exists x :: Last(xs, IsSignature, x) && check(DigestText(hex), x.data).VerifiedAndRecorded?
    ensures v.Missing? <==> Absent(xs, IsSignature)
    ensures v.Failed? ==> exists x :: Last(xs, IsSignature, x) && !check(DigestText(hex), x.data).VerifiedAndRecorded?
  {
    if !Absent(xs, IsSignature) {
      var x :|
        && Last(xs, IsSignature, x)
        && if check(DigestText(hex), x.data).VerifiedAndRecorded? then v.Found? else v.Failed?;
      forall y ensures Last(xs, IsSignature, y) ==> y == x { LastOnly(xs, IsSignature, x, y); }
    } else {
      NoLast(xs, IsSignature);
    }
  }

  // ── `verify` ──

  lemma WalkReads(c: Codec, dir: Files, ds: seq<Descriptor>, xs: seq<Carried>)
    requires Payloads(c, dir, ds, xs)
    ensures Walk(Reads(c, dir), ds, NO_SLOTS) == Ok(PlaceAll(xs, NO_SLOTS))
  {
    var read := Reads(c, dir);
    forall i | 0 <= i < |ds| ensures read(ds[i]) == Ok(xs[i]) { ReferrerExactly(c, dir, ds[i]); }
    WalkPlaces(read, ds, xs, NO_SLOTS);
  }

  /**
   * A verdict is as it should be: a report exactly when the last statement is provenance about
   * the primary, the last SBOM has the format of its type and every gate of the policy is open;
   * the report says what was found, an error what was wrong.
   */
  ghost predicate Right(c: Codec, check: CosignVerify, hex: string, xs: seq<Carried>, policy: Option<Policy>,
      r: Result<VerifyReport, VerifyError>)
  {
    var sound := StatementOk(c, xs, hex) && FormatOk(c, xs);
    && (r.Ok? <==> sound && (policy.Some? ==> GatesOpen(c, check, hex, xs, policy.value)))
    && (r.Ok? ==> Reported(c, check, hex, xs, r.value))
    && (!StatementOk(c, xs, hex) ==> r == Err(SlsaMalformed))
    && (StatementOk(c, xs, hex) && !FormatOk(c, xs) ==> r == Err(MalformedBlob("<sbom>")))
    && (sound && r.Err? ==> policy.Some? && GateShut(c, check, hex, xs, policy.value, r.error))
  }

  /** A policy on a report that is as it should be. */
  lemma PolicyJudged(c: Codec, check: CosignVerify, hex: string, xs: seq<Carried>, s: Slots, p: Policy,
      report: VerifyReport)
    requires Holding(xs, s) && StatementOk(c, xs, hex) && Reported(c, check, hex, xs, report)
    ensures var r := ApplyPolicy(report, p, SlotInfo(c, s.slsa, DigestText(hex)));
      (r.Ok? <==> GatesOpen(c, check, hex, xs, p)) && (r.Err? ==> GateShut(c, check, hex, xs, p, r.error))
  {
    var info := SlotInfo(c, s.slsa, DigestText(hex));
    InfoTold(c, hex, xs, s);
    ReportLooks(c, check, hex, xs, report);
    GatesRead(c, check, hex, xs, p, info, report);
    if ApplyPolicy(report, p, info).Err? { ShutRead(c, check, hex, xs, p, info, report); }
  }

  /** A verdict is a report and what the policy says to it. */
  lemma Decided(c: Codec, check: CosignVerify, hex: string, xs: seq<Carried>, s: Slots, policy: Option<Policy>)
    returns (report: Result<VerifyReport, VerifyError>, gate: Result<(), VerifyError>)
    requires Holding(xs, s)
    ensures Decide(c, check, s, DigestText(hex), policy) == if report.Ok? && gate.Err? then Err(gate.error) else report
    ensures ReportRight(c, check, hex, xs, report) && GateRight(c, check, hex, xs, policy, report, gate)
  {
    report := Judge(c, check, s, DigestText(hex));
    gate := Gate(c, s, hex, policy, report);
    JudgedRight(c, check, hex, xs, s);
    GateJudged(c, check, hex, xs, s, policy, report);
    DecideParts(c, check, s, hex, policy);
  }

  lemma JudgedRight(c: Codec, check: CosignVerify, hex: string, xs: seq<Carried>, s: Slots)
    requires Holding(xs, s)
    ensures ReportRight(c, check, hex, xs, Judge(c, check, s, DigestText(hex)))
  {
    Judged(c, check, hex, xs, s);
  }

  lemma GateJudged(c: Codec, check: CosignVerify, hex: string, xs: seq<Carried>, s: Slots, policy: Option<Policy>,
      report: Result<VerifyReport, VerifyError>)
    requires Holding(xs, s) && ReportRight(c, check, hex, xs, report)
    ensures GateRight(c, check, hex, xs, policy, report, Gate(c, s, hex, policy, report))
  {
    if report.Ok? && policy.Some? { PolicyJudged(c, check, hex, xs, s, policy.value, report.value); }
  }

  lemma DecideParts(c: Codec, check: CosignVerify, s: Slots, hex: string, policy: Option<Policy>)
    ensures var report := Judge(c, check, s, DigestText(hex)); var gate := Gate(c, s, hex, policy, report);
      Decide(c, check, s, DigestText(hex), policy) == if report.Ok? && gate.Err? then Err(gate.error) else report
  {
  }

  ghost predicate ReportRight(c: Codec, check: CosignVerify, hex: string, xs: seq<Carried>,
      report: Result<VerifyReport, VerifyError>)
  {
    && (report.Ok? <==> StatementOk(c, xs, hex) && FormatOk(c, xs))
    && (report.Ok? ==> Reported(c, check, hex, xs, report.value))
    && (!StatementOk(c, xs, hex) ==> report == Err(SlsaMalformed))
    && (StatementOk(c, xs, hex) && !FormatOk(c, xs) ==> report == Err(MalformedBlob("<sbom>")))
  }

  ghost predicate GateRight(c: Codec, check: CosignVerify, hex: string, xs: seq<Carried>, policy: Option<Policy>,
      report: Result<VerifyReport, VerifyError>, gate: Result<(), VerifyError>)
  {
    && (report.Ok? && policy.Some? ==>
      && (gate.Ok? <==> GatesOpen(c, check, hex, xs, policy.value))
      && (gate.Err? ==> GateShut(c, check, hex, xs, policy.value, gate.error)))
    && (report.Err? || policy.None? ==> gate.Ok?)
  }

  lemma DecidedRight(c: Codec, check: CosignVerify, hex: string, xs: seq<Carried>, s: Slots, policy: Option<Policy>)
    requires Holding(xs, s)
    ensures Right(c, check, hex, xs, policy, Decide(c, check, s, DigestText(hex), policy))
  {
    var report, gate := Decided(c, check, hex, xs, s, policy);
    Combined(c, check, hex, xs, policy, report, gate);
  }

  /** What the policy says to a report. */
  function Gate(c: Codec, s: Slots, hex: string, policy: Option<Policy>,
      report: Result<VerifyReport, VerifyError>): Result<(), VerifyError>
  {
    if report.Ok? && policy.Some? then ApplyPolicy(report.value, policy.value, SlotInfo(c, s.slsa, DigestText(hex)))
    else Ok(())
  }

  lemma Combined(c: Codec, check: CosignVerify, hex: string, xs: seq<Carried>, policy: Option<Policy>,
      report: Result<VerifyReport, VerifyError>, gate: Result<(), VerifyError>)
    requires ReportRight(c, check, hex, xs, report) && GateRight(c, check, hex, xs, policy, report, gate)
    ensures Right(c, check, hex, xs, policy, if report.Ok? && gate.Err? then Err(gate.error) else report)
  {
  }

  /** The verdict on a valid layout whose referrers read is right, under every policy and every verifier. */
  lemma VerdictExactly(c: Codec, check: CosignVerify, dir: Files, policy: Option<Policy>, hex: string,
      xs: seq<Carried>)
    requires WellFormed(c, dir) && View(c, dir).primary.digest == DigestText(hex)
    requires Payloads(c, dir, View(c, dir).referrers, xs)
    ensures Right(c, check, hex, xs, policy, Verdict(c, check, Reads(c, dir), View(c, dir), policy))
  {
    WalkReads(c, dir, View(c, dir).referrers, xs);
    SlotsHold(xs);
    DecidedRight(c, check, hex, xs, PlaceAll(xs, NO_SLOTS), policy);
  }

  /** A referrer that carries nothing that reads is refused. */
  lemma UnreadIsRefused(c: Codec, check: CosignVerify, dir: Files, policy: Option<Policy>, i: nat)
    requires WellFormed(c, dir) && i < |View(c, dir).referrers|
    requires forall x :: !Carrying(c, dir, View(c, dir).referrers[i], x)
    ensures Verdict(c, check, Reads(c, dir), View(c, dir), policy).Err?
  {
    ReferrerExactly(c, dir, View(c, dir).referrers[i]);
    WalkNeeds(Reads(c, dir), View(c, dir).referrers, i);
  }

  lemma {:induction false} WalkNeeds(read: Reader, ds: seq<Descriptor>, i: nat)
    requires i < |ds| && read(ds[i]).Err?
    ensures Walk(read, ds, NO_SLOTS).Err?
  {
    if i < |ds| - 1 {
      assert ds[..|ds| - 1][i] == ds[i];
      WalkNeeds(read, ds[..|ds| - 1], i);
    }
  }

  /** The primary of a valid layout is named by a hex digest. */
  lemma PrimaryHex(c: Codec, dir: Files) returns (hex: string)
    requires WellFormed(c, dir)
    ensures View(c, dir).primary.digest == DigestText(hex) && IsHex64(hex)
  {
    hex := HexOf(View(c, dir).primary.digest).value;
  }

  /**
   * Provenance that was emitted for another manifest is never accepted, whatever else the
   * layout holds.
   */
  lemma ForeignIsRefused(c: Codec, check: CosignVerify, dir: Files, policy: Option<Policy>, hex: string,
      xs: seq<Carried>, x: Carried, a: BuiltArtifact, cfg: Specs.SlsaConfig)
    requires c.Lawful() && WellFormed(c, dir) && View(c, dir).primary.digest == DigestText(hex)
    requires Payloads(c, dir, View(c, dir).referrers, xs) && Last(xs, InToto, x)
    requires x.data == c.compact(StatementJson(a, cfg)) && a.manifestHex != hex
    ensures Verdict(c, check, Reads(c, dir), View(c, dir), policy) == Err(SlsaMalformed)
  {
    ForeignStatement(c, a, cfg, hex);
    StatementExactly(c, x.data, hex);
    VerdictExactly(c, check, dir, policy, hex, xs);
  }
}
