/** The documents of a layout, written out on their JSON, and the proof that they are read by these rules. */
module DocumentRules {
  import opened Wrappers
  import opened Text
  import opened Json
  import opened Oci
  import opened ImageDirs

  // ── digests ──

  /** `sha256:` and 64 lowercase hex digits. */
  ghost predicate NamesFile(digest: string, hex: string)
  {
    && digest == "sha256:" + hex && |hex| == 64
    && forall c <- hex :: '0' <= c <= '9' || 'a' <= c <= 'f'
  }

  /** What is wrong with a digest. */
  ghost predicate Malformed(digest: string, e: DigestDefect)
  {
    match e
    case MissingSeparator => ':' !in digest
    case UnsupportedAlgorithm => exists algorithm, rest ::
      digest == algorithm + ":" + rest && ':' !in algorithm && algorithm != "sha256"
    case WrongHexLength => exists rest :: digest == "sha256:" + rest && |rest| != 64
    case NotLowercaseHex => exists rest ::
      digest == "sha256:" + rest && exists c <- rest :: !('0' <= c <= '9' || 'a' <= c <= 'f')
  }

  lemma DigestExactly(digest: string)
    ensures match HexOf(digest)
      case Ok(hex) => NamesFile(digest, hex)
      case Err(e) => Malformed(digest, e) && forall hex :: !NamesFile(digest, hex)
  {
    var r := HexOf(digest);
    if r.Ok? {
      forall c | c in r.value ensures '0' <= c <= '9' || 'a' <= c <= 'f' {
        var i :| 0 <= i < |r.value| && r.value[i] == c;
      }
    } else {
      forall hex ensures !NamesFile(digest, hex) {
        if NamesFile(digest, hex) {
          forall i | 0 <= i < |hex| ensures IsLowerHex(hex[i]) { assert hex[i] in hex; }
          HexOfText(hex);
        }
      }
      if ':' in digest { DigestDefective(digest, SplitOnce(digest, ':').value.0, SplitOnce(digest, ':').value.1); }
    }
  }

  lemma DigestDefective(digest: string, algorithm: string, rest: string)
    requires SplitOnce(digest, ':') == Some((algorithm, rest)) && HexOf(digest).Err?
    ensures Malformed(digest, HexOf(digest).error)
  {
    assert digest == algorithm + ":" + rest;
    if algorithm == "sha256" {
      assert digest == "sha256:" + rest;
      if |rest| == 64 {
        var i :| 0 <= i < |rest| && !IsLowerHex(rest[i]);
        assert rest[i] in rest;
      }
    }
  }

  // ── descriptors, manifests, indexes ──

  /** A string that may be left out or `null`. */
  predicate MayState(j: Json, k: string, v: Option<string>)
  {
    if v.Some? then HasField(j, k, JStr(v.value)) else Lacks(j, k) || HasField(j, k, JNull)
  }

  predicate States(j: Json, d: Descriptor)
  {
    && HasField(j, "mediaType", JStr(d.mediaType)) && HasField(j, "digest", JStr(d.digest))
    && HasField(j, "size", JInt(d.size)) && d.size < 0x1_0000_0000_0000_0000
    && MayState(j, "artifactType", d.artifactType)
  }

  ghost predicate Lists(j: Json, k: string, ds: seq<Descriptor>)
  {
    || (Lacks(j, k) && ds == [])
    || exists js :: HasField(j, k, JArr(js)) && EachStates(js, ds)
  }

  ghost predicate ManifestStates(j: Json, m: Manifest)
  {
    && MayState(j, "mediaType", m.mediaType) && (exists k :: HasField(j, "config", k) && States(k, m.config))
    && Lists(j, "layers", m.layers)
    && (if m.subject.Some? then exists k :: HasField(j, "subject", k) && States(k, m.subject.value)
        else Lacks(j, "subject") || HasField(j, "subject", JNull))
  }

  lemma MayStateExactly(j: Json, k: string, v: Option<string>)
    ensures MayState(j, k, v) <==> OptStrField(j, k) == Some(v)
  {
  }

  lemma DescriptorExactly(j: Json, d: Descriptor)
    ensures DecodeDescriptor(j) == Some(d) <==> States(j, d)
  {
    MayStateExactly(j, "artifactType", d.artifactType);
  }

  lemma ListExactly(j: Json, k: string, ds: seq<Descriptor>)
    ensures DescriptorsField(j, k) == Some(ds) <==> Lists(j, k, ds)
  {
    if !Lacks(j, k) && j.o[k].JArr? {
      ElementsExactly(j.o[k].a, ds);
      assert HasField(j, k, JArr(j.o[k].a));
    }
  }

  predicate EachStates(js: seq<Json>, ds: seq<Descriptor>)
  {
    |js| == |ds| && forall i :: 0 <= i < |js| ==> States(js[i], ds[i])
  }

  lemma ElementsExactly(js: seq<Json>, ds: seq<Descriptor>)
    ensures DecodeDescriptors(js) == Some(ds) <==> EachStates(js, ds)
  {
    if |js| == |ds| {
      forall i | 0 <= i < |js| ensures DecodeDescriptor(js[i]) == Some(ds[i]) <==> States(js[i], ds[i]) {
        DescriptorExactly(js[i], ds[i]);
      }
      if EachStates(js, ds) { EverySeq(js, DecodeDescriptor, ds); }
    }
  }

  lemma ManifestExactly(j: Json, m: Manifest)
    ensures DecodeManifest(j) == Some(m) <==> ManifestStates(j, m)
  {
    MayStateExactly(j, "mediaType", m.mediaType);
    ListExactly(j, "layers", m.layers);
    DescriptorFieldExactly(j, "config", m.config);
    SubjectExactly(j, m.subject);
  }

  lemma DescriptorFieldExactly(j: Json, k: string, d: Descriptor)
    ensures (Field(j, k).Some? && DecodeDescriptor(Field(j, k).value) == Some(d)) <==>
      exists x :: HasField(j, k, x) && States(x, d)
  {
    if Field(j, k).Some? {
      DescriptorExactly(j.o[k], d);
      assert HasField(j, k, j.o[k]);
    }
  }

  lemma SubjectExactly(j: Json, s: Option<Descriptor>)
    ensures OptDescriptorField(j, "subject") == Some(s) <==>
      if s.Some? then exists k :: HasField(j, "subject", k) && States(k, s.value)
      else Lacks(j, "subject") || HasField(j, "subject", JNull)
  {
    if s.Some? { DescriptorFieldExactly(j, "subject", s.value); }
  }

  lemma IndexExactly(j: Json, ds: seq<Descriptor>)
    ensures DecodeIndex(j) == Some(ds) <==> j.JObj? && Lists(j, "manifests", ds)
  {
    ListExactly(j, "manifests", ds);
  }

  // ── the files ──

  /** The marker and the index of a layout are read by these rules. */
  lemma FilesExactly(c: Codec, dir: Files, ds: seq<Descriptor>)
    ensures LayoutValid(c, dir) <==>
      Root("oci-layout") in dir && exists j ::
        c.parse(dir[Root("oci-layout")]) == Some(j) && HasField(j, "imageLayoutVersion", JStr("1.0.0"))
    ensures IndexEntries(c, dir) == Some(ds) <==>
      Root("index.json") in dir && exists j ::
        c.parse(dir[Root("index.json")]) == Some(j) && j.JObj? && Lists(j, "manifests", ds)
  {
    if Root("index.json") in dir && c.parse(dir[Root("index.json")]).Some? {
      IndexExactly(c.parse(dir[Root("index.json")]).value, ds);
    }
  }

  /** A manifest is loaded from the file its digest names. */
  lemma StoredExactly(c: Codec, dir: Files, digest: string, m: Manifest)
    ensures Stored(c, dir)(digest) == Some(m) <==>
      exists hex, j ::
        && NamesFile(digest, hex) && Blob(hex) in dir && c.parse(dir[Blob(hex)]) == Some(j) && ManifestStates(j, m)
  {
    DigestExactly(digest);
    var h := HexOf(digest);
    if h.Ok? && Blob(h.value) in dir && c.parse(dir[Blob(h.value)]).Some? {
      ManifestExactly(c.parse(dir[Blob(h.value)]).value, m);
    }
    forall hex | NamesFile(digest, hex) ensures h == Ok(hex) { assert digest[7..] == hex; }
  }
}
