/** `write_referrers_into_image_dir`: attestations become OCI referrers of the primary manifest. */
module Referrers {
  import opened Wrappers
  import opened Json
  import opened Oci
  import opened FileSystems
  import opened Staging
  import opened Attest

  datatype CliError = Io | MalformedIndex | NoManifests

  // ── what is written ──

  function ConfigFor(c: Codec): Descriptor
  {
    Descriptor(EMPTY_CONFIG_TYPE, c.DigestOf(EMPTY_CONFIG), |EMPTY_CONFIG|, None)
  }

  function LayerFor(e: Evidence): Descriptor { Descriptor(e.mediaType, e.digest, e.size, None) }

  function ReferrerJson(c: Codec, e: Evidence, subject: Descriptor): Json
  {
    JObj(map[
      "schemaVersion" := JInt(2),
      "mediaType" := JStr(MANIFEST_TYPE),
      "artifactType" := JStr(e.mediaType),
      "config" := DescriptorJson(ConfigFor(c)),
      "layers" := JArr([DescriptorJson(LayerFor(e))]),
      "subject" := DescriptorJson(subject)])
  }

  /** The bytes of a referrer manifest. */
  function ReferrerBytes(c: Codec, e: Evidence, subject: Descriptor): Bytes { c.compact(ReferrerJson(c, e, subject)) }

  /** Its index entry. */
  function EntryFor(c: Codec, e: Evidence, subject: Descriptor): Descriptor
  {
    var data := ReferrerBytes(c, e, subject);
    Descriptor(MANIFEST_TYPE, c.DigestOf(data), |data|, Some(e.mediaType))
  }

  function Found(e: Option<Evidence>): seq<Evidence> { if e.Some? then [e.value] else [] }

  /** The attestations in the order they are written. */
  function Evidences(o: Outputs): seq<Evidence>
  {
    Found(o.slsa) + Found(o.sbom) + Found(SignatureBlob(o))
  }

  function SignatureBlob(o: Outputs): Option<Evidence>
  {
    if o.signature.Some? then Some(o.signature.value.evidence) else None
  }

  function NewEntries(c: Codec, es: seq<Evidence>, subject: Descriptor): (ds: seq<Descriptor>)
    ensures |ds| == |es| && forall i :: 0 <= i < |es| ==> ds[i] == EntryFor(c, es[i], subject)
  {
    seq(|es|, i requires 0 <= i < |es| => EntryFor(c, es[i], subject))
  }

  /** Every blob that is written. */
  function Written(c: Codec, es: seq<Evidence>, subject: Descriptor): (xs: seq<Bytes>)
    ensures |xs| == |es| + 1 && xs[0] == EMPTY_CONFIG
    ensures forall i :: 0 <= i < |es| ==> xs[i + 1] == ReferrerBytes(c, es[i], subject)
  {
    [EMPTY_CONFIG] + seq(|es|, i requires 0 <= i < |es| => ReferrerBytes(c, es[i], subject))
  }

  /** The rewritten index: the new entries at the end, everything else as it was. */
  function NewIndex(o: map<string, Json>, entries: seq<Descriptor>): Json
    requires "manifests" in o && o["manifests"].JArr?
  {
    var pushed := o["manifests" := JArr(o["manifests"].a + DescriptorsJson(entries))];
    JObj(if "mediaType" in o then pushed else pushed["mediaType" := JStr(INDEX_TYPE)])
  }

  // ── the writer ──

  /** The blobs of a reader are those that were there and those of `xs`. */
  ghost predicate GainsAll(c: Codec, f: Files, f': Files, xs: seq<Bytes>)
  {
    && BlobsGrow(f, f') && (forall x <- xs :: Has(c, f', x))
    && forall h :: IsHex64(h) && Path.Blob(h) in f' && Path.Blob(h) !in f ==> exists x :: x in xs && c.hash(x) == h
  }

  function TmpName(pid: string): string -> string { (hex: string) => "." + hex + ".tmp-" + pid }

  method WriteBlobIfAbsent(c: Codec, fs: Fs, pid: string, data: Bytes, ghost b: Base, ghost f0: Files,
      ghost xs: seq<Bytes>)
    returns (r: Result<(), CliError>)
    requires Safe(c, b, fs) && c.Lawful() && Known(c, b, data) && GainsAll(c, f0, fs.files, xs)
    modifies fs
    ensures Safe(c, b, fs) && Onward(old(fs.files), fs.files)
    ensures r.Ok? ==> GainsAll(c, f0, fs.files, xs + [data])
    ensures fs.Reliable() ==> r.Ok?
  {
    var tmp := TmpName(pid);
    assert forall h :: tmp(h)[0] == '.';
    ghost var f := fs.files;
    var ok := PutBlob(c, fs, tmp, data, b);
    r := if ok then Ok(()) else Err(Io);
    if ok { GainsOneMore(c, f0, f, fs.files, xs, data); }
  }

  lemma GainsOneMore(c: Codec, f0: Files, f: Files, f': Files, xs: seq<Bytes>, data: Bytes)
    requires GainsAll(c, f0, f, xs) && BlobsGrow(f, f') && Gains(c, f, f', data) && Has(c, f', data) && c.Lawful()
    ensures GainsAll(c, f0, f', xs + [data])
  {
    forall h | IsHex64(h) && Path.Blob(h) in f' && Path.Blob(h) !in f0
      ensures exists x :: x in xs + [data] && c.hash(x) == h
    {
      if Path.Blob(h) in f {
        var x :| x in xs && c.hash(x) == h;
        assert x in xs + [data];
      } else {
        assert data in xs + [data] && c.hash(data) == h;
      }
    }
    forall x | x in xs ensures Has(c, f', x) { assert IsHex64(c.hash(x)); }
  }

  /** The manifests and entries of these attestations are written. */
  ghost predicate SoFar(c: Codec, f0: Files, f: Files, subject: Descriptor, old_: seq<Json>, manifests: seq<Json>,
      done: seq<Evidence>)
  {
    manifests == old_ + DescriptorsJson(NewEntries(c, done, subject)) && GainsAll(c, f0, f, Written(c, done, subject))
  }

  /** One attestation, if it was made: its manifest is stored and its entry pushed. */
  method WriteReferrer(c: Codec, fs: Fs, pid: string, made: Option<Evidence>, subject: Descriptor, manifests: seq<Json>,
      ghost b: Base, ghost f0: Files, ghost old_: seq<Json>, ghost done: seq<Evidence>)
    returns (r: Result<seq<Json>, CliError>)
    requires Safe(c, b, fs) && c.Lawful() && (made.Some? ==> Known(c, b, ReferrerBytes(c, made.value, subject)))
    requires SoFar(c, f0, fs.files, subject, old_, manifests, done)
    modifies fs
    ensures Safe(c, b, fs) && Onward(old(fs.files), fs.files)
    ensures r.Ok? ==> SoFar(c, f0, fs.files, subject, old_, r.value, done + Found(made))
    ensures fs.Reliable() ==> r.Ok?
  {
    if made.None? {
      assert done + [] == done;
      return Ok(manifests);
    }
    var e := made.value;
    var data := ReferrerBytes(c, e, subject);
    assert Written(c, done + [e], subject) == Written(c, done, subject) + [data];
    assert DescriptorsJson(NewEntries(c, done + [e], subject)) ==
      DescriptorsJson(NewEntries(c, done, subject)) + [DescriptorJson(EntryFor(c, e, subject))];
    var _ :- WriteBlobIfAbsent(c, fs, pid, data, b, f0, Written(c, done, subject));
    r := Ok(manifests + [DescriptorJson(Descriptor(MANIFEST_TYPE, c.DigestOf(data), |data|, Some(e.mediaType)))]);
  }

  lemma WrittenKnown(c: Codec, b: Base, es: seq<Evidence>, subject: Descriptor)
    requires forall x <- Written(c, es, subject) :: Known(c, b, x)
    ensures Known(c, b, EMPTY_CONFIG) && forall e <- es :: Known(c, b, ReferrerBytes(c, e, subject))
  {
    assert Written(c, es, subject)[0] == EMPTY_CONFIG;
    forall e | e in es ensures Known(c, b, ReferrerBytes(c, e, subject)) {
      var i :| 0 <= i < |es| && es[i] == e;
      assert Written(c, es, subject)[i + 1] == ReferrerBytes(c, e, subject);
    }
  }

  /** The statement, then the SBOM, then the signature. */
  method WriteAll(c: Codec, fs: Fs, pid: string, o: Outputs, subject: Descriptor, listed: seq<Json>, ghost b: Base,
      ghost f0: Files)
    returns (r: Result<seq<Json>, CliError>)
    requires Safe(c, b, fs) && c.Lawful() && forall e <- Evidences(o) :: Known(c, b, ReferrerBytes(c, e, subject))
    requires GainsAll(c, f0, fs.files, [EMPTY_CONFIG])
    modifies fs
    ensures Safe(c, b, fs) && Onward(old(fs.files), fs.files)
    ensures r.Ok? ==> SoFar(c, f0, fs.files, subject, listed, r.value, Evidences(o))
    ensures fs.Reliable() ==> r.Ok?
  {
    var slsa, sbom, sign := o.slsa, o.sbom, SignatureBlob(o);
    FoundAreEvidences(o);
    NothingYet(c, f0, fs.files, subject, listed);
    var manifests :- WriteReferrer(c, fs, pid, slsa, subject, listed, b, f0, listed, []);
    assert [] + Found(slsa) == Found(slsa);
    manifests :- WriteReferrer(c, fs, pid, sbom, subject, manifests, b, f0, listed, Found(slsa));
    r := WriteReferrer(c, fs, pid, sign, subject, manifests, b, f0, listed, Found(slsa) + Found(sbom));
  }

  lemma FoundAreEvidences(o: Outputs)
    ensures forall e <- Found(o.slsa) + Found(o.sbom) + Found(SignatureBlob(o)) :: e in Evidences(o)
    ensures o.slsa.Some? ==> o.slsa.value in Evidences(o)
    ensures o.sbom.Some? ==> o.sbom.value in Evidences(o)
    ensures SignatureBlob(o).Some? ==> SignatureBlob(o).value in Evidences(o)
  {
  }

  lemma NothingYet(c: Codec, f0: Files, f: Files, subject: Descriptor, listed: seq<Json>)
    requires GainsAll(c, f0, f, [EMPTY_CONFIG])
    ensures SoFar(c, f0, f, subject, listed, listed, [])
  {
    assert Written(c, [], subject) == [EMPTY_CONFIG] && DescriptorsJson(NewEntries(c, [], subject)) == [];
  }

  const INDEX_TMP := Root("index.json.tmp")

  /** The index parses as an object with a list of manifests. */
  predicate Readable(c: Codec, f: Files)
  {
    INDEX_FILE in f && var j := c.parse(f[INDEX_FILE]);
      j.Some? && j.value.JObj? && "manifests" in j.value.o && j.value.o["manifests"].JArr?
  }

  function IndexObject(c: Codec, f: Files): map<string, Json>
    requires Readable(c, f)
  {
    c.parse(f[INDEX_FILE]).value.o
  }

  /**
   * The index is replaced in one last step; until then, and on every error, a reader sees
   * the old one. A success has appended one entry for each attestation.
   */
  method WriteReferrers(c: Codec, fs: Fs, pid: string, o: Outputs, subject: Descriptor, ghost b: Base)
    returns (r: Result<(), CliError>)
    requires Safe(c, b, fs) && c.Lawful() && forall x <- Written(c, Evidences(o), subject) :: Known(c, b, x)
    modifies fs
    ensures Onward(old(fs.files), fs.files)
    ensures r.Err? ==> Safe(c, b, fs)
    ensures r.Ok? ==>
      && Readable(c, old(fs.files))
      && Switched(c, b, fs, c.compact(NewIndex(IndexObject(c, old(fs.files)), NewEntries(c, Evidences(o), subject))))
      && GainsAll(c, old(fs.files), fs.files, Written(c, Evidences(o), subject))
    ensures fs.Reliable() ==> (r.Ok? <==> Readable(c, old(fs.files)))
  {
    ghost var f0 := fs.files;
    if INDEX_FILE !in fs.files { return Err(Io); }
    var j := c.parse(fs.files[INDEX_FILE]);
    if j.None? { return Err(MalformedIndex); }
    ghost var es := Evidences(o);
    assert EMPTY_CONFIG in Written(c, es, subject);
    var _ :- WriteBlobIfAbsent(c, fs, pid, EMPTY_CONFIG, b, f0, []);
    assert [] + [EMPTY_CONFIG] == [EMPTY_CONFIG];
    if !j.value.JObj? || "manifests" !in j.value.o || !j.value.o["manifests"].JArr? { return Err(NoManifests); }
    var obj := j.value.o;
    WrittenKnown(c, b, es, subject);
    var manifests :- WriteAll(c, fs, pid, o, subject, obj["manifests"].a, b, f0);
    obj := obj["manifests" := JArr(manifests)];
    if "mediaType" !in obj { obj := obj["mediaType" := JStr(INDEX_TYPE)]; }
    ghost var f := fs.files;
    var ok := ReplaceIndex(c, fs, INDEX_TMP, c.compact(JObj(obj)), b);
    r := if ok then Ok(()) else Err(Io);
    if ok { GainsOnReplace(c, f0, f, fs.files, Written(c, es, subject)); }
  }

  lemma GainsOnReplace(c: Codec, f0: Files, f: Files, f': Files, xs: seq<Bytes>)
    requires GainsAll(c, f0, f, xs) && Apart({INDEX_TMP, INDEX_FILE}, f, f')
    ensures GainsAll(c, f0, f', xs)
  {
    assert forall h ::
      (Path.Blob(h) in f' <==> Path.Blob(h) in f) && (Path.Blob(h) in f ==> f'[Path.Blob(h)] == f[Path.Blob(h)]);
  }
}
