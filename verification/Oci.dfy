/**
 * Descriptors, manifests, indexes and digests of the OCI image specification, the
 * directory a layout lives in, and the two functions the program takes from libraries:
 * SHA-256 and JSON text.
 */
module Oci {
  import opened Wrappers
  import opened Text
  import opened Json

  const MANIFEST_TYPE := "application/vnd.oci.image.manifest.v1+json"
  const INDEX_TYPE := "application/vnd.oci.image.index.v1+json"
  const LAYOUT_VERSION := "1.0.0"

  /** The canonical empty config, `{}`. */
  const EMPTY_CONFIG: Bytes := [0x7B, 0x7D]
  const EMPTY_CONFIG_TYPE := "application/vnd.oci.empty.v1+json"

  // ── digests ──

  predicate IsLowerHex(c: char) { IsDigit(c) || 'a' <= c <= 'f' }

  predicate IsHex64(h: string) { |h| == 64 && forall i :: 0 <= i < |h| ==> IsLowerHex(h[i]) }

  datatype DigestDefect = MissingSeparator | UnsupportedAlgorithm | WrongHexLength | NotLowercaseHex

  /** The file name a digest addresses under `blobs/sha256/`. */
  function HexOf(digest: string): (r: Result<string, DigestDefect>)
    ensures r.Ok? ==> IsHex64(r.value) && digest == DigestText(r.value)
  {
    var split := SplitOnce(digest, ':');
    if split.None? then Err(MissingSeparator)
    else
      var (algo, hex) := split.value;
      if algo != "sha256" then Err(UnsupportedAlgorithm)
      else if |hex| != 64 then Err(WrongHexLength)
      else if !IsHex64(hex) then Err(NotLowercaseHex)
      else Ok(hex)
  }

  /** Digests and blob file names correspond one to one. */
  lemma HexOfText(hex: string)
    requires IsHex64(hex)
    ensures HexOf(DigestText(hex)) == Ok(hex)
  {
    SplitOnceUnique("sha256", ':', hex);
    assert DigestText(hex) == "sha256" + [':'] + hex;
  }

  function DigestText(hex: string): (d: string)
    ensures |d| == 7 + |hex| && d[7..] == hex
  {
    "sha256:" + hex
  }

  predicate Addressable(digest: string) { HexOf(digest).Ok? }

  // ── directories ──

  /** A file of a layout: at its root, or under `blobs/sha256/`. */
  datatype Path = Root(name: string) | Blob(name: string)

  type Files = map<Path, Bytes>

  const LAYOUT_FILE := Root("oci-layout")
  const INDEX_FILE := Root("index.json")

  /** The bytes stored for a digest, if the digest is well formed and its file is there. */
  function BlobBytes(dir: Files, digest: string): (r: Option<Bytes>)
    ensures r.Some? ==>
      HexOf(digest).Ok? && Blob(HexOf(digest).value) in dir && r.value == dir[Blob(HexOf(digest).value)]
  {
    var h := HexOf(digest);
    if h.Ok? && Blob(h.value) in dir then Some(dir[Blob(h.value)]) else None
  }

  // ── libraries ──

  /** SHA-256 in lowercase hex, and JSON text: compact and indented printers, one parser. */
  datatype Codec = Codec(
    hash: Bytes -> string,
    parse: Bytes -> Option<Json>,
    compact: Json -> Bytes,
    pretty: Json -> Bytes)
  {
    /** All that is ever assumed of the libraries. */
    ghost predicate Lawful()
    {
      && (forall b :: IsHex64(hash(b)))
      && (forall j :: parse(compact(j)) == Some(j))
      && (forall j :: parse(pretty(j)) == Some(j))
    }

    function DigestOf(b: Bytes): string { DigestText(hash(b)) }
  }

  /** Every file with a content-addressed name holds the bytes its name promises. */
  ghost predicate StoreCorrect(c: Codec, dir: Files)
  {
    forall h :: IsHex64(h) && Blob(h) in dir ==> c.hash(dir[Blob(h)]) == h
  }

  // ── documents ──

  datatype Descriptor = Descriptor(mediaType: string, digest: string, size: nat, artifactType: Option<string>)

  datatype Manifest = Manifest(mediaType: Option<string>, config: Descriptor, layers: seq<Descriptor>,
    subject: Option<Descriptor>)

  function DecodeDescriptor(j: Json): Option<Descriptor>
  {
    var mt := StrField(j, "mediaType");
    var dg := StrField(j, "digest");
    var sz := U64Field(j, "size");
    var at := OptStrField(j, "artifactType");
    if mt.Some? && dg.Some? && sz.Some? && at.Some? then
      Some(Descriptor(mt.value, dg.value, sz.value, at.value))
    else None
  }

  /** `Vec<Descriptor>`. */
  function DecodeDescriptors(js: seq<Json>): (r: Option<seq<Descriptor>>)
    ensures r.Some? <==> forall i :: 0 <= i < |js| ==> DecodeDescriptor(js[i]).Some?
    ensures r.Some? ==> |r.value| == |js| && forall i :: 0 <= i < |js| ==> DecodeDescriptor(js[i]) == Some(r.value[i])
  {
    Every(js, DecodeDescriptor)
  }

  /** A `#[serde(default)] Vec<Descriptor>` field. */
  function DescriptorsField(j: Json, k: string): Option<seq<Descriptor>>
  {
    match Field(j, k)
    case None => Some([])
    case Some(JArr(a)) => DecodeDescriptors(a)
    case Some(_) => None
  }

  /** What the pull path reads of a manifest: `config` and `layers`. */
  function DecodeWireManifest(j: Json): Option<(Descriptor, seq<Descriptor>)>
  {
    var cf := Field(j, "config");
    var ls := DescriptorsField(j, "layers");
    if cf.Some? && DecodeDescriptor(cf.value).Some? && ls.Some? then
      Some((DecodeDescriptor(cf.value).value, ls.value))
    else None
  }

  /** A `#[serde(default)] Option<Descriptor>` field. */
  function OptDescriptorField(j: Json, k: string): Option<Option<Descriptor>>
  {
    match Field(j, k)
    case None => Some(None)
    case Some(JNull) => Some(None)
    case Some(v) => if DecodeDescriptor(v).Some? then Some(Some(DecodeDescriptor(v).value)) else None
  }

  /** What a layout reader reads of a manifest. */
  function DecodeManifest(j: Json): Option<Manifest>
  {
    var mt := OptStrField(j, "mediaType");
    var wire := DecodeWireManifest(j);
    var sb := OptDescriptorField(j, "subject");
    if mt.Some? && wire.Some? && sb.Some? then
      Some(Manifest(mt.value, wire.value.0, wire.value.1, sb.value))
    else None
  }

  /** An image index is an object; only its `manifests` are read. */
  function DecodeIndex(j: Json): Option<seq<Descriptor>>
  {
    if j.JObj? then DescriptorsField(j, "manifests") else None
  }

  /** A size that was read fits the field it is written back to. */
  lemma DecodedFits(j: Json)
    requires DecodeIndex(j).Some?
    ensures forall d <- DecodeIndex(j).value :: Fits(d)
  {
    var ds := DecodeIndex(j).value;
    forall d | d in ds ensures Fits(d) {
      var i :| 0 <= i < |ds| && ds[i] == d;
      assert DecodeDescriptor(Field(j, "manifests").value.a[i]) == Some(d);
    }
  }

  function ParseManifest(c: Codec, b: Bytes): Option<Manifest>
  {
    var j := c.parse(b);
    if j.Some? then DecodeManifest(j.value) else None
  }

  function ParseWireManifest(c: Codec, b: Bytes): Option<(Descriptor, seq<Descriptor>)>
  {
    var j := c.parse(b);
    if j.Some? then DecodeWireManifest(j.value) else None
  }

  function ParseIndex(c: Codec, b: Bytes): Option<seq<Descriptor>>
  {
    var j := c.parse(b);
    if j.Some? then DecodeIndex(j.value) else None
  }

  // ── printing ──

  function DescriptorJson(d: Descriptor): Json
  {
    var base := map["mediaType" := JStr(d.mediaType), "digest" := JStr(d.digest), "size" := JInt(d.size)];
    JObj(if d.artifactType.Some? then base["artifactType" := JStr(d.artifactType.value)] else base)
  }

  function DescriptorsJson(ds: seq<Descriptor>): (js: seq<Json>)
    ensures |js| == |ds| && forall i :: 0 <= i < |ds| ==> js[i] == DescriptorJson(ds[i])
  {
    seq(|ds|, i requires 0 <= i < |ds| => DescriptorJson(ds[i]))
  }

  predicate Fits(d: Descriptor) { d.size < U64_LIMIT }

  /** Printing a descriptor and reading it back is the identity. */
  lemma DescriptorRoundTrip(d: Descriptor)
    requires Fits(d)
    ensures DecodeDescriptor(DescriptorJson(d)) == Some(d)
  {
  }

  lemma DescriptorsRoundTrip(ds: seq<Descriptor>)
    requires forall d <- ds :: Fits(d)
    ensures DecodeDescriptors(DescriptorsJson(ds)) == Some(ds)
  {
    var js := DescriptorsJson(ds);
    forall i | 0 <= i < |ds| ensures DecodeDescriptor(js[i]) == Some(ds[i]) { DescriptorRoundTrip(ds[i]); }
    assert DecodeDescriptors(js).value == ds;
  }
}
