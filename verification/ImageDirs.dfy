/**
 * `ImageDir::open`: the check that turns a directory into a validated layout, and the
 * blob list the sinks walk.
 */
module ImageDirs {
  import opened Wrappers
  import opened Json
  import opened Oci

  datatype MissingWhy = IndexEntry | Child | SubjectMismatch

  datatype ImageDirError =
    | MissingFile(file: Path)
    | MalformedJson(file: Path)
    | UnsupportedLayoutVersion(found: string)
    | NoPrimaryManifest
    | MultiplePrimaryManifests(count: nat)
    | MissingBlob(digest: string, why: MissingWhy)
    | UnsupportedManifestMediaType(digest: string, found: string)
    | InvalidDigestFormat(digest: string, defect: DigestDefect)

  /** A validated layout: what `ImageDescriptor` and `referenced_blobs` report. */
  datatype ImageDir = ImageDir(
    primary: Descriptor,
    config: Descriptor,
    layers: seq<Descriptor>,
    referrers: seq<Descriptor>,
    referenced: seq<Descriptor>)

  /** An index entry together with the manifest it names. */
  datatype Entry = Entry(desc: Descriptor, manifest: Manifest)

  // ── the layout, declaratively ──

  function LayoutVersion(c: Codec, dir: Files): Option<string>
    requires LAYOUT_FILE in dir
  {
    var j := c.parse(dir[LAYOUT_FILE]);
    if j.Some? then StrField(j.value, "imageLayoutVersion") else None
  }

  predicate LayoutValid(c: Codec, dir: Files)
  {
    LAYOUT_FILE in dir && LayoutVersion(c, dir) == Some(LAYOUT_VERSION)
  }

  function IndexEntries(c: Codec, dir: Files): Option<seq<Descriptor>>
  {
    if INDEX_FILE in dir then ParseIndex(c, dir[INDEX_FILE]) else None
  }

  /** The manifest stored for a digest. */
  function StoredManifest(c: Codec, dir: Files, digest: string): Option<Manifest>
  {
    var b := BlobBytes(dir, digest);
    if b.Some? then ParseManifest(c, b.value) else None
  }

  predicate StatesManifestType(m: Manifest) { m.mediaType == None || m.mediaType == Some(MANIFEST_TYPE) }

  /** The manifest behind each digest, if there is one. */
  type Loader = string -> Option<Manifest>

  function Stored(c: Codec, dir: Files): Loader { digest => StoredManifest(c, dir, digest) }

  /** An index entry the reader accepts. */
  predicate Loadable(load: Loader, d: Descriptor)
  {
    d.mediaType == MANIFEST_TYPE && load(d.digest).Some? && StatesManifestType(load(d.digest).value)
  }

  predicate AllLoadable(load: Loader, ds: seq<Descriptor>)
  {
    forall i :: 0 <= i < |ds| ==> Loadable(load, ds[i])
  }

  function EntryOf(load: Loader, d: Descriptor): Entry
    requires Loadable(load, d)
  {
    Entry(d, load(d.digest).value)
  }

  /** The entries with a subject (`referrer`), or those without one, in index order. */
  function Bucket(load: Loader, ds: seq<Descriptor>, referrer: bool): (es: seq<Entry>)
    requires AllLoadable(load, ds)
    ensures forall i :: 0 <= i < |es| ==> Loadable(load, es[i].desc) && es[i] == EntryOf(load, es[i].desc)
    ensures forall i :: 0 <= i < |es| ==> es[i].manifest.subject.Some? == referrer
  {
    if ds == [] then []
    else
      var n := |ds| - 1;
      var e := EntryOf(load, ds[n]);
      var rest := Bucket(load, ds[..n], referrer);
      if e.manifest.subject.Some? == referrer then rest + [e] else rest
  }

  /** Every entry is in its bucket, and a bucket holds index entries only. */
  lemma {:induction false} BucketMembers(load: Loader, ds: seq<Descriptor>, referrer: bool, d: Descriptor)
    requires AllLoadable(load, ds)
    ensures d in Descs(Bucket(load, ds, referrer)) <==> d in ds && load(d.digest).value.subject.Some? == referrer
  {
    if ds != [] {
      var n := |ds| - 1;
      BucketMembers(load, ds[..n], referrer, d);
      assert ds == ds[..n] + [ds[n]];
      var e := EntryOf(load, ds[n]);
      var rest := Bucket(load, ds[..n], referrer);
      if e.manifest.subject.Some? == referrer {
        assert Descs(rest + [e]) == Descs(rest) + [ds[n]];
      }
    }
  }

  function Descs(es: seq<Entry>): (ds: seq<Descriptor>)
    ensures |ds| == |es| && forall i :: 0 <= i < |es| ==> ds[i] == es[i].desc
  {
    seq(|es|, i requires 0 <= i < |es| => es[i].desc)
  }

  predicate Present(dir: Files, digest: string) { BlobBytes(dir, digest).Some? }

  predicate ChildrenPresent(dir: Files, m: Manifest)
  {
    Present(dir, m.config.digest) && forall i :: 0 <= i < |m.layers| ==> Present(dir, m.layers[i].digest)
  }

  predicate RefersTo(dir: Files, e: Entry, primary: string)
  {
    e.manifest.subject.Some? && e.manifest.subject.value.digest == primary && ChildrenPresent(dir, e.manifest)
  }

  /** The entries load, one of them is the primary, and everything they name is there. */
  predicate Closed(load: Loader, ds: seq<Descriptor>, dir: Files)
  {
    && AllLoadable(load, ds)
    && var primaries := Bucket(load, ds, false);
       var referrers := Bucket(load, ds, true);
    && |primaries| == 1
    && ChildrenPresent(dir, primaries[0].manifest)
    && forall i :: 0 <= i < |referrers| ==> RefersTo(dir, referrers[i], primaries[0].desc.digest)
  }

  /** A layout `publish` may trust. */
  predicate WellFormed(c: Codec, dir: Files)
  {
    LayoutValid(c, dir) && IndexEntries(c, dir).Some? && Closed(Stored(c, dir), IndexEntries(c, dir).value, dir)
  }

  /** What one manifest adds to the closure: its layers, its config, then itself. */
  function Block(e: Entry): seq<Descriptor>
  {
    e.manifest.layers + [e.manifest.config] + [e.desc]
  }

  function Blocks(es: seq<Entry>): seq<Descriptor>
  {
    if es == [] then [] else Blocks(es[..|es| - 1]) + Block(es[|es| - 1])
  }

  /** Everything reachable from the index before the primary manifest itself. */
  function Body(primary: Entry, referrers: seq<Entry>): seq<Descriptor>
  {
    primary.manifest.layers + [primary.manifest.config] + Blocks(referrers)
  }

  function Digests(ds: seq<Descriptor>): set<string> { set d <- ds :: d.digest }

  /** The first descriptor of each digest, in order. */
  function FirstByDigest(ds: seq<Descriptor>): (out: seq<Descriptor>)
    ensures Digests(out) == Digests(ds)
  {
    if ds == [] then []
    else
      var n := |ds| - 1;
      var rest := FirstByDigest(ds[..n]);
      assert ds == ds[..n] + [ds[n]];
      assert Digests(ds) == Digests(ds[..n]) + {ds[n].digest};
      if ds[n].digest in Digests(ds[..n]) then rest
      else
        assert Digests(rest + [ds[n]]) == Digests(rest) + {ds[n].digest};
        rest + [ds[n]]
  }

  function ViewOf(load: Loader, ds: seq<Descriptor>): ImageDir
    requires AllLoadable(load, ds) && |Bucket(load, ds, false)| == 1
  {
    var p := Bucket(load, ds, false)[0];
    var rs := Bucket(load, ds, true);
    ImageDir(p.desc, p.manifest.config, p.manifest.layers, Descs(rs), FirstByDigest(Body(p, rs) + [p.desc]))
  }

  /** The value `ImageDir::open` returns on a well-formed layout. */
  function View(c: Codec, dir: Files): ImageDir
    requires WellFormed(c, dir)
  {
    ViewOf(Stored(c, dir), IndexEntries(c, dir).value)
  }

  // ── the defects an error may report ──

  /** What is wrong with an index entry by itself. */
  ghost predicate EntryDefect(c: Codec, dir: Files, d: Descriptor, e: ImageDirError)
  {
    match e
    case InvalidDigestFormat(g, defect) => g == d.digest && HexOf(g) == Err(defect)
    case MissingBlob(g, why) => why == IndexEntry && g == d.digest && Addressable(g) && !Present(dir, g)
    case MalformedJson(f) => HexOf(d.digest) == Ok(f.name) && f.Blob? && f in dir && ParseManifest(c, dir[f]).None?
    case UnsupportedManifestMediaType(g, found) =>
      g == d.digest && found != MANIFEST_TYPE && (d.mediaType == found || StoredAs(c, dir, g, found))
    case _ => false
  }

  /** The manifest stored for a digest states this media type. */
  predicate StoredAs(c: Codec, dir: Files, digest: string, mediaType: string)
  {
    var m := StoredManifest(c, dir, digest);
    m.Some? && m.value.mediaType == Some(mediaType)
  }

  /** A manifest names a blob that is not there, or that cannot be. */
  ghost predicate ChildDefect(dir: Files, m: Manifest, e: ImageDirError)
  {
    match e
    case InvalidDigestFormat(g, defect) => Names(m, g) && HexOf(g) == Err(defect)
    case MissingBlob(g, why) => why == Child && Names(m, g) && Addressable(g) && !Present(dir, g)
    case _ => false
  }

  predicate Names(m: Manifest, g: string) { g == m.config.digest || g in Digests(m.layers) }

  /** Some index entry has this defect, or the manifest it names has it. */
  ghost predicate ListedDefect(c: Codec, dir: Files, ds: seq<Descriptor>, e: ImageDirError)
  {
    || (exists d :: d in ds && EntryDefect(c, dir, d, e))
    || (AllLoadable(Stored(c, dir), ds) && exists d :: d in ds && ChildDefect(dir, Stored(c, dir)(d.digest).value, e))
  }

  /** Some referrer's subject is `digest`, and the only primary is something else. */
  ghost predicate SubjectStray(load: Loader, ds: seq<Descriptor>, digest: string)
    requires AllLoadable(load, ds)
  {
    var rs, ps := Bucket(load, ds, true), Bucket(load, ds, false);
    |ps| == 1 && ps[0].desc.digest != digest &&
    exists i :: 0 <= i < |rs| && rs[i].manifest.subject.value.digest == digest
  }

  /** An error is truthful: the directory has the defect it names. */
  ghost predicate Defect(c: Codec, dir: Files, e: ImageDirError)
  {
    var ds := IndexEntries(c, dir);
    match e
    case MissingFile(f) => (f == LAYOUT_FILE || f == INDEX_FILE) && f !in dir
    case UnsupportedLayoutVersion(v) => LAYOUT_FILE in dir && LayoutVersion(c, dir) == Some(v) && v != LAYOUT_VERSION
    case NoPrimaryManifest =>
      ds.Some? && AllLoadable(Stored(c, dir), ds.value) && Bucket(Stored(c, dir), ds.value, false) == []
    case MultiplePrimaryManifests(n) =>
      ds.Some? && AllLoadable(Stored(c, dir), ds.value) && n == |Bucket(Stored(c, dir), ds.value, false)| && n > 1
    case MissingBlob(d, SubjectMismatch) =>
      ds.Some? && AllLoadable(Stored(c, dir), ds.value) && SubjectStray(Stored(c, dir), ds.value, d)
    case MalformedJson(f) =>
      if f == LAYOUT_FILE then f in dir && LayoutVersion(c, dir).None?
      else if f == INDEX_FILE then f in dir && ds.None?
      else ds.Some? && ListedDefect(c, dir, ds.value, e)
    case _ => ds.Some? && ListedDefect(c, dir, ds.value, e)
  }

  lemma EntryRefutes(c: Codec, dir: Files, d: Descriptor, e: ImageDirError)
    requires EntryDefect(c, dir, d, e)
    ensures !Loadable(Stored(c, dir), d)
  {
  }

  lemma ChildRefutes(dir: Files, m: Manifest, e: ImageDirError)
    requires ChildDefect(dir, m, e)
    ensures !ChildrenPresent(dir, m)
  {
    var g := if e.InvalidDigestFormat? then e.digest else e.digest;
    assert !Present(dir, g);
    if g != m.config.digest {
      var i :| 0 <= i < |m.layers| && m.layers[i].digest == g;
    }
  }

  /** In an accepted layout every listed manifest has its children. */
  lemma ClosedChildren(load: Loader, ds: seq<Descriptor>, dir: Files, d: Descriptor)
    requires Closed(load, ds, dir) && d in ds
    ensures ChildrenPresent(dir, load(d.digest).value)
  {
    var ps, rs := Bucket(load, ds, false), Bucket(load, ds, true);
    BucketMembers(load, ds, false, d);
    BucketMembers(load, ds, true, d);
    if d in Descs(rs) {
      var i :| 0 <= i < |rs| && Descs(rs)[i] == d;
      assert RefersTo(dir, rs[i], ps[0].desc.digest);
    } else {
      assert Descs(ps)[0] == d;
    }
  }

  lemma ListedRefutes(c: Codec, dir: Files, ds: seq<Descriptor>, e: ImageDirError)
    requires ListedDefect(c, dir, ds, e)
    ensures !Closed(Stored(c, dir), ds, dir)
  {
    var load := Stored(c, dir);
    if d :| d in ds && EntryDefect(c, dir, d, e) {
      EntryRefutes(c, dir, d, e);
      assert AllLoadable(load, ds) ==> Loadable(load, d);
    } else {
      var d :| d in ds && ChildDefect(dir, load(d.digest).value, e);
      ChildRefutes(dir, load(d.digest).value, e);
      if Closed(load, ds, dir) { ClosedChildren(load, ds, dir, d); }
    }
  }

  lemma StrayRefutes(load: Loader, ds: seq<Descriptor>, dir: Files, digest: string)
    requires AllLoadable(load, ds) && SubjectStray(load, ds, digest)
    ensures !Closed(load, ds, dir)
  {
    var rs, ps := Bucket(load, ds, true), Bucket(load, ds, false);
    var i :| 0 <= i < |rs| && rs[i].manifest.subject.value.digest == digest;
    assert !RefersTo(dir, rs[i], ps[0].desc.digest);
  }

  /** A directory with the defect an error names is none the reader may accept. */
  lemma DefectRefutes(c: Codec, dir: Files, e: ImageDirError)
    requires Defect(c, dir, e)
    ensures !WellFormed(c, dir)
  {
    var ds := IndexEntries(c, dir);
    if ds.Some? {
      if ListedDefect(c, dir, ds.value, e) { ListedRefutes(c, dir, ds.value, e); }
      if e.MissingBlob? && e.why == SubjectMismatch { StrayRefutes(Stored(c, dir), ds.value, dir, e.digest); }
    }
  }

  // ── the reader ──

  /** The checks on one index entry, in the order the reader makes them. */
  function LoadManifest(c: Codec, dir: Files, d: Descriptor): (r: Result<Manifest, ImageDirError>)
    ensures r.Ok? <==> Loadable(Stored(c, dir), d)
    ensures r.Ok? ==> StoredManifest(c, dir, d.digest) == Some(r.value)
    ensures r.Err? ==> EntryDefect(c, dir, d, r.error)
  {
    var h := HexOf(d.digest);
    if h.Err? && h.error != NotLowercaseHex then Err(InvalidDigestFormat(d.digest, h.error))
    else if d.mediaType != MANIFEST_TYPE then Err(UnsupportedManifestMediaType(d.digest, d.mediaType))
    else if h.Err? then Err(InvalidDigestFormat(d.digest, h.error))
    else if Blob(h.value) !in dir then Err(MissingBlob(d.digest, IndexEntry))
    else
      var m := ParseManifest(c, dir[Blob(h.value)]);
      if m.None? then Err(MalformedJson(Blob(h.value)))
      else if m.value.mediaType.Some? && m.value.mediaType.value != MANIFEST_TYPE then
        Err(UnsupportedManifestMediaType(d.digest, m.value.mediaType.value))
      else Ok(m.value)
  }

  /** `validate_descriptor_blob_present`. */
  function RequirePresent(dir: Files, digest: string): (r: Result<(), ImageDirError>)
    ensures r.Ok? <==> Present(dir, digest)
    ensures r.Err? ==> forall m :: Names(m, digest) ==> ChildDefect(dir, m, r.error)
  {
    var h := HexOf(digest);
    if h.Err? then Err(InvalidDigestFormat(digest, h.error))
    else if Blob(h.value) !in dir then Err(MissingBlob(digest, Child))
    else Ok(())
  }

  method RequireChildren(dir: Files, m: Manifest) returns (r: Result<(), ImageDirError>)
    ensures r.Ok? <==> ChildrenPresent(dir, m)
    ensures r.Err? ==> ChildDefect(dir, m, r.error)
  {
    r := RequirePresent(dir, m.config.digest);
    if r.Err? { return; }
    for i := 0 to |m.layers|
      invariant Present(dir, m.config.digest)
      invariant forall k :: 0 <= k < i ==> Present(dir, m.layers[k].digest)
    {
      r := RequirePresent(dir, m.layers[i].digest);
      if r.Err? { return; }
    }
    r := Ok(());
  }

  method ReadIndex(c: Codec, dir: Files) returns (r: Result<seq<Descriptor>, ImageDirError>)
    ensures r.Ok? <==> LayoutValid(c, dir) && IndexEntries(c, dir).Some?
    ensures r.Ok? ==> IndexEntries(c, dir) == Some(r.value)
    ensures r.Err? ==> Defect(c, dir, r.error)
  {
    if LAYOUT_FILE !in dir { return Err(MissingFile(LAYOUT_FILE)); }
    var v := LayoutVersion(c, dir);
    if v.None? { return Err(MalformedJson(LAYOUT_FILE)); }
    if v.value != LAYOUT_VERSION { return Err(UnsupportedLayoutVersion(v.value)); }
    if INDEX_FILE !in dir { return Err(MissingFile(INDEX_FILE)); }
    var ds := IndexEntries(c, dir);
    if ds.None? { return Err(MalformedJson(INDEX_FILE)); }
    r := Ok(ds.value);
  }

  method Push(d: Descriptor, seen: set<string>, out: seq<Descriptor>, ghost done: seq<Descriptor>)
    returns (seen': set<string>, out': seq<Descriptor>)
    requires seen == Digests(done) && out == FirstByDigest(done)
    ensures seen' == Digests(done + [d]) && out' == FirstByDigest(done + [d])
  {
    ghost var all := done + [d];
    assert all[..|all| - 1] == done;
    assert Digests(all) == Digests(done) + {d.digest};
    if d.digest in seen { return seen, out; }
    return seen + {d.digest}, out + [d];
  }

  method PushAll(ds: seq<Descriptor>, seen: set<string>, out: seq<Descriptor>, ghost done: seq<Descriptor>)
    returns (seen': set<string>, out': seq<Descriptor>)
    requires seen == Digests(done) && out == FirstByDigest(done)
    ensures seen' == Digests(done + ds) && out' == FirstByDigest(done + ds)
  {
    seen', out' := seen, out;
    assert done + ds[..0] == done;
    for i := 0 to |ds|
      invariant seen' == Digests(done + ds[..i]) && out' == FirstByDigest(done + ds[..i])
    {
      assert done + ds[..i + 1] == done + ds[..i] + [ds[i]];
      seen', out' := Push(ds[i], seen', out', done + ds[..i]);
    }
    assert done + ds[..|ds|] == done + ds;
  }

  method PushBlock(e: Entry, seen: set<string>, out: seq<Descriptor>, ghost done: seq<Descriptor>)
    returns (seen': set<string>, out': seq<Descriptor>)
    requires seen == Digests(done) && out == FirstByDigest(done)
    ensures seen' == Digests(done + Block(e)) && out' == FirstByDigest(done + Block(e))
  {
    seen', out' := PushAll(e.manifest.layers, seen, out, done);
    ghost var d1 := done + e.manifest.layers;
    seen', out' := Push(e.manifest.config, seen', out', d1);
    ghost var d2 := d1 + [e.manifest.config];
    seen', out' := Push(e.desc, seen', out', d2);
    assert d2 + [e.desc] == done + Block(e);
  }

  /** The union of everything a sink must materialise, primary manifest last. */
  method CollectReferenced(p: Entry, referrers: seq<Entry>) returns (out: seq<Descriptor>)
    ensures out == FirstByDigest(Body(p, referrers) + [p.desc])
  {
    var seen: set<string> := {};
    out := [];
    seen, out := PushAll(p.manifest.layers, seen, out, []);
    assert [] + p.manifest.layers == p.manifest.layers;
    seen, out := Push(p.manifest.config, seen, out, p.manifest.layers);
    ghost var head := p.manifest.layers + [p.manifest.config];
    ghost var done := head;
    for i := 0 to |referrers|
      invariant done == head + Blocks(referrers[..i])
      invariant seen == Digests(done) && out == FirstByDigest(done)
    {
      seen, out := PushBlock(referrers[i], seen, out, done);
      BlocksStep(head, referrers, i);
      done := done + Block(referrers[i]);
    }
    assert referrers[..|referrers|] == referrers;
    seen, out := Push(p.desc, seen, out, done);
  }

  lemma BlocksStep(head: seq<Descriptor>, es: seq<Entry>, i: nat)
    requires i < |es|
    ensures head + Blocks(es[..i]) + Block(es[i]) == head + Blocks(es[..i + 1])
  {
    assert es[..i + 1][..i] == es[..i];
  }

  /** Loads every index entry and sorts it by whether its manifest has a subject. */
  method SplitEntries(c: Codec, dir: Files, ds: seq<Descriptor>)
    returns (r: Result<(seq<Entry>, seq<Entry>), ImageDirError>)
    ensures r.Ok? <==> AllLoadable(Stored(c, dir), ds)
    ensures r.Ok? ==> r.value == (Bucket(Stored(c, dir), ds, false), Bucket(Stored(c, dir), ds, true))
    ensures r.Err? ==> ListedDefect(c, dir, ds, r.error)
  {
    var primaries: seq<Entry> := [];
    var referrers: seq<Entry> := [];
    ghost var load := Stored(c, dir);
    for i := 0 to |ds|
      invariant AllLoadable(load, ds[..i])
      invariant primaries == Bucket(load, ds[..i], false) && referrers == Bucket(load, ds[..i], true)
    {
      var loaded := LoadManifest(c, dir, ds[i]);
      if loaded.Err? {
        assert ds[i] in ds && EntryDefect(c, dir, ds[i], loaded.error);
        return Err(loaded.error);
      }
      var m := loaded.value;
      BucketStep(load, ds, i);
      if m.subject.Some? {
        referrers := referrers + [Entry(ds[i], m)];
      } else {
        primaries := primaries + [Entry(ds[i], m)];
      }
    }
    assert ds[..|ds|] == ds;
    r := Ok((primaries, referrers));
  }

  lemma BucketStep(load: Loader, ds: seq<Descriptor>, i: nat)
    requires i < |ds| && AllLoadable(load, ds[..i]) && Loadable(load, ds[i])
    ensures AllLoadable(load, ds[..i + 1])
    ensures forall b :: (Bucket(load, ds[..i + 1], b) ==
      Bucket(load, ds[..i], b) + (if load(ds[i].digest).value.subject.Some? == b then [EntryOf(load, ds[i])] else []))
  {
    assert ds[..i + 1][..i] == ds[..i];
  }

  /** A referrer lacks a child, or names something else than the primary. */
  ghost predicate ReferrerDefect(dir: Files, p: Entry, referrer: Entry, e: ImageDirError)
    requires referrer.manifest.subject.Some?
  {
    var subject := referrer.manifest.subject.value;
    || ChildDefect(dir, referrer.manifest, e)
    || (p.desc.digest != subject.digest && e == MissingBlob(subject.digest, SubjectMismatch))
  }

  lemma BucketDefect(c: Codec, dir: Files, ds: seq<Descriptor>, referrer: bool, i: nat, e: ImageDirError)
    requires IndexEntries(c, dir) == Some(ds) && AllLoadable(Stored(c, dir), ds)
    requires i < |Bucket(Stored(c, dir), ds, referrer)|
    requires ChildDefect(dir, Bucket(Stored(c, dir), ds, referrer)[i].manifest, e)
    ensures Defect(c, dir, e)
  {
    var load := Stored(c, dir);
    var es := Bucket(load, ds, referrer);
    BucketMembers(load, ds, referrer, es[i].desc);
    assert Descs(es)[i] == es[i].desc;
    assert es[i].desc in ds && ChildDefect(dir, load(es[i].desc.digest).value, e);
  }

  lemma CountDefect(c: Codec, dir: Files, ds: seq<Descriptor>)
    requires IndexEntries(c, dir) == Some(ds) && AllLoadable(Stored(c, dir), ds)
    ensures var n := |Bucket(Stored(c, dir), ds, false)|;
      n != 1 ==> Defect(c, dir, if n == 0 then NoPrimaryManifest else MultiplePrimaryManifests(n))
  {
  }

  lemma ReferrersDefect(c: Codec, dir: Files, ds: seq<Descriptor>, p: Entry, es: seq<Entry>, e: ImageDirError)
    requires IndexEntries(c, dir) == Some(ds) && AllLoadable(Stored(c, dir), ds)
    requires Bucket(Stored(c, dir), ds, false) == [p] && Bucket(Stored(c, dir), ds, true) == es
    requires exists i :: 0 <= i < |es| && ReferrerDefect(dir, p, es[i], e)
    ensures Defect(c, dir, e)
  {
    var i :| 0 <= i < |es| && ReferrerDefect(dir, p, es[i], e);
    if ChildDefect(dir, es[i].manifest, e) { BucketDefect(c, dir, ds, true, i, e); }
  }

  /** Every referrer names the primary as its subject and has its content. */
  method CheckReferrers(dir: Files, p: Entry, referrers: seq<Entry>) returns (r: Result<(), ImageDirError>)
    requires forall i :: 0 <= i < |referrers| ==> referrers[i].manifest.subject.Some?
    ensures r.Ok? <==> forall i :: 0 <= i < |referrers| ==> RefersTo(dir, referrers[i], p.desc.digest)
    ensures r.Err? ==>
      exists i :: 0 <= i < |referrers| && ReferrerDefect(dir, p, referrers[i], r.error)
  {
    for i := 0 to |referrers|
      invariant forall k :: 0 <= k < i ==> RefersTo(dir, referrers[k], p.desc.digest)
    {
      var e := referrers[i];
      var subject := e.manifest.subject.value;
      if subject.digest != p.desc.digest {
        r := Err(MissingBlob(subject.digest, SubjectMismatch));
        assert ReferrerDefect(dir, p, referrers[i], r.error);
        return;
      }
      r := RequireChildren(dir, e.manifest);
      if r.Err? {
        assert ReferrerDefect(dir, p, referrers[i], r.error);
        return;
      }
    }
    r := Ok(());
  }

  /** The content of the primary and of its referrers. */
  method CheckContent(c: Codec, dir: Files, ghost ds: seq<Descriptor>, p: Entry, referrers: seq<Entry>)
    returns (r: Result<(), ImageDirError>)
    requires IndexEntries(c, dir) == Some(ds) && AllLoadable(Stored(c, dir), ds)
    requires Bucket(Stored(c, dir), ds, false) == [p] && Bucket(Stored(c, dir), ds, true) == referrers
    ensures r.Ok? <==> Closed(Stored(c, dir), ds, dir)
    ensures r.Err? ==> Defect(c, dir, r.error)
  {
    r := RequireChildren(dir, p.manifest);
    if r.Err? {
      BucketDefect(c, dir, ds, false, 0, r.error);
      return;
    }
    r := CheckReferrers(dir, p, referrers);
    if r.Err? { ReferrersDefect(c, dir, ds, p, referrers, r.error); }
  }

  /** The checks on the whole closure, once every entry is loaded and sorted. */
  method Assemble(c: Codec, dir: Files, ghost ds: seq<Descriptor>, primaries: seq<Entry>, referrers: seq<Entry>)
    returns (r: Result<ImageDir, ImageDirError>)
    requires IndexEntries(c, dir) == Some(ds) && AllLoadable(Stored(c, dir), ds)
    requires primaries == Bucket(Stored(c, dir), ds, false) && referrers == Bucket(Stored(c, dir), ds, true)
    ensures r.Ok? <==> Closed(Stored(c, dir), ds, dir)
    ensures r.Ok? ==> r.value == ViewOf(Stored(c, dir), ds)
    ensures r.Err? ==> Defect(c, dir, r.error)
  {
    if |primaries| != 1 {
      CountDefect(c, dir, ds);
      return Err(if |primaries| == 0 then NoPrimaryManifest else MultiplePrimaryManifests(|primaries|));
    }
    var p := primaries[0];
    var _ :- CheckContent(c, dir, ds, p, referrers);
    var referenced := CollectReferenced(p, referrers);
    r := Ok(ImageDir(p.desc, p.manifest.config, p.manifest.layers, Descs(referrers), referenced));
  }

  /**
   * `ImageDir::open` accepts exactly the well-formed layouts, reports a truthful defect
   * otherwise, and returns the view.
   */
  method Open(c: Codec, dir: Files) returns (r: Result<ImageDir, ImageDirError>)
    ensures r.Ok? <==> WellFormed(c, dir)
    ensures r.Ok? ==> r.value == View(c, dir)
    ensures r.Err? ==> Defect(c, dir, r.error)
  {
    var ds :- ReadIndex(c, dir);
    var split: (seq<Entry>, seq<Entry>) :- SplitEntries(c, dir, ds);
    r := Assemble(c, dir, ds, split.0, split.1);
  }
}
