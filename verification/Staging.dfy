/**
 * Files written beside a layout and moved into place: what every state on the way keeps.
 */
module Staging {
  import opened Wrappers
  import opened Json
  import opened Oci
  import opened FileSystems

  /** Where a run started, and the data behind every digest, where that is known. */
  datatype Base = Base(files: Files, mark: nat, store: Option<string -> Bytes>)

  ghost predicate IndexKept(b: Base, f: Files)
  {
    (INDEX_FILE in f <==> INDEX_FILE in b.files) && (INDEX_FILE in f ==> f[INDEX_FILE] == b.files[INDEX_FILE])
  }

  ghost predicate BlobsGrow(f: Files, f': Files)
  {
    forall h :: IsHex64(h) && Blob(h) in f ==> Blob(h) in f' && f'[Blob(h)] == f[Blob(h)]
  }

  /** A step towards a layout: blobs stay, the marker is neither made nor lost. */
  ghost predicate Onward(f: Files, f': Files)
  {
    BlobsGrow(f, f') && (LAYOUT_FILE in f <==> LAYOUT_FILE in f')
  }

  ghost predicate Moved(q: Path, f: Files, f': Files) { BlobsGrow(f, f') && (q != LAYOUT_FILE ==> Onward(f, f')) }

  /** The document every layout's marker is. */
  function MarkerBytes(c: Codec): Bytes { c.compact(JObj(map["imageLayoutVersion" := JStr(LAYOUT_VERSION)])) }

  /** A marker that is there and was not before is a prefix of the document. */
  ghost predicate MarkerStarted(c: Codec, b: Base, f: Files)
  {
    LAYOUT_FILE in f && LAYOUT_FILE !in b.files ==> f[LAYOUT_FILE] <= MarkerBytes(c)
  }

  /**
   * The store is correct, old blobs and an old marker are as they were, new blobs are the
   * registry's, and a new marker may be unfinished.
   */
  ghost predicate StoreKept(c: Codec, b: Base, f: Files)
  {
    && StoreCorrect(c, f) && BlobsGrow(b.files, f)
    && (LAYOUT_FILE in b.files ==> LAYOUT_FILE in f && f[LAYOUT_FILE] == b.files[LAYOUT_FILE]) && MarkerStarted(c, b, f)
    && (b.store.Some? ==> forall h :: IsHex64(h) && Blob(h) in f && Blob(h) !in b.files ==>
      f[Blob(h)] == b.store.value(h))
  }

  ghost predicate Kept(c: Codec, b: Base, f: Files) { StoreKept(c, b, f) && IndexKept(b, f) }

  /** Every state so far keeps what was there. */
  ghost predicate Safe(c: Codec, b: Base, fs: Fs)
    reads fs
  {
    Kept(c, b, fs.files) && b.mark <= |fs.history| && forall i :: b.mark <= i < |fs.history| ==>
      Kept(c, b, fs.history[i])
  }

  /** A path that is no part of the layout yet. */
  predicate Scratch(b: Base, q: Path)
  {
    q != INDEX_FILE && !(q.Blob? && IsHex64(q.name)) && (q == LAYOUT_FILE ==> q !in b.files)
  }

  lemma ScratchKept(c: Codec, b: Base, f: Files, f': Files, q: Path)
    requires Kept(c, b, f) && Scratch(b, q) && f' - {q} == f - {q} && (q == LAYOUT_FILE ==> MarkerStarted(c, b, f'))
    ensures Kept(c, b, f') && Moved(q, f, f')
  {
    assert forall p :: p != q ==> (p in f <==> p in f - {q}) && (p in f' <==> p in f' - {q});
    assert forall p :: p != q && p in f ==> f[p] == (f - {q})[p];
    assert forall p :: p != q && p in f' ==> f'[p] == (f' - {q})[p];
  }

  // ── files ──

  const READ_CHUNK: nat := 64 * 1024

  /** The size of the next chunk of `left` bytes, at the system's whim. */
  function ChunkSize(wish: nat, left: nat): (n: nat)
    requires left > 0
    ensures 0 < n <= left
  {
    var m := if wish == 0 then 1 else if wish > READ_CHUNK then READ_CHUNK else wish;
    if m > left then left else m
  }

  method CreateScratch(c: Codec, fs: Fs, q: Path, ghost b: Base) returns (ok: bool)
    requires Safe(c, b, fs) && Scratch(b, q)
    modifies fs
    ensures Safe(c, b, fs) && Moved(q, old(fs.files), fs.files)
    ensures fs.Reliable() ==> ok
    ensures fs.files - {q} == old(fs.files) - {q}
    ensures ok ==> q in fs.files && fs.files[q] == [] && fs.history == old(fs.history) + [fs.files]
  {
    ghost var f := fs.files;
    ok := fs.Create(q);
    ScratchKept(c, b, f, fs.files, q);
  }

  method AppendScratch(c: Codec, fs: Fs, q: Path, chunk: Bytes, ghost b: Base) returns (ok: bool)
    requires Safe(c, b, fs) && Scratch(b, q) && q in fs.files
    requires q == LAYOUT_FILE ==> fs.files[q] + chunk <= MarkerBytes(c)
    modifies fs
    ensures Safe(c, b, fs) && Moved(q, old(fs.files), fs.files)
    ensures fs.Reliable() ==> ok
    ensures fs.files - {q} == old(fs.files) - {q}
    ensures ok ==> q in fs.files && fs.files[q] == old(fs.files)[q] + chunk
    ensures old(fs.history) <= fs.history
  {
    ghost var f := fs.files;
    ok := fs.Append(q, chunk);
    ScratchKept(c, b, f, fs.files, q);
  }

  method RemoveScratch(c: Codec, fs: Fs, q: Path, ghost b: Base)
    requires Safe(c, b, fs) && Scratch(b, q)
    modifies fs
    ensures Safe(c, b, fs) && Moved(q, old(fs.files), fs.files)
    ensures fs.Reliable() ==> q !in fs.files
  {
    ghost var f := fs.files;
    var ok := fs.Remove(q);
    ScratchKept(c, b, f, fs.files, q);
  }

  /** In this state of the past the file was there, and empty. */
  ghost predicate WasEmpty(fs: Fs, i: nat, q: Path)
    reads fs
  {
    i < |fs.history| && q in fs.history[i] && fs.history[i][q] == []
  }

  /** `fs::write`: the file is empty before it is full. */
  method WriteScratch(c: Codec, fs: Fs, q: Path, data: Bytes, ghost b: Base) returns (ok: bool)
    requires Safe(c, b, fs) && Scratch(b, q) && (q == LAYOUT_FILE ==> data == MarkerBytes(c))
    modifies fs
    ensures Safe(c, b, fs) && Moved(q, old(fs.files), fs.files)
    ensures fs.Reliable() ==> ok
    ensures fs.files - {q} == old(fs.files) - {q}
    ensures ok ==> q in fs.files && fs.files[q] == data && WasEmpty(fs, |old(fs.history)|, q)
  {
    ok := CreateScratch(c, fs, q, b);
    if !ok { return; }
    var total := 0;
    while total < |data|
      invariant total <= |data|
      invariant Safe(c, b, fs) && Moved(q, old(fs.files), fs.files)
      invariant fs.files - {q} == old(fs.files) - {q}
      invariant q in fs.files && fs.files[q] == data[..total] && WasEmpty(fs, |old(fs.history)|, q)
    {
      var n := ChunkSize(fs.sizes(fs.clock), |data| - total);
      assert data[..total] + data[total..total + n] == data[..total + n];
      ok := AppendScratch(c, fs, q, data[total..total + n], b);
      if !ok { return; }
      total := total + n;
    }
    assert data[..|data|] == data;
  }

  /** Nothing outside `qs` changes. */
  ghost predicate Apart(qs: set<Path>, f: Files, f': Files)
  {
    forall p :: p !in qs ==> (p in f <==> p in f') && (p in f ==> f'[p] == f[p])
  }

  lemma MinusApart(q: Path, f: Files, f': Files)
    requires f' - {q} == f - {q}
    ensures Apart({q}, f, f')
  {
    assert forall p :: p != q ==> (p in f <==> p in f - {q}) && (p in f' <==> p in f' - {q});
    assert forall p :: p != q && p in f ==> f[p] == (f - {q})[p];
    assert forall p :: p != q && p in f' ==> f'[p] == (f' - {q})[p];
  }

  /** A verified temporary file gets its content-addressed name. */
  method Commit(c: Codec, fs: Fs, q: Path, hex: string, data: Bytes, ghost b: Base) returns (ok: bool)
    requires Safe(c, b, fs) && Scratch(b, q) && q != LAYOUT_FILE && IsHex64(hex) && Blob(hex) !in fs.files
    requires q in fs.files && fs.files[q] == data && c.hash(data) == hex
    requires b.store.Some? ==> data == b.store.value(hex)
    modifies fs
    ensures Safe(c, b, fs) && Onward(old(fs.files), fs.files)
    ensures fs.Reliable() ==> ok
    ensures ok ==> Blob(hex) in fs.files && fs.files[Blob(hex)] == data
    ensures Apart({q, Blob(hex)}, old(fs.files), fs.files)
  {
    ghost var f := fs.files;
    ok := fs.Rename(q, Blob(hex));
    CommitKept(c, b, f, q, hex);
  }

  lemma CommitKept(c: Codec, b: Base, f: Files, q: Path, hex: string)
    requires Kept(c, b, f) && Scratch(b, q) && q != LAYOUT_FILE && IsHex64(hex) && Blob(hex) !in f && q in f
    requires c.hash(f[q]) == hex && (b.store.Some? ==> f[q] == b.store.value(hex))
    ensures var f' := (f - {q})[Blob(hex) := f[q]]; Kept(c, b, f') && Onward(f, f')
  {
  }

  /** The last state is the only one with the new index. */
  ghost predicate Switched(c: Codec, b: Base, fs: Fs, index: Bytes)
    reads fs
  {
    && StoreKept(c, b, fs.files) && INDEX_FILE in fs.files && fs.files[INDEX_FILE] == index
    && b.mark < |fs.history| && fs.history[|fs.history| - 1] == fs.files
    && forall i :: b.mark <= i < |fs.history| - 1 ==> Kept(c, b, fs.history[i])
  }

  /** The index is written beside the old one and takes its place in one rename. */
  method ReplaceIndex(c: Codec, fs: Fs, tmp: Path, index: Bytes, ghost b: Base) returns (ok: bool)
    requires Safe(c, b, fs) && Scratch(b, tmp) && tmp != LAYOUT_FILE
    modifies fs
    ensures !ok ==> Safe(c, b, fs)
    ensures ok ==> Switched(c, b, fs, index)
    ensures Onward(old(fs.files), fs.files)
    ensures Apart({tmp, INDEX_FILE}, old(fs.files), fs.files)
    ensures fs.Reliable() ==> ok
  {
    ghost var f := fs.files;
    ok := WriteScratch(c, fs, tmp, index, b);
    MinusApart(tmp, f, fs.files);
    if !ok { return; }
    ok := fs.Rename(tmp, INDEX_FILE);
  }

  // ── content-addressed writes ──

  predicate Has(c: Codec, f: Files, data: Bytes) { Blob(c.hash(data)) in f }

  /** Only the blob of `data` may have been added to what a reader sees. */
  ghost predicate Gains(c: Codec, f: Files, f': Files, data: Bytes)
  {
    forall p: Path :: p == LAYOUT_FILE || p == INDEX_FILE || (p.Blob? && IsHex64(p.name) && p.name != c.hash(data)) ==>
      (p in f <==> p in f') && (p in f ==> f'[p] == f[p])
  }

  /** `write_blob_if_absent`, and a put into the store: a blob that is there is left alone. */
  method PutBlob(c: Codec, fs: Fs, tmp: string -> string, data: Bytes, ghost b: Base) returns (ok: bool)
    requires Safe(c, b, fs) && c.Lawful() && (forall h :: !IsHex64(tmp(h)))
    requires b.store.Some? ==> data == b.store.value(c.hash(data))
    modifies fs
    ensures Safe(c, b, fs) && Onward(old(fs.files), fs.files) && Gains(c, old(fs.files), fs.files, data)
    ensures ok ==> Has(c, fs.files, data)
    ensures fs.Reliable() ==> ok
  {
    ok := fs.Tick();
    if !ok { return; }
    var hex := c.hash(data);
    assert IsHex64(hex);
    if Blob(hex) in fs.files { return; }
    ghost var f := fs.files;
    var q := Blob(tmp(hex));
    ok := WriteScratch(c, fs, q, data, b);
    MinusApart(q, f, fs.files);
    if !ok { return; }
    ok := Commit(c, fs, q, hex, data, b);
  }
}
