/** What a reader of the shared directory sees while layouts are published into it. */
module HttpFacts {
  import opened Wrappers
  import opened Oci
  import opened ImageDirs
  import opened ImageDirFacts
  import opened HttpPublishers
  import opened HttpSink

  /** Each publisher copies a valid layout. */
  ghost predicate Copies(c: Codec, pubs: seq<Publisher>, dirs: seq<Files>)
  {
    |dirs| == |pubs| && forall i :: 0 <= i < |pubs| ==> CopyOf(c, pubs[i].src, dirs[i])
  }

  ghost predicate CopyOf(c: Codec, src: Source, dir: Files)
  {
    && WellFormed(c, dir)
    && (forall i :: 0 <= i < |View(c, dir).referenced| ==> Present(dir, View(c, dir).referenced[i].digest))
    && src == SourceOf(View(c, dir), dir)
  }

  /** No blob that was there has other bytes than a publisher's blob of the same name. */
  ghost predicate NoConflicts(pubs: seq<Publisher>, f0: Files)
  {
    forall i :: 0 <= i < |pubs| ==> NoConflict(pubs[i].src, f0)
  }

  /** A reader of `f` finds the image of `dir`. */
  ghost predicate Shown(c: Codec, f: Files, dir: Files)
    requires WellFormed(c, f) && WellFormed(c, dir)
  {
    View(c, f) == View(c, dir)
  }

  lemma HeldMarker(pubs: seq<Publisher>, data: Bytes)
    requires Holds(pubs, LAYOUT_FILE, data)
    ensures exists i :: 0 <= i < |pubs| && pubs[i].src.layout == data
  {
  }

  lemma MarkerCopied(c: Codec, src: Source, dir: Files, f: Files)
    requires CopyOf(c, src, dir) && LAYOUT_FILE in f && f[LAYOUT_FILE] == src.layout
    ensures LayoutValid(c, f)
  {
    assert f[LAYOUT_FILE] == dir[LAYOUT_FILE];
  }

  /** The marker is always the old one or a publisher's, and so valid. */
  lemma MarkerValid(c: Codec, pubs: seq<Publisher>, dirs: seq<Files>, f0: Files, f: Files)
    requires Copies(c, pubs, dirs) && LayoutValid(c, f0) && Sourced(pubs, f0, f) && Grows(f0, f)
    ensures LayoutValid(c, f)
  {
    assert Canonical(LAYOUT_FILE) && LAYOUT_FILE in f;
    if f[LAYOUT_FILE] != f0[LAYOUT_FILE] {
      HeldMarker(pubs, f[LAYOUT_FILE]);
      var i :| 0 <= i < |pubs| && pubs[i].src.layout == f[LAYOUT_FILE];
      MarkerCopied(c, pubs[i].src, dirs[i], f);
    }
  }

  /** Under the old index the old image is shown. */
  lemma OldShown(c: Codec, f0: Files, f: Files)
    requires WellFormed(c, f0) && LayoutValid(c, f) && OldBytes(f0, f)
    requires INDEX_FILE in f && f[INDEX_FILE] == f0[INDEX_FILE]
    ensures WellFormed(c, f) && Shown(c, f, f0)
  {
    ReferencedPresent(c, f0);
    OldSame(f0, f, Digests(View(c, f0).referenced));
    SameIndexOpens(c, f0, f);
  }

  lemma OldSame(f0: Files, f: Files, gs: set<string>)
    requires OldBytes(f0, f) && forall g <- gs :: Present(f0, g)
    ensures SameBlobs(f0, f, gs)
  {
    forall g | g in gs ensures SameBlob(f0, f, g) { assert Present(f0, g) && Canonical(Path.Blob(HexOf(g).value)); }
  }

  /** A publisher's blob that is visible has its bytes. */
  lemma BlobSettled(pubs: seq<Publisher>, f0: Files, f: Files, i: nat, t: nat)
    requires Publishers(pubs) && Agreeing(pubs) && i < |pubs| && t < |pubs[i].src.blobs| && NoConflict(pubs[i].src, f0)
    requires OldBytes(f0, f) && Sourced(pubs, f0, f) && Path.Blob(pubs[i].src.blobs[t].0) in f
    ensures f[Path.Blob(pubs[i].src.blobs[t].0)] == pubs[i].src.blobs[t].1
  {
    var src := pubs[i].src;
    var q := Path.Blob(src.blobs[t].0);
    assert Canonical(q);
    if q !in f0 {
      assert q == Target(src, t + 1) && src.blobs[t].1 == Content(src, t + 1);
      assert Holds(pubs, q, src.blobs[t].1);
      HeldAlike(pubs, q, f[q], src.blobs[t].1);
    }
  }

  /** Under a publisher's index its image is shown. */
  lemma NewShown(c: Codec, pubs: seq<Publisher>, dir: Files, f0: Files, f: Files, i: nat)
    requires Publishers(pubs) && Agreeing(pubs) && i < |pubs| && NoConflict(pubs[i].src, f0)
    requires CopyOf(c, pubs[i].src, dir) && LayoutValid(c, f) && OldBytes(f0, f) && Sourced(pubs, f0, f)
    requires INDEX_FILE in f && f[INDEX_FILE] == pubs[i].src.index && Complete(pubs[i].src, f)
    ensures WellFormed(c, f) && Shown(c, f, dir)
  {
    var src := pubs[i].src;
    forall t | 0 <= t < |src.blobs|
      ensures Path.Blob(src.blobs[t].0) in f && f[Path.Blob(src.blobs[t].0)] == src.blobs[t].1
    {
      BlobSettled(pubs, f0, f, i, t);
    }
    SourceMirrors(View(c, dir), dir, f);
    SameIndexOpens(c, dir, f);
  }

  /**
   * Readers are never disturbed: at every step of every interleaving of publishers, whatever
   * fails and wherever they crash, the directory opens, as the image that was there or as
   * the image of one of the publishers.
   */
  lemma AlwaysOpens(c: Codec, pubs: seq<Publisher>, dirs: seq<Files>, f0: Files, run: seq<Config>, k: nat)
    requires Publishers(pubs) && Agreeing(pubs) && Copies(c, pubs, dirs) && NoConflicts(pubs, f0)
    requires WellFormed(c, f0) && Run(pubs, f0, run) && k < |run|
    ensures WellFormed(c, run[k].files)
    ensures
      || Shown(c, run[k].files, f0)
      || exists i :: 0 <= i < |dirs| && WellFormed(c, dirs[i]) && Shown(c, run[k].files, dirs[i])
  {
    var f := run[k].files;
    RunInv(pubs, f0, run, k);
    RunSettled(pubs, f0, run, k);
    MarkerValid(c, pubs, dirs, f0, f);
    assert Canonical(INDEX_FILE) && INDEX_FILE in f;
    if f[INDEX_FILE] == f0[INDEX_FILE] {
      OldShown(c, f0, f);
    } else {
      var i :| 0 <= i < |pubs| && f[INDEX_FILE] == pubs[i].src.index && Complete(pubs[i].src, f);
      NewShown(c, pubs, dirs[i], f0, f, i);
    }
  }

  /**
   * Every state a crash of one publication may leave, from a valid directory, opens as the old
   * image or as the published one.
   */
  lemma CrashOpens(c: Codec, pub: Publisher, dir: Files, f0: Files, run: seq<Config>, k: nat)
    requires CopyOf(c, pub.src, dir) && NoConflict(pub.src, f0)
    requires WellFormed(c, f0) && Run([pub], f0, run) && k < |run|
    ensures WellFormed(c, run[k].files) && (Shown(c, run[k].files, f0) || Shown(c, run[k].files, dir))
  {
    ValidatedSource(c, dir);
    AloneAgrees(pub);
    AloneCopies(c, pub, dir, f0);
    AlwaysOpens(c, [pub], [dir], f0, run, k);
  }

  lemma AloneCopies(c: Codec, pub: Publisher, dir: Files, f0: Files)
    requires CopyOf(c, pub.src, dir) && NoConflict(pub.src, f0)
    ensures Publishers([pub]) && Copies(c, [pub], [dir]) && NoConflicts([pub], f0)
  {
    assert forall i :: 0 <= i < |[pub]| ==> [pub][i] == pub && [dir][i] == dir;
  }

  lemma AloneAgrees(pub: Publisher)
    requires NamesDistinct(pub.src)
    ensures Agreeing([pub])
  {
    var bs := pub.src.blobs;
    forall x, y | x in bs && y in bs && x.0 == y.0 ensures x.1 == y.1 {
      var i :| 0 <= i < |bs| && bs[i] == x;
      var j :| 0 <= j < |bs| && bs[j] == y;
    }
  }
}
