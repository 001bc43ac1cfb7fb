/** `publish_http`: the copy into a static directory, and what a crash at any point leaves. */
module HttpSink {
  import opened Wrappers
  import opened Oci
  import opened ImageDirs
  import opened ImageDirFacts
  import opened FileSystems
  import opened HttpPublishers
  import opened Sinks

  // ── one publisher, stage by stage ──

  /** What consumers can see of a directory. */
  function CanonPart(f: Files): Files { map q <- f | Canonical(q) :: f[q] }

  /** The effect of a whole stage as one step. */
  function Place(src: Source, g: Files, stage: nat): Files
    requires stage <= Last(src)
  {
    if 0 < stage < Last(src) && Target(src, stage) in g then g else g[Target(src, stage) := Content(src, stage)]
  }

  /** The visible directory after the first `k` stages, done atomically one after another. */
  function Progress(src: Source, f: Files, k: nat): Files
    requires k <= Last(src) + 1
  {
    if k == 0 then CanonPart(f) else Place(src, Progress(src, f, k - 1), k - 1)
  }

  /** The visible directory after a complete publication. */
  function Published(src: Source, f: Files): Files { Progress(src, f, Last(src) + 1) }

  function Placed(src: Source, p: Proc): nat
  {
    if p.phase == Halted(true) then Last(src) + 1 else p.stage
  }

  /** Step by step, a lone publisher shows exactly its completed stages. */
  ghost predicate SoloInv(pub: Publisher, f0: Files, p: Proc, f: Files)
  {
    && ProcOk(pub, p, f)
    && CanonPart(f) == Progress(pub.src, f0, Placed(pub.src, p))
    && (0 < p.stage < Last(pub.src) && (p.phase.Create? || p.phase.Write? || p.phase.Rename?) ==>
      Target(pub.src, p.stage) !in f)
  }

  /** A file no reader sees may change, or move to a name they see. */
  lemma OutOfSight(f: Files, q: Path, x: Bytes)
    requires !Canonical(q)
    ensures CanonPart(f[q := x]) == CanonPart(f) && CanonPart(f - {q}) == CanonPart(f)
  {
  }

  lemma IntoSight(f: Files, q: Path, t: Path)
    requires !Canonical(q) && Canonical(t) && q in f
    ensures CanonPart((f - {q})[t := f[q]]) == CanonPart(f)[t := f[q]]
  {
  }

  /** Whether this operation is the one that shows the stage. */
  predicate Reveals(pub: Publisher, p: Proc, f: Files, ch: Choice)
    requires p.stage <= Last(pub.src)
  {
    p.phase.Rename? && ch.Go? && Tmp(pub, p.stage) in f
  }

  /** Every other operation leaves what is visible as it is. */
  lemma StepHidden(pub: Publisher, p: Proc, f: Files, ch: Choice)
    requires SourceNamed(pub.src) && p.stage <= Last(pub.src) && !p.phase.Halted? && !Reveals(pub, p, f, ch)
    ensures CanonPart(Step(pub, p, f, ch).1) == CanonPart(f)
    ensures forall q :: Canonical(q) ==> (q in Step(pub, p, f, ch).1 <==> q in f)
  {
    TmpNotCanonical(pub, p.stage);
    var tmp, f' := Tmp(pub, p.stage), Step(pub, p, f, ch).1;
    OutOfSight(f, tmp, if tmp in f' then f'[tmp] else []);
  }

  lemma StepReveals(pub: Publisher, f0: Files, p: Proc, f: Files, ch: Choice)
    requires SourceNamed(pub.src) && SoloInv(pub, f0, p, f) && Reveals(pub, p, f, ch)
    ensures CanonPart(Step(pub, p, f, ch).1) == Progress(pub.src, f0, p.stage + 1)
  {
    TmpNotCanonical(pub, p.stage);
    var t, tmp, content := Target(pub.src, p.stage), Tmp(pub, p.stage), Content(pub.src, p.stage);
    assert Canonical(t);
    assert content[..|content|] == content;
    IntoSight(f, tmp, t);
    assert t in f <==> t in CanonPart(f);
  }

  lemma SoloStep(pub: Publisher, f0: Files, p: Proc, f: Files, ch: Choice)
    requires SourceNamed(pub.src) && SoloInv(pub, f0, p, f) && !p.phase.Halted?
    ensures SoloInv(pub, f0, Step(pub, p, f, ch).0, Step(pub, p, f, ch).1)
  {
    StepOwn(pub, p, f, ch);
    if Reveals(pub, p, f, ch) {
      StepReveals(pub, f0, p, f, ch);
    } else {
      StepHidden(pub, p, f, ch);
      if p.phase.Check? && Skips(pub.src, p.stage, f) { StageSkipped(pub, f0, p, f); }
    }
    assert Canonical(Target(pub.src, p.stage));
  }

  /** A stage that is skipped was there to be seen. */
  lemma StageSkipped(pub: Publisher, f0: Files, p: Proc, f: Files)
    requires SourceNamed(pub.src) && SoloInv(pub, f0, p, f) && p.phase.Check? && Skips(pub.src, p.stage, f)
    ensures CanonPart(f) == Progress(pub.src, f0, p.stage + 1)
  {
    var t, g := Target(pub.src, p.stage), CanonPart(f);
    assert Canonical(t) && t in g && g[t] == f[t];
    assert g[t := g[t]] == g;
  }

  lemma {:induction false} SoloRun(pub: Publisher, f0: Files, run: seq<Config>, k: nat)
    requires SourceNamed(pub.src) && Run([pub], f0, run) && k < |run|
    ensures SoloInv(pub, f0, run[k].procs[0], run[k].files)
  {
    if k > 0 {
      SoloRun(pub, f0, run, k - 1);
      var a, b := run[k - 1], run[k];
      assert Next([pub], a, b);
      var i, ch :| 0 <= i < 1 && a.procs[i].stage <= Last([pub][i].src) && !a.procs[i].phase.Halted?
        && b ==
          Config(Step([pub][i], a.procs[i], a.files, ch).1, a.procs[i := Step([pub][i], a.procs[i], a.files, ch).0]);
      SoloStep(pub, f0, a.procs[0], a.files, ch);
    }
  }

  // ── crash safety and recovery ──

  /** What is visible after `k` stages. */
  ghost predicate Shows(src: Source, f: Files, k: nat, g: Files)
  {
    && (forall q :: q in g ==> Canonical(q))
    && (k <= Last(src) ==>
      (INDEX_FILE in g <==> INDEX_FILE in f) && (INDEX_FILE in g ==> g[INDEX_FILE] == f[INDEX_FILE]))
    && (k > Last(src) ==> INDEX_FILE in g && g[INDEX_FILE] == src.index)
    && (k > 0 ==> LAYOUT_FILE in g && g[LAYOUT_FILE] == src.layout)
    && (forall s :: 0 < s < Last(src) && s < k ==> Target(src, s) in g)
    && (forall q: Path :: q.Blob? && q in f && Canonical(q) ==> q in g && g[q] == f[q])
    && (forall q: Path :: q.Blob? && q in g && q !in f ==>
      exists s :: 0 < s < Last(src) && s < k && q == Target(src, s) && g[q] == Content(src, s))
  }

  lemma PlaceShows(src: Source, f: Files, k: nat, g: Files)
    requires SourceNamed(src) && k <= Last(src) && Shows(src, f, k, g)
    ensures Shows(src, f, k + 1, Place(src, g, k))
  {
    var g' := Place(src, g, k);
    assert Canonical(Target(src, k));
    forall q: Path | q.Blob? && q in g' && q !in f
      ensures exists s :: 0 < s < Last(src) && s < k + 1 && q == Target(src, s) && g'[q] == Content(src, s)
    {
      if q in g && g[q] == g'[q] {
        var s :| 0 < s < Last(src) && s < k && q == Target(src, s) && g[q] == Content(src, s);
      } else {
        assert q == Target(src, k);
      }
    }
  }

  lemma {:induction false} ProgressFacts(src: Source, f: Files, k: nat)
    requires SourceNamed(src) && k <= Last(src) + 1
    ensures Shows(src, f, k, Progress(src, f, k))
  {
    if k > 0 {
      ProgressFacts(src, f, k - 1);
      PlaceShows(src, f, k - 1, Progress(src, f, k - 1));
    }
  }

  /** A directory reached after `j` stages keeps every stage a rerun repeats. */
  lemma {:induction false} RerunAbsorbed(src: Source, f: Files, g: Files, j: nat, k: nat)
    requires SourceNamed(src) && j <= Last(src) + 1 && k <= Last(src) + 1
    requires CanonPart(g) == Progress(src, f, j)
    ensures Progress(src, g, k) == Progress(src, f, if k <= j then j else k)
  {
    if k > 0 {
      RerunAbsorbed(src, f, g, j, k - 1);
      if k <= j {
        ProgressFacts(src, f, j);
        StageAbsorbed(src, f, j, Progress(src, f, j), k - 1);
      }
    }
  }

  /** A stage that was done changes nothing when it is done again. */
  lemma StageAbsorbed(src: Source, f: Files, j: nat, h: Files, stage: nat)
    requires stage <= Last(src) && stage < j <= Last(src) + 1 && Shows(src, f, j, h)
    ensures Place(src, h, stage) == h
  {
    var t := Target(src, stage);
    assert t in h && (stage == 0 || stage == Last(src) ==> h[t] == Content(src, stage));
  }

  /**
   * Crash safety: after any prefix of the operations the visible index is untouched, or it
   * is the new one and every referenced blob and the marker are in place; blobs only grow,
   * old ones keep their bytes, and new ones hold the bytes of the source.
   */
  lemma CrashSafe(pub: Publisher, f0: Files, run: seq<Config>, k: nat)
    requires SourceNamed(pub.src) && Run([pub], f0, run) && k < |run|
    ensures var src := pub.src; var f := run[k].files;
      && ( || ((INDEX_FILE in f <==> INDEX_FILE in f0) && (INDEX_FILE in f ==> f[INDEX_FILE] == f0[INDEX_FILE]))
           || (INDEX_FILE in f && f[INDEX_FILE] == src.index && Complete(src, f) && LAYOUT_FILE in f
             && f[LAYOUT_FILE] == src.layout))
      && (forall q: Path :: q.Blob? && Canonical(q) && q in f0 ==> q in f && f[q] == f0[q])
      && (forall q: Path :: q.Blob? && Canonical(q) && q in f && q !in f0 ==>
            exists i :: 0 <= i < |src.blobs| && q == Blob(src.blobs[i].0) && f[q] == src.blobs[i].1)
  {
    SoloRun(pub, f0, run, k);
    var src, f, p := pub.src, run[k].files, run[k].procs[0];
    var j := Placed(src, p);
    var g := CanonPart(f);
    ProgressFacts(src, f0, j);
    assert forall q :: Canonical(q) ==> (q in f <==> q in g) && (q in f ==> f[q] == g[q]);
    if j > Last(src) {
      forall i | 0 <= i < |src.blobs| ensures Blob(src.blobs[i].0) in f { assert Target(src, i + 1) in g; }
    }
    forall q: Path | q.Blob? && Canonical(q) && q in f && q !in f0
      ensures exists i :: 0 <= i < |src.blobs| && q == Blob(src.blobs[i].0) && f[q] == src.blobs[i].1
    {
      var s :| 0 < s < Last(src) && s < j && q == Target(src, s) && g[q] == Content(src, s);
      assert q == Blob(src.blobs[s - 1].0);
    }
  }

  /**
   * Recovery: rerun to completion from whatever a crash left, a publication shows exactly
   * what an uninterrupted one would have shown.
   */
  lemma RerunConverges(pub: Publisher, f0: Files, run: seq<Config>, k: nat, again: Publisher, rerun: seq<Config>)
    requires SourceNamed(pub.src) && again.src == pub.src
    requires Run([pub], f0, run) && k < |run| && Run([again], run[k].files, rerun)
    requires rerun[|rerun| - 1].procs[0].phase == Halted(true)
    ensures CanonPart(rerun[|rerun| - 1].files) == Published(pub.src, f0)
  {
    SoloRun(pub, f0, run, k);
    SoloRun(again, run[k].files, rerun, |rerun| - 1);
    RerunAbsorbed(pub.src, f0, run[k].files, Placed(pub.src, run[k].procs[0]), Last(pub.src) + 1);
  }

  // ── the sink itself ──

  const COPY_CHUNK_BYTES: nat := 64 * 1024

  ghost predicate Visited(run: seq<Config>, f: Files) { exists k :: 0 <= k < |run| && run[k].files == f }

  /** The operations so far are a run of the publisher, and no other state was ever on disk. */
  ghost predicate Tracks(pub: Publisher, f0: Files, h0: nat, run: seq<Config>, p: Proc, fs: Fs)
    reads fs
  {
    && Run([pub], f0, run) && run[|run| - 1] == Config(fs.files, [p]) && p.stage <= Last(pub.src)
    && h0 <= |fs.history| && forall i :: h0 <= i < |fs.history| ==> Visited(run, fs.history[i])
  }

  function After(pub: Publisher, p: Proc, f: Files, ch: Choice): Config
    requires p.stage <= Last(pub.src) && !p.phase.Halted?
  {
    Config(Step(pub, p, f, ch).1, [Step(pub, p, f, ch).0])
  }

  /** One more operation extends the run. */
  lemma RunExtends(pub: Publisher, f0: Files, run: seq<Config>, p: Proc, f: Files, ch: Choice)
    requires Run([pub], f0, run) && run[|run| - 1] == Config(f, [p])
    requires p.stage <= Last(pub.src) && !p.phase.Halted?
    ensures Run([pub], f0, run + [After(pub, p, f, ch)])
    ensures forall g :: Visited(run, g) || g == After(pub, p, f, ch).files ==> Visited(run + [After(pub, p, f, ch)], g)
  {
    var run' := run + [After(pub, p, f, ch)];
    var a, b := run[|run| - 1], run'[|run|];
    assert [pub][0] == pub && b.procs == a.procs[0 := Step([pub][0], a.procs[0], a.files, ch).0];
    assert Next([pub], a, b);
    assert forall k :: 0 <= k < |run| ==> run'[k] == run[k];
    assert run'[|run|].files == After(pub, p, f, ch).files;
  }

  /** One pass of the copy loop: read at most `cap` bytes and write them all. */
  method WriteChunk(fs: Fs, pub: Publisher, stage: nat, done: nat, cap: nat, ghost f0: Files, ghost h0: nat,
      ghost run: seq<Config>)
    returns (ok: bool, n: nat, ghost run': seq<Config>)
    requires stage <= Last(pub.src) && cap > 0 && done < |Content(pub.src, stage)|
    requires Tracks(pub, f0, h0, run, Proc(stage, Write(done)), fs)
    modifies fs
    ensures 0 < n <= |Content(pub.src, stage)| - done
    ensures Tracks(pub, f0, h0, run', if ok then Proc(stage, Write(done + n)) else Abandon(pub.src, stage), fs)
    ensures fs.Reliable() ==> ok
  {
    var content := Content(pub.src, stage);
    n := fs.sizes(fs.clock);
    n := if n == 0 then 1 else if n > cap then cap else n;
    n := if n > |content| - done then |content| - done else n;
    ghost var p, f := Proc(stage, Write(done)), fs.files;
    ok := fs.Append(Tmp(pub, stage), content[done..done + n]);
    RunExtends(pub, f0, run, p, f, if ok then Go(n) else Fail);
    run' := run + [After(pub, p, f, if ok then Go(n) else Fail)];
  }

  /** `copy_chunked`, and the writing half of `fs::write`. */
  method Transfer(fs: Fs, pub: Publisher, stage: nat, cap: nat, ghost f0: Files, ghost h0: nat, ghost run: seq<Config>)
    returns (ok: bool, ghost run': seq<Config>)
    requires stage <= Last(pub.src) && cap > 0
    requires Tracks(pub, f0, h0, run, Proc(stage, Phase.Create), fs)
    modifies fs
    ensures Tracks(pub, f0, h0, run', if ok then Proc(stage, Phase.Rename) else Abandon(pub.src, stage), fs)
    ensures fs.Reliable() ==> ok
  {
    ghost var p, f := Proc(stage, Phase.Create), fs.files;
    ok := fs.Create(Tmp(pub, stage));
    RunExtends(pub, f0, run, p, f, if ok then Go(0) else Fail);
    run' := run + [After(pub, p, f, if ok then Go(0) else Fail)];
    if !ok { return; }
    var total := 0;
    while total < |Content(pub.src, stage)|
      invariant total <= |Content(pub.src, stage)|
      invariant Tracks(pub, f0, h0, run', Proc(stage, Write(total)), fs)
    {
      var n;
      ok, n, run' := WriteChunk(fs, pub, stage, total, cap, f0, h0, run');
      if !ok { return; }
      total := total + n;
    }
    ok, run' := Sync(fs, pub, stage, total, f0, h0, run');
  }

  /** `sync_all` once the source is exhausted. */
  method Sync(fs: Fs, pub: Publisher, stage: nat, total: nat, ghost f0: Files, ghost h0: nat, ghost run: seq<Config>)
    returns (ok: bool, ghost run': seq<Config>)
    requires stage <= Last(pub.src) && total >= |Content(pub.src, stage)|
    requires Tracks(pub, f0, h0, run, Proc(stage, Write(total)), fs)
    modifies fs`clock
    ensures Tracks(pub, f0, h0, run', if ok then Proc(stage, Phase.Rename) else Abandon(pub.src, stage), fs)
    ensures fs.Reliable() ==> ok
  {
    ghost var p, f := Proc(stage, Write(total)), fs.files;
    ok := fs.Tick();
    RunExtends(pub, f0, run, p, f, if ok then Go(0) else Fail);
    run' := run + [After(pub, p, f, if ok then Go(0) else Fail)];
  }

  /** `finalize_atomic`. */
  method Finalize(fs: Fs, pub: Publisher, stage: nat, ghost f0: Files, ghost h0: nat, ghost run: seq<Config>)
    returns (ok: bool, ghost run': seq<Config>)
    requires SourceNamed(pub.src) && stage <= Last(pub.src)
    requires Tracks(pub, f0, h0, run, Proc(stage, Phase.Rename), fs)
    modifies fs
    ensures Tracks(pub, f0, h0, run', if ok then Advance(pub.src, stage) else Proc(stage, Halted(false)), fs)
    ensures fs.Reliable() ==> ok
  {
    SoloRun(pub, f0, run, |run| - 1);
    ghost var p, f := Proc(stage, Phase.Rename), fs.files;
    ok := fs.Rename(Tmp(pub, stage), Target(pub.src, stage));
    RunExtends(pub, f0, run, p, f, if ok then Go(0) else Fail);
    run' := run + [After(pub, p, f, if ok then Go(0) else Fail)];
  }

  /** The look at the destination that opens every stage. */
  method Look(fs: Fs, pub: Publisher, stage: nat, ghost f0: Files, ghost h0: nat, ghost run: seq<Config>)
    returns (skip: bool, ghost run': seq<Config>)
    requires SourceNamed(pub.src) && stage <= Last(pub.src)
    requires Tracks(pub, f0, h0, run, Proc(stage, Check), fs)
    modifies fs`clock
    ensures Tracks(pub, f0, h0, run', if skip then Advance(pub.src, stage) else Proc(stage, Phase.Create), fs)
    ensures stage > 0 ==> skip == Skips(pub.src, stage, fs.files)
  {
    var ok := true;
    if stage == 0 { ok := fs.Tick(); }
    skip := ok && Skips(pub.src, stage, fs.files);
    ghost var p, f := Proc(stage, Check), fs.files;
    RunExtends(pub, f0, run, p, f, if ok then Go(0) else Fail);
    run' := run + [After(pub, p, f, if ok then Go(0) else Fail)];
  }

  /** `write_if_changed` on the marker, and `write_atomic_index`. */
  method WriteSmall(fs: Fs, pub: Publisher, stage: nat, ghost f0: Files, ghost h0: nat, ghost run: seq<Config>)
    returns (ok: bool, ghost run': seq<Config>)
    requires SourceNamed(pub.src) && (stage == 0 || stage == Last(pub.src))
    requires Tracks(pub, f0, h0, run, Proc(stage, Check), fs)
    modifies fs
    ensures Tracks(pub, f0, h0, run', if ok then Advance(pub.src, stage) else Proc(stage, Halted(false)), fs)
    ensures fs.Reliable() ==> ok
  {
    var skip;
    skip, run' := Look(fs, pub, stage, f0, h0, run);
    if skip { return true, run'; }
    ok, run' := Transfer(fs, pub, stage, |Content(pub.src, stage)| + 1, f0, h0, run');
    if !ok { return; }
    ok, run' := Finalize(fs, pub, stage, f0, h0, run');
  }

  /** `copy_blob_atomic`: on a failed copy the temporary file is removed, best effort. */
  method CopyBlobAtomic(fs: Fs, pub: Publisher, stage: nat, ghost f0: Files, ghost h0: nat, ghost run: seq<Config>)
    returns (ok: bool, ghost run': seq<Config>)
    requires SourceNamed(pub.src) && 0 < stage < Last(pub.src)
    requires Tracks(pub, f0, h0, run, Proc(stage, Phase.Create), fs)
    modifies fs
    ensures Tracks(pub, f0, h0, run', if ok then Advance(pub.src, stage) else Proc(stage, Halted(false)), fs)
    ensures fs.Reliable() ==> ok
  {
    ok, run' := Transfer(fs, pub, stage, COPY_CHUNK_BYTES, f0, h0, run);
    if ok {
      ok, run' := Finalize(fs, pub, stage, f0, h0, run');
    } else {
      ghost var p, f := Proc(stage, Discard), fs.files;
      var removed := fs.Remove(Tmp(pub, stage));
      RunExtends(pub, f0, run', p, f, if removed then Go(0) else Fail);
      run' := run' + [After(pub, p, f, if removed then Go(0) else Fail)];
    }
  }

  // ── the outcome ──

  /** The source of a validated layout. */
  function SourceOf(image: ImageDir, dir: Files): (src: Source)
    requires LAYOUT_FILE in dir && INDEX_FILE in dir
    requires forall i :: 0 <= i < |image.referenced| ==> Present(dir, image.referenced[i].digest)
    ensures |src.blobs| == |image.referenced| && SourceNamed(src)
    ensures forall i :: 0 <= i < |src.blobs| ==> image.referenced[i].digest == DigestText(src.blobs[i].0)
    ensures forall i :: 0 <= i < |src.blobs| ==> BlobBytes(dir, image.referenced[i].digest) == Some(src.blobs[i].1)
  {
    Source(dir[LAYOUT_FILE], dir[INDEX_FILE],
      seq(|image.referenced|, i requires 0 <= i < |image.referenced| && Present(dir, image.referenced[i].digest) =>
        (HexOf(image.referenced[i].digest).value, BlobBytes(dir, image.referenced[i].digest).value)))
  }

  predicate NamesDistinct(src: Source)
  {
    forall i, j :: 0 <= i < j < |src.blobs| ==> src.blobs[i].0 != src.blobs[j].0
  }

  /** The blobs among the first `k` that a destination lacks (`there == false`) or has. */
  function Partition(src: Source, f: Files, there: bool, k: nat): seq<string>
    requires k <= |src.blobs|
  {
    if k == 0 then []
    else
      Partition(src, f, there, k - 1) +
        (if (Blob(src.blobs[k - 1].0) in f) == there then [DigestText(src.blobs[k - 1].0)] else [])
  }

  function MissingBytes(src: Source, f: Files, k: nat): nat
    requires k <= |src.blobs|
  {
    if k == 0 then 0
    else MissingBytes(src, f, k - 1) + (if Blob(src.blobs[k - 1].0) in f then 0 else |src.blobs[k - 1].1|)
  }

  /** At its own stage a blob is there exactly when it was there before the publication. */
  lemma UntouchedUntilStage(pub: Publisher, f0: Files, p: Proc, f: Files, i: nat)
    requires SourceNamed(pub.src) && NamesDistinct(pub.src) && i < |pub.src.blobs|
    requires p == Proc(i + 1, Check) && SoloInv(pub, f0, p, f)
    ensures Skips(pub.src, i + 1, f) <==> Blob(pub.src.blobs[i].0) in f0
  {
    var src := pub.src;
    var q, g := Blob(src.blobs[i].0), Progress(src, f0, i + 1);
    ProgressFacts(src, f0, i + 1);
    assert Canonical(q) && (q in f <==> q in CanonPart(f));
    forall s: nat | 0 < s < i + 1 ensures Target(src, s) != q { assert src.blobs[s - 1].0 != src.blobs[i].0; }
  }

  /** Every digest is reported once: copied when it was missing, skipped when it was there. */
  lemma {:induction false} OutcomeConserves(src: Source, f: Files, k: nat, i: nat)
    requires NamesDistinct(src) && k <= |src.blobs| && i < |src.blobs|
    ensures forall there ::
      DigestText(src.blobs[i].0) in Partition(src, f, there, k) <==> i < k && (Blob(src.blobs[i].0) in f) == there
    ensures |Partition(src, f, true, k)| + |Partition(src, f, false, k)| == k
  {
    forall there
      ensures DigestText(src.blobs[i].0) in Partition(src, f, there, k) <==>
        i < k && (Blob(src.blobs[i].0) in f) == there
    {
      ReportedOnce(src, f, there, k, i);
    }
    if k > 0 { OutcomeConserves(src, f, k - 1, i); }
  }

  lemma {:induction false} ReportedOnce(src: Source, f: Files, there: bool, k: nat, i: nat)
    requires NamesDistinct(src) && k <= |src.blobs| && i < |src.blobs|
    ensures DigestText(src.blobs[i].0) in Partition(src, f, there, k) <==> i < k && (Blob(src.blobs[i].0) in f) == there
  {
    if k > 0 {
      ReportedOnce(src, f, there, k - 1, i);
      if i != k - 1 {
        assert DigestText(src.blobs[i].0)[7..] != DigestText(src.blobs[k - 1].0)[7..];
      }
    }
  }

  ghost predicate OutcomeOf(src: Source, f0: Files, k: nat, o: PublishOutcome)
    requires k <= |src.blobs|
  {
    o == PublishOutcome(Partition(src, f0, false, k), Partition(src, f0, true, k), MissingBytes(src, f0, k))
  }

  lemma OutcomeStep(src: Source, f0: Files, i: nat, o: PublishOutcome)
    requires i < |src.blobs| && OutcomeOf(src, f0, i, o)
    ensures var (h, data) := src.blobs[i]; var digest := DigestText(h);
      OutcomeOf(src, f0, i + 1,
        if Blob(h) in f0 then o.(skipped := o.skipped + [digest])
        else o.(pushed := o.pushed + [digest], bytesUploaded := o.bytesUploaded + |data|))
  {
  }

  /** One referenced blob: skipped when it is there, copied when it is not. */
  method CopyOne(fs: Fs, pub: Publisher, i: nat, outcome: PublishOutcome, ghost f0: Files, ghost h0: nat,
      ghost run: seq<Config>)
    returns (r: Result<PublishOutcome, PublishError>, ghost run': seq<Config>)
    requires SourceNamed(pub.src) && NamesDistinct(pub.src) && i < |pub.src.blobs|
    requires Tracks(pub, f0, h0, run, Proc(i + 1, Check), fs) && OutcomeOf(pub.src, f0, i, outcome)
    modifies fs
    ensures Tracks(pub, f0, h0, run', if r.Ok? then Proc(i + 2, Check) else Proc(i + 1, Halted(false)), fs)
    ensures r.Ok? ==> OutcomeOf(pub.src, f0, i + 1, r.value)
    ensures fs.Reliable() ==> r.Ok?
  {
    SoloRun(pub, f0, run, |run| - 1);
    UntouchedUntilStage(pub, f0, Proc(i + 1, Check), fs.files, i);
    OutcomeStep(pub.src, f0, i, outcome);
    var digest := DigestText(pub.src.blobs[i].0);
    var skip;
    skip, run' := Look(fs, pub, i + 1, f0, h0, run);
    if skip { return Ok(outcome.(skipped := outcome.skipped + [digest])), run'; }
    var ok;
    ok, run' := CopyBlobAtomic(fs, pub, i + 1, f0, h0, run');
    if !ok { return Err(BlobUpload(digest)), run'; }
    r :=
      Ok(outcome.(pushed := outcome.pushed + [digest], bytesUploaded := outcome.bytesUploaded + |pub.src.blobs[i].1|));
  }

  /** The loop over the referenced blobs. */
  method CopyBlobs(fs: Fs, pub: Publisher, ghost f0: Files, ghost h0: nat, ghost run: seq<Config>)
    returns (r: Result<PublishOutcome, PublishError>, ghost run': seq<Config>, ghost p: Proc)
    requires SourceNamed(pub.src) && NamesDistinct(pub.src)
    requires Tracks(pub, f0, h0, run, Proc(1, Check), fs)
    modifies fs
    ensures Tracks(pub, f0, h0, run', p, fs)
    ensures r.Ok? ==> p == Proc(Last(pub.src), Check) && OutcomeOf(pub.src, f0, |pub.src.blobs|, r.value)
    ensures r.Err? ==> p.phase == Halted(false)
    ensures fs.Reliable() ==> r.Ok?
  {
    var outcome := EMPTY_OUTCOME;
    run' := run;
    for i := 0 to |pub.src.blobs|
      invariant Tracks(pub, f0, h0, run', Proc(i + 1, Check), fs)
      invariant OutcomeOf(pub.src, f0, i, outcome)
    {
      var one;
      one, run' := CopyOne(fs, pub, i, outcome, f0, h0, run');
      if one.Err? { return one, run', Proc(i + 1, Halted(false)); }
      outcome := one.value;
    }
    r, p := Ok(outcome), Proc(Last(pub.src), Check);
  }

  /**
   * `publish_http`. Its operations are a run of the publisher, so every state a crash can
   * leave is covered by `CrashSafe`; on success the directory shows the publication.
   */
  method PublishHttp(pub: Publisher, fs: Fs) returns (r: Result<PublishOutcome, PublishError>, ghost run: seq<Config>)
    requires SourceNamed(pub.src) && NamesDistinct(pub.src)
    modifies fs
    ensures Run([pub], old(fs.files), run) && run[|run| - 1].files == fs.files
    ensures forall i :: |old(fs.history)| <= i < |fs.history| ==> Visited(run, fs.history[i])
    ensures r.Ok? <==> run[|run| - 1].procs[0].phase == Halted(true)
    ensures r.Ok? ==> CanonPart(fs.files) == Published(pub.src, old(fs.files))
    ensures r.Ok? ==> OutcomeOf(pub.src, old(fs.files), |pub.src.blobs|, r.value)
    ensures fs.Reliable() ==> r.Ok?
  {
    ghost var f0, h0 := fs.files, |fs.history|;
    run := [Begin([pub], f0)];
    assert Begin([pub], f0).procs == [START];
    var ok := fs.Tick();
    if !ok { return Err(Destination), run; }
    ok, run := WriteSmall(fs, pub, 0, f0, h0, run);
    if !ok { return Err(Destination), run; }
    ghost var p;
    r, run, p := CopyBlobs(fs, pub, f0, h0, run);
    if r.Err? { return; }
    ok, run := WriteSmall(fs, pub, Last(pub.src), f0, h0, run);
    if !ok { return Err(Destination), run; }
    SoloRun(pub, f0, run, |run| - 1);
  }

  // ── what a reader of the destination finds ──

  /** Validated layouts meet the sink's demands. */
  lemma ValidatedSource(c: Codec, dir: Files)
    requires WellFormed(c, dir)
    ensures forall i :: 0 <= i < |View(c, dir).referenced| ==> Present(dir, View(c, dir).referenced[i].digest)
    ensures NamesDistinct(SourceOf(View(c, dir), dir))
  {
    ReferencedPresent(c, dir);
    FirstOccurrences(Body(PrimaryEntry(c, dir), ReferrerEntries(c, dir)) + [View(c, dir).primary]);
  }

  /** No blob of the source is in the destination with other bytes. */
  ghost predicate NoConflict(src: Source, f: Files)
  {
    forall i :: 0 <= i < |src.blobs| && Blob(src.blobs[i].0) in f ==> f[Blob(src.blobs[i].0)] == src.blobs[i].1
  }

  /** A published directory has the marker and index of the source, and the bytes of its blobs. */
  lemma PublishedContents(src: Source, f0: Files, f: Files)
    requires SourceNamed(src) && NamesDistinct(src) && NoConflict(src, f0)
    requires CanonPart(f) == Published(src, f0)
    ensures LAYOUT_FILE in f && f[LAYOUT_FILE] == src.layout && INDEX_FILE in f && f[INDEX_FILE] == src.index
    ensures forall i :: 0 <= i < |src.blobs| ==> Blob(src.blobs[i].0) in f && f[Blob(src.blobs[i].0)] == src.blobs[i].1
  {
    var g := CanonPart(f);
    ProgressFacts(src, f0, Last(src) + 1);
    assert forall q :: q in g ==> q in f && f[q] == g[q];
    forall i | 0 <= i < |src.blobs|
      ensures Blob(src.blobs[i].0) in f && f[Blob(src.blobs[i].0)] == src.blobs[i].1
    {
      BlobShown(src, f0, g, i);
    }
  }

  lemma BlobShown(src: Source, f0: Files, g: Files, i: nat)
    requires SourceNamed(src) && NamesDistinct(src) && NoConflict(src, f0) && i < |src.blobs|
    requires Shows(src, f0, Last(src) + 1, g)
    ensures Blob(src.blobs[i].0) in g && g[Blob(src.blobs[i].0)] == src.blobs[i].1
  {
    var q := Blob(src.blobs[i].0);
    assert q == Target(src, i + 1) && Canonical(q) && q in g;
    if q !in f0 {
      var s :| 0 < s < Last(src) && q == Target(src, s) && g[q] == Content(src, s);
      assert src.blobs[s - 1].0 == src.blobs[i].0;
      assert s - 1 == i;
    }
  }

  /** A published directory opens as the very image that was published. */
  lemma PublishedOpens(c: Codec, dir: Files, f0: Files, f: Files)
    requires WellFormed(c, dir)
    requires (forall i :: 0 <= i < |View(c, dir).referenced| ==> Present(dir, View(c, dir).referenced[i].digest))
    requires NamesDistinct(SourceOf(View(c, dir), dir)) && NoConflict(SourceOf(View(c, dir), dir), f0)
    requires CanonPart(f) == Published(SourceOf(View(c, dir), dir), f0)
    ensures WellFormed(c, f) && View(c, f) == View(c, dir)
  {
    PublishedContents(SourceOf(View(c, dir), dir), f0, f);
    SourceMirrors(View(c, dir), dir, f);
    MirrorOpens(c, dir, f);
  }

  lemma SourceMirrors(image: ImageDir, dir: Files, f: Files)
    requires LAYOUT_FILE in dir && INDEX_FILE in dir
    requires forall i :: 0 <= i < |image.referenced| ==> Present(dir, image.referenced[i].digest)
    requires var src := SourceOf(image, dir);
      forall i :: 0 <= i < |src.blobs| ==> Blob(src.blobs[i].0) in f && f[Blob(src.blobs[i].0)] == src.blobs[i].1
    ensures SameBlobs(dir, f, Digests(image.referenced))
  {
    var src := SourceOf(image, dir);
    forall d | d in Digests(image.referenced) ensures SameBlob(dir, f, d) {
      var i :| 0 <= i < |src.blobs| && image.referenced[i].digest == d;
      HexOfText(src.blobs[i].0);
    }
  }
}
