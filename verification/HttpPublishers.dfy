/**
 * Publishers that copy layouts into one shared directory, one file-system operation at a
 * time. Any number of them may interleave, any operation may fail, and a crash is a
 * publisher that takes no further step.
 */
module HttpPublishers {
  import opened Wrappers
  import opened Text
  import opened Oci

  /** What a publisher copies: the marker, the index, and each referenced blob by file name. */
  datatype Source = Source(layout: Bytes, index: Bytes, blobs: seq<(string, Bytes)>)

  /** A publishing process; `nanos` is the clock text it folds into each temporary name. */
  datatype Publisher = Publisher(src: Source, pid: string, nanos: nat -> string)

  // ── stages: the marker, every blob in order, the index ──

  function Last(src: Source): nat { |src.blobs| + 1 }

  function Target(src: Source, stage: nat): Path
    requires stage <= Last(src)
  {
    if stage == 0 then LAYOUT_FILE
    else if stage == Last(src) then INDEX_FILE
    else Blob(src.blobs[stage - 1].0)
  }

  function Content(src: Source, stage: nat): Bytes
    requires stage <= Last(src)
  {
    if stage == 0 then src.layout
    else if stage == Last(src) then src.index
    else src.blobs[stage - 1].1
  }

  const TMP_PREFIX := ".tmp-oci-publish"

  function Tmp(pub: Publisher, stage: nat): Path
    requires stage <= Last(pub.src)
  {
    if stage == 0 then Root(TMP_PREFIX + "-oci-layout-" + pub.pid)
    else if stage == Last(pub.src) then Root(TMP_PREFIX + "-index-" + pub.pid + "-" + pub.nanos(stage))
    else Blob(TMP_PREFIX + "-" + pub.pid + "-" + pub.nanos(stage) + "-" + pub.src.blobs[stage - 1].0)
  }

  /** The names consumers read: the marker, the index, and content-addressed blobs. */
  predicate Canonical(q: Path)
  {
    q == LAYOUT_FILE || q == INDEX_FILE || (q.Blob? && IsHex64(q.name))
  }

  predicate SourceNamed(src: Source)
  {
    forall i :: 0 <= i < |src.blobs| ==> IsHex64(src.blobs[i].0)
  }

  // ── one process ──

  datatype Phase = Check | Create | Write(done: nat) | Rename | Discard | Halted(ok: bool)

  datatype Proc = Proc(stage: nat, phase: Phase)

  const START := Proc(0, Check)

  /** The environment's say in one operation: failure, or success of at most `n` bytes. */
  datatype Choice = Fail | Go(n: nat)

  /** Nothing to do: the marker is already equal, the blob is already there. */
  predicate Skips(src: Source, stage: nat, f: Files)
    requires stage <= Last(src)
  {
    var t := Target(src, stage);
    t in f && stage < Last(src) && (stage == 0 ==> f[t] == src.layout)
  }

  function Advance(src: Source, stage: nat): Proc
  {
    if stage < Last(src) then Proc(stage + 1, Check) else Proc(stage, Halted(true))
  }

  /** A failed copy removes its temporary file; the two small writes leave theirs. */
  function Abandon(src: Source, stage: nat): Proc
  {
    Proc(stage, if 0 < stage < Last(src) then Discard else Halted(false))
  }

  function Step(pub: Publisher, p: Proc, f: Files, ch: Choice): (Proc, Files)
    requires p.stage <= Last(pub.src) && !p.phase.Halted?
  {
    var t, tmp, content := Target(pub.src, p.stage), Tmp(pub, p.stage), Content(pub.src, p.stage);
    match p.phase
    case Check =>
      if Skips(pub.src, p.stage, f) && !(ch.Fail? && p.stage == 0) then (Advance(pub.src, p.stage), f)
      else (p.(phase := Create), f)
    case Create => if ch.Fail? then (Abandon(pub.src, p.stage), f) else (p.(phase := Write(0)), f[tmp := []])
    case Write(done) =>
      if ch.Fail? then (Abandon(pub.src, p.stage), f)
      else if done >= |content| then (p.(phase := Rename), f)
      else
        var n := if ch.n == 0 then 1 else if ch.n > |content| - done then |content| - done else ch.n;
        (p.(phase := Write(done + n)), if tmp in f then f[tmp := f[tmp] + content[done..done + n]] else f)
    case Rename =>
      if ch.Fail? || tmp !in f then (p.(phase := Halted(false)), f)
      else (Advance(pub.src, p.stage), (f - {tmp})[t := f[tmp]])
    case Discard => (p.(phase := Halted(false)), if ch.Fail? then f else f - {tmp})
  }

  /** What a process has achieved, and what its temporary file holds. */
  ghost predicate ProcOk(pub: Publisher, p: Proc, f: Files)
  {
    && p.stage <= Last(pub.src)
    && (p.phase.Write? || p.phase.Rename? ==>
          var done := if p.phase.Rename? then |Content(pub.src, p.stage)| else p.phase.done;
          done <= |Content(pub.src, p.stage)| && Tmp(pub, p.stage) in f
            && f[Tmp(pub, p.stage)] == Content(pub.src, p.stage)[..done])
    && (forall s :: 0 < s < p.stage ==> Target(pub.src, s) in f)
    && (p.phase == Halted(true) ==> p.stage == Last(pub.src))
  }

  // ── many processes ──

  datatype Config = Config(files: Files, procs: seq<Proc>)

  ghost predicate TmpsDistinct(pubs: seq<Publisher>)
  {
    forall i, j, s: nat, t: nat | 0 <= i < |pubs| && 0 <= j < |pubs| && i != j && s <= Last(pubs[i].src)
      && t <= Last(pubs[j].src) ::
      Tmp(pubs[i], s) != Tmp(pubs[j], t)
  }

  ghost predicate Publishers(pubs: seq<Publisher>)
  {
    TmpsDistinct(pubs) && forall i :: 0 <= i < |pubs| ==> SourceNamed(pubs[i].src)
  }

  ghost predicate Next(pubs: seq<Publisher>, a: Config, b: Config)
    requires |a.procs| == |pubs|
  {
    exists i, ch ::
      0 <= i < |pubs| && a.procs[i].stage <= Last(pubs[i].src) && !a.procs[i].phase.Halted?
      && b == Config(Step(pubs[i], a.procs[i], a.files, ch).1, a.procs[i := Step(pubs[i], a.procs[i], a.files, ch).0])
  }

  function Begin(pubs: seq<Publisher>, f: Files): Config { Config(f, seq(|pubs|, _ => START)) }

  ghost predicate Run(pubs: seq<Publisher>, f0: Files, run: seq<Config>)
  {
    && |run| > 0 && run[0] == Begin(pubs, f0)
    && (forall k :: 0 <= k < |run| ==> |run[k].procs| == |pubs|)
    && (forall k :: 0 <= k < |run| - 1 ==> Next(pubs, run[k], run[k + 1]))
  }

  predicate Complete(src: Source, f: Files)
  {
    forall i :: 0 <= i < |src.blobs| ==> Blob(src.blobs[i].0) in f
  }

  /** The index a consumer sees is the one that was there, or some publisher's with all its blobs. */
  ghost predicate IndexSound(pubs: seq<Publisher>, f0: Files, f: Files)
  {
    INDEX_FILE in f ==>
      || (INDEX_FILE in f0 && f[INDEX_FILE] == f0[INDEX_FILE])
      || exists i :: 0 <= i < |pubs| && f[INDEX_FILE] == pubs[i].src.index && Complete(pubs[i].src, f)
  }

  /** Published names never disappear. */
  ghost predicate Grows(a: Files, b: Files) { forall q :: Canonical(q) && q in a ==> q in b }

  ghost predicate Inv(pubs: seq<Publisher>, f0: Files, cfg: Config)
  {
    && |cfg.procs| == |pubs|
    && (forall i :: 0 <= i < |pubs| ==> ProcOk(pubs[i], cfg.procs[i], cfg.files))
    && IndexSound(pubs, f0, cfg.files)
    && Grows(f0, cfg.files)
  }

  /** Every blob of every publisher hashes to its name. */
  ghost predicate SourcesCorrect(c: Codec, pubs: seq<Publisher>)
  {
    forall i, k :: 0 <= i < |pubs| && 0 <= k < |pubs[i].src.blobs| ==>
      c.hash(pubs[i].src.blobs[k].1) == pubs[i].src.blobs[k].0
  }

  lemma TmpNotCanonical(pub: Publisher, stage: nat)
    requires stage <= Last(pub.src)
    ensures !Canonical(Tmp(pub, stage))
  {
    var q := Tmp(pub, stage);
    assert q.name[0] == '.';
    assert !IsLowerHex('.');
  }

  /** A step keeps what its own process has achieved. */
  lemma StepOwn(pub: Publisher, p: Proc, f: Files, ch: Choice)
    requires SourceNamed(pub.src) && ProcOk(pub, p, f) && !p.phase.Halted?
    ensures ProcOk(pub, Step(pub, p, f, ch).0, Step(pub, p, f, ch).1)
  {
    TmpNotCanonical(pub, p.stage);
    var content := Content(pub.src, p.stage);
    if p.phase.Write? && p.phase.done < |content| && ch.Go? {
      var done := p.phase.done;
      var n := if ch.n == 0 then 1 else if ch.n > |content| - done then |content| - done else ch.n;
      assert content[..done] + content[done..done + n] == content[..done + n];
    }
    forall s | 0 < s < p.stage ensures Canonical(Target(pub.src, s)) { }
  }

  /** `b` differs from `a` only in non-canonical names that are `tmp`. */
  ghost predicate OthersKept(tmp: Path, a: Files, b: Files)
  {
    forall q :: q != tmp && !Canonical(q) ==> (q in a <==> q in b) && (q in a ==> b[q] == a[q])
  }

  /** A canonical name changes only when a finished temporary file is renamed onto it. */
  ghost predicate CanonicalKept(pub: Publisher, p: Proc, a: Files, b: Files)
    requires p.stage <= Last(pub.src)
  {
    forall q :: Canonical(q) && q in b && !(q in a && b[q] == a[q]) ==>
      p.phase.Rename? && q == Target(pub.src, p.stage) && b[q] == Content(pub.src, p.stage)
  }

  /** What a step may touch: its own temporary file, and by renaming it, its own target. */
  lemma StepFrame(pub: Publisher, p: Proc, f: Files, ch: Choice)
    requires SourceNamed(pub.src) && ProcOk(pub, p, f) && !p.phase.Halted?
    ensures var f' := Step(pub, p, f, ch).1;
      Grows(f, f') && OthersKept(Tmp(pub, p.stage), f, f') && CanonicalKept(pub, p, f, f')
  {
    TmpNotCanonical(pub, p.stage);
    assert Canonical(Target(pub.src, p.stage));
    var content := Content(pub.src, p.stage);
    assert content[..|content|] == content;
  }

  /** Another process's achievements survive a step. */
  lemma OtherSurvives(pub: Publisher, p: Proc, tmp: Path, f: Files, f': Files)
    requires SourceNamed(pub.src) && ProcOk(pub, p, f)
    requires Grows(f, f') && OthersKept(tmp, f, f') && Tmp(pub, p.stage) != tmp
    ensures ProcOk(pub, p, f')
  {
    TmpNotCanonical(pub, p.stage);
    forall s | 0 < s < p.stage ensures Canonical(Target(pub.src, s)) { }
  }

  /** The visible index stays sound: only a publisher that placed every blob replaces it. */
  lemma IndexStaysSound(pubs: seq<Publisher>, f0: Files, i: nat, p: Proc, f: Files, f': Files)
    requires Publishers(pubs) && i < |pubs| && ProcOk(pubs[i], p, f) && IndexSound(pubs, f0, f)
    requires Grows(f, f') && CanonicalKept(pubs[i], p, f, f')
    ensures IndexSound(pubs, f0, f')
  {
    if INDEX_FILE in f' {
      if INDEX_FILE in f && f'[INDEX_FILE] == f[INDEX_FILE] {
        if j :| 0 <= j < |pubs| && f[INDEX_FILE] == pubs[j].src.index && Complete(pubs[j].src, f) {
          assert forall k :: 0 <= k < |pubs[j].src.blobs| ==> Canonical(Blob(pubs[j].src.blobs[k].0));
          assert Complete(pubs[j].src, f');
        }
      } else {
        var src := pubs[i].src;
        assert p.stage == Last(src);
        forall k | 0 <= k < |src.blobs|
          ensures Blob(src.blobs[k].0) in f'
        {
          assert Target(src, k + 1) in f;
          assert Canonical(Target(src, k + 1));
        }
        assert Complete(src, f');
      }
    }
  }

  /** One step of any process keeps the global invariant. */
  lemma NextKeepsInv(pubs: seq<Publisher>, f0: Files, a: Config, b: Config)
    requires Publishers(pubs) && Inv(pubs, f0, a) && Next(pubs, a, b)
    ensures Inv(pubs, f0, b) && Grows(a.files, b.files)
  {
    var i, ch :| 0 <= i < |pubs| && a.procs[i].stage <= Last(pubs[i].src) && !a.procs[i].phase.Halted?
      && b == Config(Step(pubs[i], a.procs[i], a.files, ch).1, a.procs[i := Step(pubs[i], a.procs[i], a.files, ch).0]);
    StepOwn(pubs[i], a.procs[i], a.files, ch);
    StepFrame(pubs[i], a.procs[i], a.files, ch);
    IndexStaysSound(pubs, f0, i, a.procs[i], a.files, b.files);
    forall j | 0 <= j < |pubs| ensures ProcOk(pubs[j], b.procs[j], b.files) {
      if j != i { OtherSurvives(pubs[j], a.procs[j], Tmp(pubs[i], a.procs[i].stage), a.files, b.files); }
    }
  }

  /** The invariant holds at every step of every interleaving. */
  lemma {:induction false} RunInv(pubs: seq<Publisher>, f0: Files, run: seq<Config>, k: nat)
    requires Publishers(pubs) && Run(pubs, f0, run) && k < |run|
    ensures Inv(pubs, f0, run[k])
  {
    if k > 0 {
      RunInv(pubs, f0, run, k - 1);
      NextKeepsInv(pubs, f0, run[k - 1], run[k]);
    }
  }

  lemma StepKeepsStore(c: Codec, pub: Publisher, p: Proc, f: Files, f': Files)
    requires p.stage <= Last(pub.src) && CanonicalKept(pub, p, f, f') && StoreCorrect(c, f)
    requires forall k :: 0 <= k < |pub.src.blobs| ==> c.hash(pub.src.blobs[k].1) == pub.src.blobs[k].0
    ensures StoreCorrect(c, f')
  {
    forall h | IsHex64(h) && Blob(h) in f' ensures c.hash(f'[Blob(h)]) == h {
      assert Canonical(Blob(h));
      if !(Blob(h) in f && f'[Blob(h)] == f[Blob(h)]) { assert Blob(h) == Target(pub.src, p.stage); }
    }
  }

  /** If every source blob hashes to its name, every published blob does, at every step. */
  lemma {:induction false} RunStore(c: Codec, pubs: seq<Publisher>, f0: Files, run: seq<Config>, k: nat)
    requires Publishers(pubs) && Run(pubs, f0, run) && k < |run|
    requires SourcesCorrect(c, pubs) && StoreCorrect(c, f0)
    ensures StoreCorrect(c, run[k].files)
  {
    if k > 0 {
      RunStore(c, pubs, f0, run, k - 1);
      RunInv(pubs, f0, run, k - 1);
      var a, b := run[k - 1], run[k];
      assert Next(pubs, a, b);
      var i, ch :| 0 <= i < |pubs| && a.procs[i].stage <= Last(pubs[i].src) && !a.procs[i].phase.Halted?
        && b ==
          Config(Step(pubs[i], a.procs[i], a.files, ch).1, a.procs[i := Step(pubs[i], a.procs[i], a.files, ch).0]);
      StepFrame(pubs[i], a.procs[i], a.files, ch);
      StepKeepsStore(c, pubs[i], a.procs[i], a.files, b.files);
    }
  }

  // ── what a name holds ──

  /** Old blobs keep their bytes. */
  ghost predicate OldBytes(f0: Files, f: Files)
  {
    forall q: Path :: q.Blob? && Canonical(q) && q in f0 ==> q in f && f[q] == f0[q]
  }

  /** A process that is writing a blob found that it was missing. */
  ghost predicate Lacked(pub: Publisher, f0: Files, p: Proc)
  {
    0 < p.stage < Last(pub.src) && (p.phase.Create? || p.phase.Write? || p.phase.Rename?) ==>
      Target(pub.src, p.stage) !in f0
  }

  /** What a visible name holds was there before, or is what some publisher has for it. */
  ghost predicate Sourced(pubs: seq<Publisher>, f0: Files, f: Files)
  {
    forall q {:trigger Holds(pubs, q, f[q])} :: Canonical(q) && q in f && !(q in f0 && f[q] == f0[q]) ==>
      Holds(pubs, q, f[q])
  }

  ghost predicate Holds(pubs: seq<Publisher>, q: Path, data: Bytes)
  {
    exists i, s :: 0 <= i < |pubs| && 0 <= s <= Last(pubs[i].src) &&
      q == Target(pubs[i].src, s) && data == Content(pubs[i].src, s)
  }

  ghost predicate Settled(pubs: seq<Publisher>, f0: Files, cfg: Config)
    requires |cfg.procs| == |pubs|
  {
    && (forall i :: 0 <= i < |pubs| ==> Lacked(pubs[i], f0, cfg.procs[i]))
    && OldBytes(f0, cfg.files) && Sourced(pubs, f0, cfg.files)
  }

  lemma StepLacked(pub: Publisher, f0: Files, p: Proc, f: Files, ch: Choice)
    requires SourceNamed(pub.src) && p.stage <= Last(pub.src) && !p.phase.Halted? && Grows(f0, f) && Lacked(pub, f0, p)
    ensures Lacked(pub, f0, Step(pub, p, f, ch).0)
  {
    assert Canonical(Target(pub.src, p.stage));
  }

  lemma StepSettled(pubs: seq<Publisher>, f0: Files, i: nat, p: Proc, f: Files, f': Files)
    requires i < |pubs| && p.stage <= Last(pubs[i].src) && CanonicalKept(pubs[i], p, f, f') && Grows(f, f')
    requires Lacked(pubs[i], f0, p) && OldBytes(f0, f) && Sourced(pubs, f0, f)
    ensures OldBytes(f0, f') && Sourced(pubs, f0, f')
  {
    forall q | Canonical(q) && q in f' && !(q in f0 && f'[q] == f0[q]) ensures Holds(pubs, q, f'[q]) {
      if q in f && f'[q] == f[q] { assert Holds(pubs, q, f[q]); }
    }
  }

  lemma NextSettled(pubs: seq<Publisher>, f0: Files, a: Config, b: Config)
    requires Publishers(pubs) && Inv(pubs, f0, a) && Next(pubs, a, b) && Settled(pubs, f0, a)
    ensures |b.procs| == |pubs| && Settled(pubs, f0, b)
  {
    var i, ch :| 0 <= i < |pubs| && a.procs[i].stage <= Last(pubs[i].src) && !a.procs[i].phase.Halted?
      && b == Config(Step(pubs[i], a.procs[i], a.files, ch).1, a.procs[i := Step(pubs[i], a.procs[i], a.files, ch).0]);
    StepFrame(pubs[i], a.procs[i], a.files, ch);
    StepLacked(pubs[i], f0, a.procs[i], a.files, ch);
    StepSettled(pubs, f0, i, a.procs[i], a.files, b.files);
  }

  lemma {:induction false} RunSettled(pubs: seq<Publisher>, f0: Files, run: seq<Config>, k: nat)
    requires Publishers(pubs) && Run(pubs, f0, run) && k < |run|
    ensures Settled(pubs, f0, run[k])
  {
    if k > 0 {
      RunSettled(pubs, f0, run, k - 1);
      RunInv(pubs, f0, run, k - 1);
      NextSettled(pubs, f0, run[k - 1], run[k]);
    }
  }

  lemma {:induction false} RunGrows(pubs: seq<Publisher>, f0: Files, run: seq<Config>, j: nat, k: nat)
    requires Publishers(pubs) && Run(pubs, f0, run) && j <= k < |run|
    ensures Grows(run[j].files, run[k].files)
  {
    if j < k {
      RunGrows(pubs, f0, run, j, k - 1);
      RunInv(pubs, f0, run, k - 1);
      NextKeepsInv(pubs, f0, run[k - 1], run[k]);
    }
  }

  ghost predicate SameBytes(xs: seq<(string, Bytes)>, ys: seq<(string, Bytes)>)
  {
    forall x, y :: x in xs && y in ys && x.0 == y.0 ==> x.1 == y.1
  }

  /** Publishers that have a blob of the same name have the same bytes for it. */
  ghost predicate Agreeing(pubs: seq<Publisher>)
  {
    forall i, j :: 0 <= i < |pubs| && 0 <= j < |pubs| ==> SameBytes(pubs[i].src.blobs, pubs[j].src.blobs)
  }

  /** A blob that some publisher placed is a blob it has. */
  lemma HeldBlob(pubs: seq<Publisher>, q: Path, data: Bytes)
    requires q.Blob? && Holds(pubs, q, data)
    ensures exists i, t :: 0 <= i < |pubs| && 0 <= t < |pubs[i].src.blobs| && pubs[i].src.blobs[t] == (q.name, data)
  {
    var i, s :| 0 <= i < |pubs| && 0 <= s <= Last(pubs[i].src) && q == Target(pubs[i].src, s)
      && data == Content(pubs[i].src, s);
    assert pubs[i].src.blobs[s - 1] == (q.name, data);
  }

  lemma HeldAlike(pubs: seq<Publisher>, q: Path, x: Bytes, y: Bytes)
    requires Agreeing(pubs) && q.Blob? && Holds(pubs, q, x) && Holds(pubs, q, y)
    ensures x == y
  {
    HeldBlob(pubs, q, x);
    HeldBlob(pubs, q, y);
  }

  /** Once a blob is visible its bytes never change, if publishers agree on what a name holds. */
  lemma BytesStay(pubs: seq<Publisher>, f0: Files, run: seq<Config>, j: nat, k: nat, q: Path)
    requires Publishers(pubs) && Agreeing(pubs) && Run(pubs, f0, run) && j <= k < |run|
    requires q.Blob? && Canonical(q) && q in run[j].files
    ensures q in run[k].files && run[k].files[q] == run[j].files[q]
  {
    RunGrows(pubs, f0, run, j, k);
    RunSettled(pubs, f0, run, j);
    RunSettled(pubs, f0, run, k);
    if q !in f0 { HeldAlike(pubs, q, run[j].files[q], run[k].files[q]); }
  }

  /**
   * Concurrent publication is safe: at every step of every interleaving, with any
   * failures, the visible index is the old one or that of a publisher all of whose blobs
   * are present and hash to their names, no published name ever disappears, and the blobs
   * that were there keep their bytes.
   */
  lemma ConcurrentPublishersSafe(c: Codec, pubs: seq<Publisher>, f0: Files, run: seq<Config>, k: nat)
    requires Publishers(pubs) && Run(pubs, f0, run) && k < |run|
    ensures IndexSound(pubs, f0, run[k].files) && Grows(f0, run[k].files) && OldBytes(f0, run[k].files)
    ensures SourcesCorrect(c, pubs) && StoreCorrect(c, f0) ==> StoreCorrect(c, run[k].files)
  {
    RunInv(pubs, f0, run, k);
    RunSettled(pubs, f0, run, k);
    if SourcesCorrect(c, pubs) && StoreCorrect(c, f0) { RunStore(c, pubs, f0, run, k); }
  }

  // ── temporary names ──

  predicate Numeric(s: string) { forall i :: 0 <= i < |s| ==> IsDigit(s[i]) }

  /** The text after a common prefix decides equality. */
  lemma SamePrefix(p: string, a: string, b: string)
    ensures p + a == p + b <==> a == b
  {
    assert (p + a)[|p|..] == a && (p + b)[|p|..] == b;
  }

  lemma PidRecoverable(pid1: string, rest1: string, pid2: string, rest2: string)
    requires Numeric(pid1) && Numeric(pid2) && pid1 + "-" + rest1 == pid2 + "-" + rest2
    ensures pid1 == pid2
  {
    SplitOnceUnique(pid1, '-', rest1);
    SplitOnceUnique(pid2, '-', rest2);
  }

  /** Distinct process ids are enough to keep the temporary names of two publishers apart. */
  lemma DistinctPids(a: Publisher, b: Publisher, s: nat, t: nat)
    requires s <= Last(a.src) && t <= Last(b.src)
    requires Numeric(a.pid) && Numeric(b.pid) && a.pid != b.pid
    ensures Tmp(a, s) != Tmp(b, t)
  {
    if Tmp(a, s) == Tmp(b, t) {
      var x, y := Tmp(a, s).name, Tmp(b, t).name;
      if 0 < s < Last(a.src) {
        SamePrefix(TMP_PREFIX + "-", a.pid + "-" + (a.nanos(s) + "-" + a.src.blobs[s - 1].0),
          b.pid + "-" + (b.nanos(t) + "-" + b.src.blobs[t - 1].0));
        assert x == TMP_PREFIX + "-" + (a.pid + "-" + (a.nanos(s) + "-" + a.src.blobs[s - 1].0));
        assert y == TMP_PREFIX + "-" + (b.pid + "-" + (b.nanos(t) + "-" + b.src.blobs[t - 1].0));
        PidRecoverable(a.pid, a.nanos(s) + "-" + a.src.blobs[s - 1].0, b.pid, b.nanos(t) + "-" + b.src.blobs[t - 1].0);
      } else if s == 0 && t == 0 {
        SamePrefix(TMP_PREFIX + "-oci-layout-", a.pid, b.pid);
      } else if s != 0 && t != 0 {
        SamePrefix(TMP_PREFIX + "-index-", a.pid + "-" + a.nanos(s), b.pid + "-" + b.nanos(t));
        assert x == TMP_PREFIX + "-index-" + (a.pid + "-" + a.nanos(s));
        assert y == TMP_PREFIX + "-index-" + (b.pid + "-" + b.nanos(t));
        PidRecoverable(a.pid, a.nanos(s), b.pid, b.nanos(t));
      } else if s == 0 {
        LayoutIsNotIndex(a, b);
      } else {
        LayoutIsNotIndex(b, a);
      }
    }
  }

  lemma LayoutIsNotIndex(a: Publisher, b: Publisher)
    ensures Tmp(a, 0).name != Tmp(b, Last(b.src)).name
  {
    assert Tmp(a, 0).name[17] == 'o' && Tmp(b, Last(b.src)).name[17] == 'i';
  }
}
