/**
 * Writing the same referrers a second time: the index grows by duplicates, and nothing a
 * reader or a verifier sees changes.
 */
module RewireFacts {
  import opened Wrappers
  import opened Oci
  import opened ImageDirs
  import opened FileSystems
  import opened Staging
  import opened Specs
  import opened Attest
  import Ref = Referrers
  import opened VerifyEngine
  import opened AttestFacts

  // ── the blobs ──

  /** Writing blobs that are all there changes no blob. */
  lemma NothingGained(c: Codec, f: Files, f': Files, xs: seq<Bytes>)
    requires Ref.GainsAll(c, f, f', xs) && forall x <- xs :: Has(c, f, x)
    ensures forall h :: IsHex64(h) ==>
      (Path.Blob(h) in f' <==> Path.Blob(h) in f) && (Path.Blob(h) in f ==> f'[Path.Blob(h)] == f[Path.Blob(h)])
  {
    assert forall x :: x in xs ==> Path.Blob(c.hash(x)) in f;
  }

  /** What is stored for a digest depends on the blobs only. */
  lemma SameBytes(f: Files, f': Files, g: string)
    requires forall h :: IsHex64(h) ==>
      (Path.Blob(h) in f' <==> Path.Blob(h) in f) && (Path.Blob(h) in f ==> f'[Path.Blob(h)] == f[Path.Blob(h)])
    ensures BlobBytes(f', g) == BlobBytes(f, g)
  {
  }

  // ── the closure ──

  /** What only repeats digests adds nothing. */
  lemma {:induction false} Absorbed(a: seq<Descriptor>, b: seq<Descriptor>)
    requires Digests(b) <= Digests(a)
    ensures FirstByDigest(a + b) == FirstByDigest(a)
  {
    if b == [] {
      assert a + b == a;
    } else {
      var n := |b| - 1;
      assert b == b[..n] + [b[n]];
      Absorbed(a, b[..n]);
      assert (a + b)[..|a + b| - 1] == a + b[..n] && (a + b)[|a + b| - 1] == b[n];
      assert Digests(a) <= Digests(a + b[..n]) by { assert forall d :: d in a ==> d in a + b[..n]; }
    }
  }

  lemma AbsorbedBefore(a: seq<Descriptor>, b: seq<Descriptor>, p: Descriptor)
    requires Digests(b) <= Digests(a)
    ensures FirstByDigest(a + b + [p]) == FirstByDigest(a + [p])
  {
    Absorbed(a, b);
    assert (a + b + [p])[..|a + b|] == a + b && (a + [p])[..|a|] == a;
    assert Digests(a + b) == Digests(a) by {
      assert Digests(a + b) == Digests(a) + Digests(b);
    }
  }

  /** Listing referrers again leaves the closure as it is. */
  lemma RepeatedReferrers(p: Entry, rs: seq<Entry>, more: seq<Entry>)
    ensures FirstByDigest(Body(p, rs + more + more) + [p.desc]) == FirstByDigest(Body(p, rs + more) + [p.desc])
  {
    BlocksAppend(rs + more, more);
    BlocksAppend(rs, more);
    var body, again := Body(p, rs + more), Blocks(more);
    assert Body(p, rs + more + more) == body + again;
    BlocksWithin(p, rs, more);
    AbsorbedBefore(body, again, p.desc);
  }

  lemma BlocksWithin(p: Entry, rs: seq<Entry>, more: seq<Entry>)
    requires Blocks(rs + more) == Blocks(rs) + Blocks(more)
    ensures Digests(Blocks(more)) <= Digests(Body(p, rs + more))
  {
    forall d | d in Blocks(more) ensures d in Body(p, rs + more) { assert d in Blocks(rs) + Blocks(more); }
  }

  lemma RepeatedView(load: Loader, ds: seq<Descriptor>, more: seq<Descriptor>, dir: Files)
    requires Closed(load, ds, dir)
    requires forall d <- more :: GoodReferrer(load, dir, d, Bucket(load, ds, false)[0].desc.digest)
    ensures Closed(load, ds + more, dir) && Closed(load, ds + more + more, dir)
    ensures ViewOf(load, ds + more + more).referenced == ViewOf(load, ds + more).referenced
  {
    ClosedAppend(load, ds, more, dir);
    ClosedAppend(load, ds + more, more, dir);
    RepeatedReferrers(Bucket(load, ds, false)[0], Bucket(load, ds, true), Bucket(load, more, true));
  }

  // ── the walk ──

  lemma {:induction false} WalkAppend(read: Reader, a: seq<Descriptor>, b: seq<Descriptor>, s: Slots)
    ensures Walk(read, a + b, s) == (var r := Walk(read, a, s); if r.Err? then r else Walk(read, b, r.value))
  {
    if b == [] {
      assert a + b == a;
    } else {
      var n := |b| - 1;
      WalkAppend(read, a, b[..n], s);
      assert (a + b)[..|a + b| - 1] == a + b[..n] && (a + b)[|a + b| - 1] == b[n];
    }
  }

  lemma {:induction false} WalkAgrees(read: Reader, read': Reader, ds: seq<Descriptor>, s: Slots)
    requires forall d :: read(d) == read'(d)
    ensures Walk(read, ds, s) == Walk(read', ds, s)
  {
    if ds != [] { WalkAgrees(read, read', ds[..|ds| - 1], s); }
  }

  /** Each slot is set by the list, whatever it held, or kept. */
  lemma {:induction false} SetOrKept(xs: seq<Carried>, s: Slots, s': Slots)
    ensures var t, t' := PlaceAll(xs, s), PlaceAll(xs, s');
      && (t.slsa == t'.slsa || (t.slsa == s.slsa && t'.slsa == s'.slsa))
      && (t.sbom == t'.sbom || (t.sbom == s.sbom && t'.sbom == s'.sbom))
      && (t.sig == t'.sig || (t.sig == s.sig && t'.sig == s'.sig))
  {
    if xs != [] { SetOrKept(xs[..|xs| - 1], s, s'); }
  }

  lemma PlacedTwice(xs: seq<Carried>, s: Slots)
    ensures PlaceAll(xs, PlaceAll(xs, s)) == PlaceAll(xs, s)
  {
    SetOrKept(xs, s, PlaceAll(xs, s));
  }

  /** Walking the same referrers again finds the same payloads. */
  lemma WalkedTwice(read: Reader, ds: seq<Descriptor>, more: seq<Descriptor>, xs: seq<Carried>, s: Slots)
    requires forall s :: Walk(read, more, s) == Ok(PlaceAll(xs, s))
    ensures Walk(read, ds + more + more, s) == Walk(read, ds + more, s)
  {
    WalkAppend(read, ds + more, more, s);
    WalkAppend(read, ds, more, s);
    var r := Walk(read, ds, s);
    if r.Ok? { PlacedTwice(xs, r.value); }
  }

  // ── the second run ──

  /** `f` was wired once to give `f'`, and once more to give `f''`. */
  ghost predicate WiredTwice(c: Codec, store: Store, f: Files, f': Files, f'': Files, es: seq<Evidence>, ds: seq<Bytes>,
      subject: Descriptor)
  {
    && Added(c, store, f, f', es, ds, subject)
    && Ref.GainsAll(c, f', f'', Ref.Written(c, es, subject)) && LayoutValid(c, f'')
    && IndexEntries(c, f'') == Some(IndexEntries(c, f').value + Ref.NewEntries(c, es, subject))
  }

  lemma SecondAdds(c: Codec, store: Store, f: Files, f': Files, f'': Files, es: seq<Evidence>, xs: seq<Carried>,
      ds: seq<Bytes>, subject: Descriptor)
    requires c.Lawful() && WiredTwice(c, store, f, f', f'', es, ds, subject) && Aligned(c, es, xs, ds)
    ensures Added(c, store, f', f'', es, ds, subject)
    ensures forall g :: BlobBytes(f'', g) == BlobBytes(f', g)
  {
    AddedOpens(c, store, f, f', es, xs, ds, subject);
    NothingGained(c, f', f'', Ref.Written(c, es, subject));
    forall g ensures BlobBytes(f'', g) == BlobBytes(f', g) { SameBytes(f', f'', g); }
    StaysBehind(store, f', f'');
    StaysDelivered(c, store, f', f'', es, ds, subject);
  }

  lemma StaysBehind(store: Store, f: Files, f': Files)
    requires Behind(store, f)
    requires forall h :: IsHex64(h) ==>
      (Path.Blob(h) in f' <==> Path.Blob(h) in f) && (Path.Blob(h) in f ==> f'[Path.Blob(h)] == f[Path.Blob(h)])
    ensures Behind(store, f')
  {
  }

  /**
   * A second run appends the entries again, contrary to its comment, but no blob changes,
   * the image opens with the same referenced blobs, and every verification decides the same.
   */
  lemma RewireIdempotent(c: Codec, store: Store, f: Files, f': Files, f'': Files, es: seq<Evidence>, xs: seq<Carried>,
      ds: seq<Bytes>, subject: Descriptor,
      check: CosignVerify, policy: Option<Policy>)
    requires c.Lawful() && WiredTwice(c, store, f, f', f'', es, ds, subject) && Aligned(c, es, xs, ds)
    ensures |IndexEntries(c, f'').value| == |IndexEntries(c, f').value| + |es|
    ensures forall g :: BlobBytes(f'', g) == BlobBytes(f', g)
    ensures WellFormed(c, f') && WellFormed(c, f'') && View(c, f'').referenced == View(c, f').referenced
    ensures View(c, f'').primary == View(c, f').primary
    ensures Verdict(c, check, Reads(c, f''), View(c, f''), policy) ==
      Verdict(c, check, Reads(c, f'), View(c, f'), policy)
  {
    SecondAdds(c, store, f, f', f'', es, xs, ds, subject);
    AddedOpens(c, store, f, f', es, xs, ds, subject);
    AddedOpens(c, store, f', f'', es, xs, ds, subject);
    SameClosure(c, store, f, f', f'', es, xs, ds, subject);
    SameWalk(c, f', f'', View(c, f).referrers, Ref.NewEntries(c, es, subject), xs);
    SameVerdict(c, check, policy, Reads(c, f'), Reads(c, f''), View(c, f'), View(c, f''));
  }

  lemma SameVerdict(c: Codec, check: CosignVerify, policy: Option<Policy>, read: Reader, read': Reader, u: ImageDir,
      v: ImageDir)
    requires v.primary == u.primary && Walk(read', v.referrers, NO_SLOTS) == Walk(read, u.referrers, NO_SLOTS)
    ensures Verdict(c, check, read', v, policy) == Verdict(c, check, read, u, policy)
  {
  }

  lemma SameWalk(c: Codec, f: Files, f': Files, rs: seq<Descriptor>, more: seq<Descriptor>, xs: seq<Carried>)
    requires forall g :: BlobBytes(f', g) == BlobBytes(f, g)
    requires forall s :: Walk(Reads(c, f), more, s) == Ok(PlaceAll(xs, s))
    ensures Walk(Reads(c, f'), rs + more + more, NO_SLOTS) == Walk(Reads(c, f), rs + more, NO_SLOTS)
  {
    var read, read' := Reads(c, f), Reads(c, f');
    forall d ensures read(d) == read'(d) { ReadsSame(c, f, f', d); }
    WalkAgrees(read', read, rs + more + more, NO_SLOTS);
    WalkedTwice(read, rs, more, xs, NO_SLOTS);
  }

  lemma ReadsSame(c: Codec, f: Files, f': Files, d: Descriptor)
    requires forall g :: BlobBytes(f', g) == BlobBytes(f, g)
    ensures Reads(c, f)(d) == Reads(c, f')(d)
  {
  }

  lemma SameClosure(c: Codec, store: Store, f: Files, f': Files, f'': Files, es: seq<Evidence>, xs: seq<Carried>,
      ds: seq<Bytes>, subject: Descriptor)
    requires c.Lawful() && WiredTwice(c, store, f, f', f'', es, ds, subject) && Aligned(c, es, xs, ds)
    requires Added(c, store, f', f'', es, ds, subject)
    ensures WellFormed(c, f') && WellFormed(c, f'') && View(c, f'').referenced == View(c, f').referenced
  {
    AddedOpens(c, store, f, f', es, xs, ds, subject);
    AddedOpens(c, store, f', f'', es, xs, ds, subject);
    var load, old_, more := Stored(c, f''), IndexEntries(c, f).value, Ref.NewEntries(c, es, subject);
    OldEntriesStay(c, f', f'');
    GrowsOver(f, f', f'');
    OldEntriesStay(c, f, f'');
    NewAreGood(c, store, f', f'', es, xs, ds, subject);
    RepeatedView(load, old_, more, f'');
  }

  lemma GrowsOver(f: Files, f': Files, f'': Files)
    requires BlobsGrow(f, f') && BlobsGrow(f', f'')
    ensures BlobsGrow(f, f'')
  {
  }

  lemma NewAreGood(c: Codec, store: Store, f: Files, f': Files, es: seq<Evidence>, xs: seq<Carried>, ds: seq<Bytes>,
      subject: Descriptor)
    requires c.Lawful() && Added(c, store, f, f', es, ds, subject) && Aligned(c, es, xs, ds)
    ensures forall d <- Ref.NewEntries(c, es, subject) :: GoodReferrer(Stored(c, f'), f', d, subject.digest)
  {
    DeliveredWired(c, store, f', es, xs, ds, subject);
    var more := Ref.NewEntries(c, es, subject);
    forall d | d in more ensures GoodReferrer(Stored(c, f'), f', d, subject.digest) {
      var i :| 0 <= i < |more| && more[i] == d;
      WiredIsGood(c, store, f', es[i], subject);
    }
  }

  /** Attest and wire, then wire the same outputs once more: whenever both wirings succeed. */
  method WireTwice(t: Tools, fs: Fs, pid: string, a: BuiltArtifact, cfg: AttestationConfig, size: nat,
      check: CosignVerify, policy: Option<Policy>, ghost store: Store)
    returns (attested: Result<Outputs, AttestError>, once: Files, twice: Result<(), Ref.CliError>)
    requires Attestable(t, store, fs.files, a, cfg, size)
    modifies fs
    ensures fs.Reliable() ==> (attested.Ok? <==> Signable(t, a, cfg)) && (attested.Ok? <==> twice.Ok?)
    ensures twice.Ok? ==> attested.Ok? && WellFormed(t.c, once) && WellFormed(t.c, fs.files)
    ensures twice.Ok? ==>
      && |IndexEntries(t.c, fs.files).value| == |IndexEntries(t.c, once).value| + |Ref.Evidences(attested.value)|
      && (forall g :: BlobBytes(fs.files, g) == BlobBytes(once, g))
      && View(t.c, fs.files).referenced == View(t.c, once).referenced
      && Verdict(t.c, check, Reads(t.c, fs.files), View(t.c, fs.files), policy) ==
        Verdict(t.c, check, Reads(t.c, once), View(t.c, once), policy)
  {
    ghost var f := fs.files;
    attested, twice := AttestAndWire(t, fs, pid, a, cfg, size, store);
    once := fs.files;
    if twice.Err? { return; }
    ghost var b := Base(fs.files, |fs.history|, Some(store));
    var subject := SubjectOf(a, size);
    ghost var es, xs, ds := Ref.Evidences(OutputsOf(t, a, cfg)), Payloads(t, a, cfg), StoredBlobs(t, a, cfg);
    AllKnown(t, store, b, a, cfg, size);
    OutputsAligned(t, a, cfg);
    AddedOpens(t.c, store, f, once, es, xs, ds, subject);
    twice := Ref.WriteReferrers(t.c, fs, pid, attested.value, subject, b);
    if twice.Err? { return; }
    SecondRun(t.c, store, b, f, once, fs.files, es, ds, subject);
    RewireIdempotent(t.c, store, f, once, fs.files, es, xs, ds, subject, check, policy);
  }

  lemma SecondRun(c: Codec, store: Store, b: Base, f: Files, f': Files, f'': Files, es: seq<Evidence>, ds: seq<Bytes>,
      subject: Descriptor)
    requires c.Lawful() && Added(c, store, f, f', es, ds, subject) && WellFormed(c, f') && b.files == f'
    requires Ref.Readable(c, f') && StoreKept(c, b, f'') && INDEX_FILE in f''
    requires f''[INDEX_FILE] == c.compact(Ref.NewIndex(Ref.IndexObject(c, f'), Ref.NewEntries(c, es, subject)))
    requires Ref.GainsAll(c, f', f'', Ref.Written(c, es, subject))
    ensures WiredTwice(c, store, f, f', f'', es, ds, subject)
  {
    EntriesFit(c, store, es, subject);
    IndexAppends(c, f', f'', Ref.NewEntries(c, es, subject));
  }
}
