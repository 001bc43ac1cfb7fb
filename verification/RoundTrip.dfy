/** Publishing an image to an empty registry and pulling it back gives the same image. */
module RoundTrip {
  import opened Wrappers
  import opened Json
  import opened Oci
  import opened ImageDirs
  import opened ImageDirFacts
  import opened FileSystems
  import opened Staging
  import opened RefParser
  import opened Sinks
  import R = Registry
  import opened RegistrySink
  import opened RegistryFacts
  import opened Wire
  import opened Pull
  import opened RetryFacts
  import opened Deliveries
  import opened PullFacts

  // ── the registry as a server ──

  const NOT_FOUND := Response(404, None, None, Body([], false))

  /** How a registry serves what it stores; `list` is its referrers API. */
  function Serve(c: Codec, s: R.Store, list: string -> seq<Descriptor>, t: Target): Response
  {
    match t
    case ManifestAt(reference) =>
      var d := R.Resolve(s, reference);
      if d.Some? then Response(200, d, None, Body(s.manifests[d.value], false)) else NOT_FOUND
    case BlobAt(digest) =>
      if digest in s.blobs then Response(200, Some(digest), None, Body(s.blobs[digest], false)) else NOT_FOUND
    case ReferrersAt(digest) => Response(200, None, None, Body(c.compact(IndexJson(list(digest))), false))
  }

  /** The manifest names `primary` as its subject. */
  predicate NamesSubject(c: Codec, data: Bytes, primary: string)
  {
    var m := ParseManifest(c, data);
    m.Some? && m.value.subject.Some? && m.value.subject.value.digest == primary
  }

  /** The referrers API lists, in any order, exactly the manifests whose subject is asked for. */
  ghost predicate ListsReferrers(c: Codec, s: R.Store, list: string -> seq<Descriptor>)
  {
    forall d {:trigger list(d)} ::
      && Digests(list(d)) == (set g <- s.manifests | NamesSubject(c, s.manifests[g], d))
      && forall x <- list(d) :: x.mediaType == MANIFEST_TYPE && Fits(x)
  }

  /** What a pull may rely on: this registry, with `data` behind its digests. */
  function UpstreamOf(c: Codec, s: R.Store, list: string -> seq<Descriptor>, data: Content,
      ready: Session -> bool): Upstream
  {
    Upstream((t: Target) => Serve(c, s, list, t), ready, (h: string) => data(DigestText(h)))
  }

  /** What is served is no fault and no challenge: how lost replies are waited out is the servers' affair. */
  lemma ServedIsPlain(c: Codec, s: R.Store, list: string -> seq<Descriptor>, data: Content, ready: Session -> bool)
    ensures Unfailing(UpstreamOf(c, s, list, data, ready))
  {
    var up := UpstreamOf(c, s, list, data, ready);
    forall t ensures Plain(up.serve(t)) && !Fault(Got(up.serve(t))) {
      ServedStatus(c, s, list, t);
      assert up.serve(t) == Serve(c, s, list, t);
    }
  }

  lemma ServedStatus(c: Codec, s: R.Store, list: string -> seq<Descriptor>, t: Target)
    ensures Serve(c, s, list, t).status == 200 || Serve(c, s, list, t).status == 404
  {
  }

  // ── the published image, as entries and the data behind them ──

  predicate Manifests(c: Codec, data: Content, e: Entry)
  {
    ParseManifest(c, data(e.desc.digest)) == Some(e.manifest) && StatesManifestType(e.manifest)
  }

  /** A primary and its referrers, parsed from the data behind their digests. */
  ghost predicate Genuine(c: Codec, data: Content, p: Entry, rs: seq<Entry>)
  {
    && Manifests(c, data, p) && p.manifest.subject.None?
    && forall e <- rs :: GenuineReferrer(c, data, e, p.desc.digest)
  }

  predicate GenuineReferrer(c: Codec, data: Content, e: Entry, primary: string)
  {
    Manifests(c, data, e) && e.manifest.subject.Some? && e.manifest.subject.value.digest == primary
  }

  lemma GenuineEntries(c: Codec, dir: Files)
    requires WellFormed(c, dir)
    ensures Genuine(c, DataOf(dir), PrimaryEntry(c, dir), ReferrerEntries(c, dir))
  {
    var p, rs := PrimaryEntry(c, dir), ReferrerEntries(c, dir);
    forall e | e in rs ensures GenuineReferrer(c, DataOf(dir), e, p.desc.digest) {
      var i :| 0 <= i < |rs| && rs[i] == e;
      assert RefersTo(dir, rs[i], p.desc.digest);
      LoadedManifests(c, dir, e);
    }
    LoadedManifests(c, dir, p);
  }

  lemma LoadedManifests(c: Codec, dir: Files, e: Entry)
    requires Loadable(Stored(c, dir), e.desc) && e == EntryOf(Stored(c, dir), e.desc)
    ensures Manifests(c, DataOf(dir), e)
  {
  }

  /** The data of a digest hashes to it. */
  predicate Hashed(c: Codec, data: Content, g: string) { Addressable(g) && c.DigestOf(data(g)) == g }

  ghost predicate Holds(c: Codec, data: Content, m: map<string, Bytes>)
  {
    forall g <- m :: m[g] == data(g) && Hashed(c, data, g)
  }

  /** A registry that has exactly these manifests, all content that is no manifest, and the tag. */
  ghost predicate Hosts(c: Codec, data: Content, s: R.Store, p: Entry, rs: seq<Entry>, tag: string)
  {
    && s.manifests.Keys == ManifestDigests(p, rs)
    && s.blobs.Keys == ContentDigests(p, rs) - ManifestDigests(p, rs)
    && Holds(c, data, s.manifests) && Holds(c, data, s.blobs)
    && !Addressable(tag) && tag in s.tags && s.tags[tag] == p.desc.digest
  }

  lemma {:induction false} AddAllHolds(c: Codec, data: Content, ds: seq<string>)
    requires forall g <- ds :: Hashed(c, data, g)
    ensures Holds(c, data, AddAll(map[], data, ds)) && AddAll(map[], data, ds).Keys == set g <- ds
  {
    if ds != [] {
      var n := |ds| - 1;
      assert ds[n] in ds;
      AddAllHolds(c, data, ds[..n]);
    }
  }

  const EMPTY_STORE := R.Store(map[], map[], map[])

  /** The registry a publication leaves. */
  lemma PublicationHosts(c: Codec, data: Content, image: ImageDir, p: Entry, rs: seq<Entry>, tag: string)
    requires image.primary == p.desc && image.referrers == Descs(rs)
    requires Digests(image.referenced) == ManifestDigests(p, rs) + ContentDigests(p, rs)
    requires forall g <- PushOrder(image) :: Hashed(c, data, g)
    requires !Addressable(tag)
    ensures Hosts(c, data, PublishedStore(image, data, EMPTY_STORE, tag), p, rs, tag)
  {
    var refs := Referrers(image) + [p.desc.digest];
    assert forall g <- AllContent(image) :: g in PushOrder(image);
    assert forall g <- refs :: g in PushOrder(image);
    AddAllHolds(c, data, AllContent(image));
    AddAllHolds(c, data, refs);
    ManifestList(image, p, rs);
    ContentIs(image, p, rs);
  }

  lemma ContentIs(image: ImageDir, p: Entry, rs: seq<Entry>)
    requires image.primary == p.desc && image.referrers == Descs(rs)
    requires Digests(image.referenced) == ManifestDigests(p, rs) + ContentDigests(p, rs)
    ensures (set g <- AllContent(image)) == ContentDigests(p, rs) - ManifestDigests(p, rs)
  {
    var n := |image.referenced|;
    assert image.referenced[..n] == image.referenced;
    forall g ensures g in AllContent(image) <==> g in ContentDigests(p, rs) - ManifestDigests(p, rs) {
      ContentMembers(image, n, g);
    }
  }

  lemma ManifestList(image: ImageDir, p: Entry, rs: seq<Entry>)
    requires image.primary == p.desc && image.referrers == Descs(rs)
    ensures (set g <- Referrers(image) + [p.desc.digest]) == ManifestDigests(p, rs)
  {
    forall g ensures g in Referrers(image) <==> g in Digests(Descs(rs)) { ReferrerMembers(image, g); }
  }

  // ── what the registry offers a pull ──

  lemma KidsAre(c: Codec, data: Bytes, m: Manifest)
    requires ParseManifest(c, data) == Some(m)
    ensures ParseWireManifest(c, data).Some? && WireChildren(c, data) == ChildDigests(m)
  {
  }

  /** Blobs the registry stores are offered. */
  lemma BlobsServed(c: Codec, data: Content, s: R.Store, list: string -> seq<Descriptor>, ready: Session -> bool,
      gs: set<string>)
    requires forall g <- gs :: g in s.blobs && s.blobs[g] == data(g) && Hashed(c, data, g)
    ensures BlobsOffered(c, UpstreamOf(c, s, list, data, ready), gs)
  {
    var up := UpstreamOf(c, s, list, data, ready);
    forall g | g in gs ensures BlobOffered(c, up, g) {
      assert up.serve(BlobAt(g)) == Response(200, Some(g), None, Body(data(g), false));
    }
  }

  lemma EntryOffered(c: Codec, data: Content, s: R.Store, list: string -> seq<Descriptor>, ready: Session -> bool,
      reference: string, e: Entry)
    requires Manifests(c, data, e) && Hashed(c, data, e.desc.digest)
    requires R.Resolve(s, reference) == Some(e.desc.digest) && s.manifests[e.desc.digest] == data(e.desc.digest)
    requires forall g <- ChildDigests(e.manifest) :: g in s.blobs && s.blobs[g] == data(g) && Hashed(c, data, g)
    ensures Offered(c, UpstreamOf(c, s, list, data, ready), reference, e.desc.digest)
  {
    var up, d := UpstreamOf(c, s, list, data, ready), e.desc.digest;
    KidsAre(c, data(d), e.manifest);
    BlobsServed(c, data, s, list, ready, ChildDigests(e.manifest));
    ResponseOffered(c, up, reference, d, data(d));
  }

  lemma ResponseOffered(c: Codec, up: Upstream, reference: string, d: string, data: Bytes)
    requires up.serve(ManifestAt(reference)) == Response(200, Some(d), None, Body(data, false))
    requires c.DigestOf(data) == d && Addressable(d) && ParseWireManifest(c, data).Some?
    requires BlobsOffered(c, up, WireChildren(c, data))
    ensures Offered(c, up, reference, d)
  {
  }

  lemma ReferrersRead(c: Codec, s: R.Store, list: string -> seq<Descriptor>, d: string, required: bool)
    requires c.Lawful() && forall x <- list(d) :: Fits(x)
    ensures ReadReferrers(c, Serve(c, s, list, ReferrersAt(d)), required) == Ok(list(d))
  {
    assert c.parse(c.compact(IndexJson(list(d)))) == Some(IndexJson(list(d)));
    DescriptorsRoundTrip(list(d));
    assert Field(IndexJson(list(d)), "manifests") == Some(JArr(DescriptorsJson(list(d))));
  }

  /** The referrers API finds the referrers of the image and nothing else. */
  lemma ListIsReferrers(c: Codec, data: Content, s: R.Store, list: string -> seq<Descriptor>, p: Entry, rs: seq<Entry>,
      tag: string)
    requires Genuine(c, data, p, rs) && Hosts(c, data, s, p, rs, tag) && ListsReferrers(c, s, list)
    ensures Digests(list(p.desc.digest)) == Digests(Descs(rs))
  {
    var d := p.desc.digest;
    forall g | g in s.manifests ensures NamesSubject(c, s.manifests[g], d) <==> g in Digests(Descs(rs)) {
      assert s.manifests[g] == data(g);
      SubjectIsReferrer(c, data, p, rs, g);
    }
  }

  lemma SubjectIsReferrer(c: Codec, data: Content, p: Entry, rs: seq<Entry>, g: string)
    requires Genuine(c, data, p, rs) && g in ManifestDigests(p, rs)
    ensures NamesSubject(c, data(g), p.desc.digest) <==> g in Digests(Descs(rs))
  {
    if g in Digests(Descs(rs)) {
      var e := EntryWith(rs, g);
      assert GenuineReferrer(c, data, e, p.desc.digest);
    }
  }

  /** The first entry with a given digest. */
  function EntryWith(rs: seq<Entry>, g: string): (e: Entry)
    requires g in Digests(Descs(rs))
    ensures e in rs && e.desc.digest == g
  {
    rs[FirstIndex(Descs(rs), g)]
  }

  // ── when a pull finds everything ──

  /** What the manifest behind a digest names. */
  function DataKids(c: Codec, data: Content): string -> set<string> { (g: string) => WireChildren(c, data(g)) }

  /** The `i`-th referrer has no manifest as content but the primary, itself and those listed before it. */
  ghost predicate TurnOrdered(kids: string -> set<string>, manifests: set<string>, p: string, listed: seq<Descriptor>,
      i: nat)
  {
    i < |listed| ==> kids(listed[i].digest) * manifests <= {p} + Digests(listed[..i + 1])
  }

  /**
   * A manifest that is also somebody's layer or config is listed before the manifest that
   * names it. The registry has it as a manifest only, so a pull has it by then or never.
   */
  ghost predicate Ordered(kids: string -> set<string>, manifests: set<string>, p: string, listed: seq<Descriptor>)
  {
    && kids(p) * manifests <= {p}
    && forall i: nat {:trigger TurnOrdered(kids, manifests, p, listed, i)} :: TurnOrdered(kids, manifests, p, listed, i)
  }

  lemma {:induction false} SeenAgree(kids: string -> set<string>, kids': string -> set<string>, first: set<string>,
      ds: seq<Descriptor>)
    requires forall d <- ds :: kids(d.digest) == kids'(d.digest)
    ensures SeenBy(kids, first, ds) == SeenBy(kids', first, ds)
  {
    if ds != [] {
      assert ds[|ds| - 1] in ds;
      SeenAgree(kids, kids', first, ds[..|ds| - 1]);
    }
  }

  /** Of the manifests, exactly the primary and those listed so far have been seen. */
  lemma {:induction false} SeenManifests(kids: string -> set<string>, manifests: set<string>, p: string,
      listed: seq<Descriptor>, i: nat)
    requires p in manifests && Digests(listed) <= manifests && kids(p) * manifests <= {p} && i <= |listed|
    requires forall j: nat :: j < i ==> TurnOrdered(kids, manifests, p, listed, j)
    ensures SeenBy(kids, {p} + kids(p), listed[..i]) * manifests == {p} + Digests(listed[..i])
  {
    if i > 0 {
      SeenManifests(kids, manifests, p, listed, i - 1);
      SeenStep(kids, {p} + kids(p), listed, i - 1);
      DigestsStep(listed, i - 1);
      assert TurnOrdered(kids, manifests, p, listed, i - 1);
      var g := listed[i - 1].digest;
      SeenNext(SeenBy(kids, {p} + kids(p), listed[..i - 1]), manifests, {p} + Digests(listed[..i - 1]), g, kids(g));
    }
  }

  lemma SeenNext(seen: set<string>, manifests: set<string>, so_far: set<string>, g: string, names: set<string>)
    requires seen * manifests == so_far && g in manifests && names * manifests <= so_far + {g}
    ensures (seen + {g} + names) * manifests == so_far + {g} && (g in seen ==> so_far + {g} == so_far)
  {
  }

  /** What a turn can get, when it has seen exactly the manifests listed so far. */
  ghost predicate TurnGets(kids: string -> set<string>, manifests: set<string>, seen: set<string>, g: string)
  {
    g in seen || kids(g) * manifests <= seen + {g}
  }

  lemma TurnGetsExactly(kids: string -> set<string>, manifests: set<string>, p: string, listed: seq<Descriptor>, i: nat)
    requires p in manifests && Digests(listed) <= manifests && kids(p) * manifests <= {p} && i < |listed|
    requires forall j: nat :: j < i ==> TurnOrdered(kids, manifests, p, listed, j)
    ensures TurnGetsAt(kids, manifests, p, listed, i) <==> TurnOrdered(kids, manifests, p, listed, i)
  {
    var seen, g := SeenBy(kids, {p} + kids(p), listed[..i]), listed[i].digest;
    SeenManifests(kids, manifests, p, listed, i);
    DigestsStep(listed, i);
    assert seen * manifests == {p} + Digests(listed[..i]) && g in manifests;
    WithinSeen(kids(g), manifests, seen, g);
    if g in seen && g != p {
      assert g in seen * manifests;
      var d :| d in listed[..i] && d.digest == g;
      var j :| 0 <= j < i && listed[..i][j] == d;
      assert TurnOrdered(kids, manifests, p, listed, j);
      PrefixDigests(listed, j + 1, i + 1);
    }
  }

  lemma WithinSeen(names: set<string>, manifests: set<string>, seen: set<string>, g: string)
    requires g in manifests
    ensures names * manifests <= seen + {g} <==> names * manifests <= seen * manifests + {g}
  {
    forall x | x in names * manifests ensures x in seen <==> x in seen * manifests { }
  }

  lemma PrefixDigests(ds: seq<Descriptor>, j: nat, i: nat)
    requires j <= i <= |ds|
    ensures Digests(ds[..j]) <= Digests(ds[..i])
  {
    forall d | d in ds[..j] ensures d in ds[..i] { }
  }

  ghost predicate AllGet(kids: string -> set<string>, manifests: set<string>, p: string, listed: seq<Descriptor>)
  {
    forall i: nat {:trigger TurnGetsAt(kids, manifests, p, listed, i)} :: TurnGetsAt(kids, manifests, p, listed, i)
  }

  ghost predicate TurnGetsAt(kids: string -> set<string>, manifests: set<string>, p: string, listed: seq<Descriptor>,
      i: nat)
  {
    i < |listed| ==> TurnGets(kids, manifests, SeenBy(kids, {p} + kids(p), listed[..i]), listed[i].digest)
  }

  lemma {:induction false} OrderedSoFar(kids: string -> set<string>, manifests: set<string>, p: string,
      listed: seq<Descriptor>, i: nat)
    requires p in manifests && Digests(listed) <= manifests && kids(p) * manifests <= {p}
    requires AllGet(kids, manifests, p, listed) && i <= |listed|
    ensures forall j: nat :: j < i ==> TurnOrdered(kids, manifests, p, listed, j)
  {
    if i > 0 {
      OrderedSoFar(kids, manifests, p, listed, i - 1);
      assert TurnGetsAt(kids, manifests, p, listed, i - 1);
      TurnGetsExactly(kids, manifests, p, listed, i - 1);
    }
  }

  /** Every turn gets its content exactly when the list is in order. */
  lemma OrderedExactly(kids: string -> set<string>, manifests: set<string>, p: string, listed: seq<Descriptor>)
    requires p in manifests && Digests(listed) <= manifests && kids(p) * manifests <= {p}
    ensures AllGet(kids, manifests, p, listed) <==> Ordered(kids, manifests, p, listed)
  {
    if AllGet(kids, manifests, p, listed) { OrderedSoFar(kids, manifests, p, listed, |listed|); }
    if Ordered(kids, manifests, p, listed) {
      forall i: nat ensures TurnGetsAt(kids, manifests, p, listed, i) {
        assert TurnOrdered(kids, manifests, p, listed, i);
        if i < |listed| { TurnGetsExactly(kids, manifests, p, listed, i); }
      }
    }
  }

  /**
   * With a second referrer that has the first one as a layer, the two listed in that order
   * are in order, and the other way round they are not.
   */
  lemma OrderDecides(kids: string -> set<string>, manifests: set<string>, p: string, a: Descriptor, z: Descriptor)
    requires a.digest in manifests && a.digest != p && a.digest != z.digest
    requires kids(p) * manifests == {} && kids(a.digest) * manifests == {}
    requires kids(z.digest) * manifests == {a.digest}
    ensures Ordered(kids, manifests, p, [a, z]) && !Ordered(kids, manifests, p, [z, a])
  {
    forall i: nat ensures TurnOrdered(kids, manifests, p, [a, z], i) {
      if i == 1 {
        assert [a, z][..2] == [a, z];
        assert a.digest in Digests([a, z]) by { assert a in [a, z]; }
      }
    }
    assert [z, a][..1] == [z];
    assert a.digest in kids(z.digest) * manifests && a.digest !in {p} + Digests([z]);
    assert !TurnOrdered(kids, manifests, p, [z, a], 0);
  }

  // ── what such a registry lets a pull get ──

  /** The registry serves exactly its blobs. */
  lemma BlobServedExactly(c: Codec, data: Content, s: R.Store, list: string -> seq<Descriptor>, ready: Session -> bool,
      g: string)
    requires Holds(c, data, s.blobs)
    ensures BlobOffered(c, UpstreamOf(c, s, list, data, ready), g) <==> g in s.blobs
  {
  }

  lemma ManifestServedAs(c: Codec, data: Content, s: R.Store, list: string -> seq<Descriptor>, ready: Session -> bool,
      reference: string, e: Entry)
    requires Manifests(c, data, e) && Hashed(c, data, e.desc.digest)
    requires R.Resolve(s, reference) == Some(e.desc.digest) && s.manifests[e.desc.digest] == data(e.desc.digest)
    ensures var up := UpstreamOf(c, s, list, data, ready);
      && up.serve(ManifestAt(reference)).body.data == data(e.desc.digest)
      && ManifestOffered(c, up, reference, e.desc.digest)
      && WireChildren(c, data(e.desc.digest)) == ChildDigests(e.manifest)
  {
    KidsAre(c, data(e.desc.digest), e.manifest);
  }

  /** The entry of a manifest of the image. */
  lemma EntryFor(c: Codec, data: Content, p: Entry, rs: seq<Entry>, g: string) returns (e: Entry)
    requires Genuine(c, data, p, rs) && g in ManifestDigests(p, rs)
    ensures e.desc.digest == g && Manifests(c, data, e) && ChildDigests(e.manifest) <= ContentDigests(p, rs)
  {
    if g == p.desc.digest {
      e := p;
    } else {
      e := EntryWith(rs, g);
      assert GenuineReferrer(c, data, e, p.desc.digest);
    }
  }

  /** Every manifest is served under its digest, and it names content of the image. */
  lemma HostedManifest(c: Codec, data: Content, s: R.Store, list: string -> seq<Descriptor>, ready: Session -> bool,
      p: Entry, rs: seq<Entry>, tag: string, g: string)
    requires Genuine(c, data, p, rs) && Hosts(c, data, s, p, rs, tag) && g in ManifestDigests(p, rs)
    ensures var up := UpstreamOf(c, s, list, data, ready);
      && up.serve(ManifestAt(g)).body.data == data(g) && ManifestOffered(c, up, g, g)
      && WireChildren(c, data(g)) <= ContentDigests(p, rs)
  {
    var e := EntryFor(c, data, p, rs, g);
    assert Hashed(c, data, g) && s.manifests[g] == data(g);
    ManifestServedAs(c, data, s, list, ready, g, e);
  }

  lemma HostedTag(c: Codec, data: Content, s: R.Store, list: string -> seq<Descriptor>, ready: Session -> bool,
      p: Entry, rs: seq<Entry>, tag: string)
    requires Genuine(c, data, p, rs) && Hosts(c, data, s, p, rs, tag)
    ensures var up := UpstreamOf(c, s, list, data, ready);
      up.serve(ManifestAt(tag)).body.data == data(p.desc.digest) && ManifestOffered(c, up, tag, p.desc.digest)
  {
    assert p.desc.digest in s.manifests && Hashed(c, data, p.desc.digest);
    ManifestServedAs(c, data, s, list, ready, tag, p);
  }

  /** No blob is there before the pull. */
  ghost predicate NoBlobs(b: Base) { forall q <- b.files :: !q.Blob? }

  /** Of the content of the image, a pull that has `here` can get all that is no other manifest. */
  lemma GetsKids(c: Codec, data: Content, s: R.Store, list: string -> seq<Descriptor>, ready: Session -> bool,
      p: Entry, rs: seq<Entry>, tag: string, b: Base, here: set<string>, gs: set<string>)
    requires Hosts(c, data, s, p, rs, tag) && NoBlobs(b) && gs <= ContentDigests(p, rs)
    ensures CanGetAll(c, b, UpstreamOf(c, s, list, data, ready), here, gs) <==> gs * ManifestDigests(p, rs) <= here
  {
    var up := UpstreamOf(c, s, list, data, ready);
    forall g | g in gs ensures CanGet(c, b, up, here, g) <==> g in here || g !in ManifestDigests(p, rs) {
      BlobServedExactly(c, data, s, list, ready, g);
    }
  }

  /** A turn succeeds exactly when it gets its content. */
  lemma TurnGot(c: Codec, data: Content, s: R.Store, list: string -> seq<Descriptor>, ready: Session -> bool,
      p: Entry, rs: seq<Entry>, tag: string, b: Base, seen: set<string>, g: string)
    requires Genuine(c, data, p, rs) && Hosts(c, data, s, p, rs, tag) && NoBlobs(b) && g in ManifestDigests(p, rs)
    ensures g in seen || ReferrerObtainable(c, b, UpstreamOf(c, s, list, data, ready), seen, g) <==>
      TurnGets(DataKids(c, data), ManifestDigests(p, rs), seen, g)
  {
    HostedManifest(c, data, s, list, ready, p, rs, tag, g);
    GetsKids(c, data, s, list, ready, p, rs, tag, b, seen + {g}, WireChildren(c, data(g)));
  }

  /** By its turn a referrer finds seen what the data says. */
  lemma HostedSeen(c: Codec, data: Content, s: R.Store, list: string -> seq<Descriptor>, ready: Session -> bool,
      p: Entry, rs: seq<Entry>, tag: string, first: set<string>, listed: seq<Descriptor>, i: nat)
    requires Genuine(c, data, p, rs) && Hosts(c, data, s, p, rs, tag)
    requires Digests(listed) <= ManifestDigests(p, rs) && i <= |listed|
    ensures var up := UpstreamOf(c, s, list, data, ready);
      SeenBy(ServedKids(c, up), first, listed[..i]) == SeenBy(DataKids(c, data), first, listed[..i])
  {
    var served, kids := ServedKids(c, UpstreamOf(c, s, list, data, ready)), DataKids(c, data);
    forall x | x in listed[..i] ensures served(x.digest) == kids(x.digest) {
      assert x in listed;
      HostedManifest(c, data, s, list, ready, p, rs, tag, x.digest);
    }
    SeenAgree(served, kids, first, listed[..i]);
  }

  /** A referrer can be pulled at its turn exactly when that turn gets its content. */
  lemma TurnGotAt(c: Codec, data: Content, s: R.Store, list: string -> seq<Descriptor>, ready: Session -> bool,
      p: Entry, rs: seq<Entry>, tag: string, b: Base, listed: seq<Descriptor>, i: nat)
    requires Genuine(c, data, p, rs) && Hosts(c, data, s, p, rs, tag) && NoBlobs(b)
    requires Digests(listed) <= ManifestDigests(p, rs)
    ensures var up, d := UpstreamOf(c, s, list, data, ready), p.desc.digest;
      TurnObtainable(c, b, up, {d} + WireChildren(c, data(d)), listed, i) <==>
        TurnGetsAt(DataKids(c, data), ManifestDigests(p, rs), d, listed, i)
  {
    if i < |listed| {
      var kids := DataKids(c, data);
      var first := {p.desc.digest} + kids(p.desc.digest);
      HostedSeen(c, data, s, list, ready, p, rs, tag, first, listed, i);
      DigestsStep(listed, i);
      TurnGot(c, data, s, list, ready, p, rs, tag, b, SeenBy(kids, first, listed[..i]), listed[i].digest);
    }
  }

  /** The referrers can be pulled exactly when every turn gets its content. */
  lemma ListGot(c: Codec, data: Content, s: R.Store, list: string -> seq<Descriptor>, ready: Session -> bool,
      p: Entry, rs: seq<Entry>, tag: string, b: Base, listed: seq<Descriptor>)
    requires Genuine(c, data, p, rs) && Hosts(c, data, s, p, rs, tag) && NoBlobs(b)
    requires Digests(listed) <= ManifestDigests(p, rs)
    ensures var up, d := UpstreamOf(c, s, list, data, ready), p.desc.digest;
      ListObtainable(c, b, up, {d} + WireChildren(c, data(d)), listed) <==>
        AllGet(DataKids(c, data), ManifestDigests(p, rs), d, listed)
  {
    forall i: nat { TurnGotAt(c, data, s, list, ready, p, rs, tag, b, listed, i); }
  }

  /**
   * A registry with exactly this image can be pulled from, into a directory without blobs,
   * exactly when the referrers API lists the referrers in order.
   */
  lemma ObtainableExactly(c: Codec, data: Content, s: R.Store, list: string -> seq<Descriptor>, ready: Session -> bool,
      p: Entry, rs: seq<Entry>, tag: string, required: bool, b: Base)
    requires c.Lawful() && Genuine(c, data, p, rs) && Hosts(c, data, s, p, rs, tag) && ListsReferrers(c, s, list)
    requires NoBlobs(b)
    ensures ImageObtainable(c, b, UpstreamOf(c, s, list, data, ready), Tag(tag), required) <==>
      Ordered(DataKids(c, data), ManifestDigests(p, rs), p.desc.digest, list(p.desc.digest))
  {
    var up, d, kids := UpstreamOf(c, s, list, data, ready), p.desc.digest, DataKids(c, data);
    PrimaryGot(c, data, s, list, ready, p, rs, tag, b);
    AttachedGot(c, data, s, list, ready, p, rs, tag, required, b);
    HostedTag(c, data, s, list, ready, p, rs, tag);
    ListIsReferrers(c, data, s, list, p, rs, tag);
    if kids(d) * ManifestDigests(p, rs) <= {d} { OrderedExactly(kids, ManifestDigests(p, rs), d, list(d)); }
  }

  lemma PrimaryGot(c: Codec, data: Content, s: R.Store, list: string -> seq<Descriptor>, ready: Session -> bool,
      p: Entry, rs: seq<Entry>, tag: string, b: Base)
    requires Genuine(c, data, p, rs) && Hosts(c, data, s, p, rs, tag) && NoBlobs(b)
    ensures PrimaryObtainable(c, b, UpstreamOf(c, s, list, data, ready), Tag(tag)) <==>
      WireChildren(c, data(p.desc.digest)) * ManifestDigests(p, rs) <= {p.desc.digest}
  {
    var d := p.desc.digest;
    HostedTag(c, data, s, list, ready, p, rs, tag);
    HostedManifest(c, data, s, list, ready, p, rs, tag, d);
    GetsKids(c, data, s, list, ready, p, rs, tag, b, {d}, WireChildren(c, data(d)));
  }

  lemma AttachedGot(c: Codec, data: Content, s: R.Store, list: string -> seq<Descriptor>, ready: Session -> bool,
      p: Entry, rs: seq<Entry>, tag: string, required: bool, b: Base)
    requires c.Lawful() && Genuine(c, data, p, rs) && Hosts(c, data, s, p, rs, tag) && ListsReferrers(c, s, list)
    requires NoBlobs(b)
    ensures var d := p.desc.digest;
      ReferrersObtainable(c, b, UpstreamOf(c, s, list, data, ready), data(d), required) <==>
        AllGet(DataKids(c, data), ManifestDigests(p, rs), d, list(d))
  {
    var d := p.desc.digest;
    assert Hashed(c, data, d);
    ReferrersRead(c, s, list, d, required);
    ListIsReferrers(c, data, s, list, p, rs, tag);
    ListGot(c, data, s, list, ready, p, rs, tag, b, list(d));
  }

  /** When no manifest is also content, every list is in order. */
  lemma NotContentOrdered(c: Codec, data: Content, p: Entry, rs: seq<Entry>, listed: seq<Descriptor>)
    requires Genuine(c, data, p, rs) && ManifestsNotContent(p, rs) && Digests(listed) == Digests(Descs(rs))
    ensures Ordered(DataKids(c, data), ManifestDigests(p, rs), p.desc.digest, listed)
  {
    ChildOfManifest(c, data, p, rs, p.desc.digest);
    forall i: nat | i < |listed|
      ensures TurnOrdered(DataKids(c, data), ManifestDigests(p, rs), p.desc.digest, listed, i)
    {
      DigestsStep(listed, i);
      ChildOfManifest(c, data, p, rs, listed[i].digest);
    }
  }

  lemma ServedIsStored(c: Codec, data: Content, s: R.Store, list: string -> seq<Descriptor>, t: Target)
    requires forall g <- s.manifests :: s.manifests[g] == data(g)
    requires forall g <- s.blobs :: s.blobs[g] == data(g)
    requires !t.ReferrersAt? && Serve(c, s, list, t) != NOT_FOUND
    ensures Serve(c, s, list, t).body.data == data(Served(s, t))
    ensures (Served(s, t) in s.manifests || Served(s, t) in s.blobs)
  {
  }

  /** The digest of what a target brings. */
  function Served(s: R.Store, t: Target): string
  {
    match t
    case ManifestAt(reference) => if R.Resolve(s, reference).Some? then R.Resolve(s, reference).value else ""
    case BlobAt(digest) => digest
    case ReferrersAt(_) => ""
  }

  lemma HostsFaithful(c: Codec, data: Content, s: R.Store, list: string -> seq<Descriptor>, ready: Session -> bool,
      p: Entry, rs: seq<Entry>, tag: string)
    requires Hosts(c, data, s, p, rs, tag)
    ensures Faithful(c, UpstreamOf(c, s, list, data, ready))
  {
    var up := UpstreamOf(c, s, list, data, ready);
    forall t: Target | !t.ReferrersAt? && Success(up.serve(t).status)
      ensures up.serve(t).body.data == up.store(c.hash(up.serve(t).body.data))
    {
      ServedIsStored(c, data, s, list, t);
      HashedText(c, data, Served(s, t));
    }
  }

  lemma HashedText(c: Codec, data: Content, g: string)
    requires Hashed(c, data, g)
    ensures DigestText(c.hash(data(g))) == g
  {
  }

  // ── what comes back ──

  /** Whatever the registry offered was the data behind the digests. */
  ghost predicate FromData(b: Base, data: Content)
  {
    b.store.Some? && (forall h :: b.store.value(h) == data(DigestText(h))) && forall q <- b.files :: !q.Blob?
  }

  lemma FetchedIsData(c: Codec, data: Content, b: Base, f: Files, target: RefTarget, rep: Report)
    requires FromData(b, data) && Pulled(c, b, f, target, rep)
    ensures forall d <- rep.fetched :: rep.fetched[d] == data(d)
  {
    forall d | d in rep.fetched ensures rep.fetched[d] == data(d) {
      assert FetchedOk(c, f, d, rep.fetched[d]);
      assert d == DigestText(c.hash(rep.fetched[d]));
    }
  }

  /** Every blob on disk is the data behind its digest. */
  lemma StoredIsData(c: Codec, data: Content, b: Base, f: Files, g: string)
    requires FromData(b, data) && StoreKept(c, b, f) && Present(f, g)
    ensures BlobBytes(f, g) == Some(data(g))
  {
    var h := HexOf(g).value;
    assert Blob(h) in f && Blob(h) !in b.files && g == DigestText(h);
  }

  lemma PulledNoClash(c: Codec, data: Content, b: Base, f: Files, target: RefTarget, rep: Report)
    requires FromData(b, data) && Pulled(c, b, f, target, rep)
    ensures NoClash(f, rep)
  {
    FetchedIsData(c, data, b, f, target, rep);
    forall d | d in rep.fetched ensures BlobBytes(f, d) == Some(rep.fetched[d]) {
      assert FetchedOk(c, f, d, rep.fetched[d]);
      StoredIsData(c, data, b, f, d);
    }
  }

  /** The report names the manifests of the image. */
  ghost predicate Reports(rep: Report, data: Content, p: Entry, rs: seq<Entry>)
  {
    && rep.primary == data(p.desc.digest) && Digests(rep.listed) == Digests(Descs(rs))
    && (forall d <- rep.fetched :: rep.fetched[d] == data(d) && d in ManifestDigests(p, rs))
    && forall x <- rep.listed :: x.mediaType == MANIFEST_TYPE
  }

  lemma ChildOfManifest(c: Codec, data: Content, p: Entry, rs: seq<Entry>, d: string)
    requires Genuine(c, data, p, rs) && d in ManifestDigests(p, rs)
    ensures WireChildren(c, data(d)) <= ContentDigests(p, rs)
  {
    if d == p.desc.digest {
      KidsAre(c, data(d), p.manifest);
    } else {
      var e := EntryWith(rs, d);
      assert GenuineReferrer(c, data, e, p.desc.digest);
      KidsAre(c, data(d), e.manifest);
    }
  }

  // ── every referrer was fetched ──

  /** With everything listed fetched, the two ways of counting what was seen agree. */
  lemma {:induction false} SeenSame(kids: Kids, fetched: map<string, Bytes>, served: string -> set<string>,
      first: set<string>, ds: seq<Descriptor>)
    requires forall d <- ds :: d.digest in fetched && kids(fetched[d.digest]) == served(d.digest)
    ensures SeenAfter(kids, fetched, first, ds) == SeenBy(served, first, ds)
  {
    if ds != [] {
      assert ds[|ds| - 1] in ds;
      SeenSame(kids, fetched, served, first, ds[..|ds| - 1]);
    }
  }

  /** When the list is in order, every listed referrer is fetched at its first turn. */
  lemma {:induction false} FetchedUpTo(c: Codec, data: Content, manifests: set<string>, p: string, rep: Report, i: nat)
    requires Ordered(DataKids(c, data), manifests, p, rep.listed) && p in manifests && Digests(rep.listed) <= manifests
    requires FetchedAtTurn(KidsOf(c), p, rep) && rep.primary == data(p)
    requires (forall d <- rep.fetched :: rep.fetched[d] == data(d)) && i <= |rep.listed|
    ensures Digests(rep.listed[..i]) <= rep.fetched.Keys
  {
    if i > 0 {
      FetchedUpTo(c, data, manifests, p, rep, i - 1);
      SeenIsListed(c, data, manifests, p, rep, i - 1);
      DigestsStep(rep.listed, i - 1);
      TurnFetched(c, manifests, p, rep, i - 1);
    }
  }

  lemma TurnFetched(c: Codec, manifests: set<string>, p: string, rep: Report, i: nat)
    requires FetchedAtTurn(KidsOf(c), p, rep) && i < |rep.listed| && rep.listed[i].digest in manifests
    requires Digests(rep.listed[..i]) <= rep.fetched.Keys
    requires SeenAfter(KidsOf(c), rep.fetched, {p} + WireChildren(c, rep.primary), rep.listed[..i]) * manifests ==
      {p} + Digests(rep.listed[..i])
    ensures rep.listed[i].digest in rep.fetched
  {
    var g := rep.listed[i].digest;
    var seen := SeenAfter(KidsOf(c), rep.fetched, {p} + WireChildren(c, rep.primary), rep.listed[..i]);
    if g in seen {
      assert g in seen * manifests;
    } else {
      UnseenFetched(c, p, rep, i);
    }
  }

  lemma UnseenFetched(c: Codec, p: string, rep: Report, i: nat)
    requires FetchedAtTurn(KidsOf(c), p, rep) && i < |rep.listed|
    requires rep.listed[i].digest !in
      SeenAfter(KidsOf(c), rep.fetched, {p} + WireChildren(c, rep.primary), rep.listed[..i])
    ensures rep.listed[i].digest in rep.fetched
  {
    var first, g := {p} + WireChildren(c, rep.primary), rep.listed[i].digest;
    assert NewAt(KidsOf(c), rep.fetched, first, rep.listed, i, g);
    NewExactly(KidsOf(c), rep.fetched, first, rep.listed, g);
  }

  /** Of the manifests, exactly the primary and those listed so far had been seen. */
  lemma SeenIsListed(c: Codec, data: Content, manifests: set<string>, p: string, rep: Report, i: nat)
    requires Ordered(DataKids(c, data), manifests, p, rep.listed) && p in manifests && Digests(rep.listed) <= manifests
    requires rep.primary == data(p) && i <= |rep.listed| && Digests(rep.listed[..i]) <= rep.fetched.Keys
    requires forall d <- rep.fetched :: rep.fetched[d] == data(d)
    ensures SeenAfter(KidsOf(c), rep.fetched, {p} + WireChildren(c, rep.primary), rep.listed[..i]) * manifests ==
      {p} + Digests(rep.listed[..i])
  {
    var before := rep.listed[..i];
    forall d | d in before ensures d.digest in rep.fetched { assert d.digest in Digests(before); }
    SeenSame(KidsOf(c), rep.fetched, DataKids(c, data), {p} + WireChildren(c, rep.primary), before);
    SeenManifests(DataKids(c, data), manifests, p, rep.listed, i);
  }

  lemma OrderedFetched(c: Codec, data: Content, p: Entry, rs: seq<Entry>, rep: Report)
    requires Reports(rep, data, p, rs) && FetchedAtTurn(KidsOf(c), p.desc.digest, rep)
    requires Ordered(DataKids(c, data), ManifestDigests(p, rs), p.desc.digest, rep.listed)
    ensures AllFetched(rep)
  {
    var n := |rep.listed|;
    FetchedUpTo(c, data, ManifestDigests(p, rs), p.desc.digest, rep, n);
    assert rep.listed[..n] == rep.listed;
    forall d | d in rep.listed ensures d.digest in rep.fetched { assert d.digest in Digests(rep.listed); }
  }

  lemma ReportShaped(c: Codec, data: Content, p: Entry, rs: seq<Entry>, rep: Report)
    requires Genuine(c, data, p, rs) && Reports(rep, data, p, rs) && c.DigestOf(rep.primary) == p.desc.digest
    requires p.desc.digest in rep.fetched && forall x <- rep.listed :: x.digest in rep.fetched
    ensures Shaped(Fetched(c, rep), PulledEntries(c, rep.primary, [])[0], rep.listed)
  {
    var load := Fetched(c, rep);
    assert load(p.desc.digest) == Some(p.manifest);
    forall x | x in rep.listed ensures Refers(load, x, p.desc.digest) {
      assert x.digest in Digests(Descs(rs));
      var e := EntryWith(rs, x.digest);
      assert GenuineReferrer(c, data, e, p.desc.digest);
      assert load(x.digest) == Some(e.manifest);
    }
  }

  // ── the same image ──

  /** Two layouts with the same manifests, the same closure and the same bytes. */
  ghost predicate SameImage(c: Codec, a: Files, b: Files)
    requires WellFormed(c, a) && WellFormed(c, b)
  {
    var u, v := View(c, a), View(c, b);
    && v.primary.digest == u.primary.digest && v.config == u.config && v.layers == u.layers
    && Digests(v.referrers) == Digests(u.referrers) && Digests(v.referenced) == Digests(u.referenced)
    && forall g <- Digests(u.referenced) :: SameBlob(a, b, g)
  }

  /** Entries parsed from the same data under the same digests have the same content. */
  lemma ContentWithin(c: Codec, data: Content, p: Entry, rs: seq<Entry>, p': Entry, rs': seq<Entry>)
    requires Genuine(c, data, p, rs) && Genuine(c, data, p', rs')
    requires p'.desc.digest == p.desc.digest && Digests(Descs(rs')) <= Digests(Descs(rs))
    ensures p'.manifest == p.manifest && ContentDigests(p', rs') <= ContentDigests(p, rs)
  {
    forall e' | e' in rs' ensures ChildDigests(e'.manifest) <= ContentDigests(p, rs) {
      var i :| 0 <= i < |rs'| && rs'[i] == e';
      assert Descs(rs')[i] == e'.desc;
      var e := EntryWith(rs, e'.desc.digest);
      assert GenuineReferrer(c, data, e, p.desc.digest) && GenuineReferrer(c, data, e', p.desc.digest);
    }
  }

  lemma GenuineShift(c: Codec, data: Content, data': Content, p: Entry, rs: seq<Entry>)
    requires Genuine(c, data, p, rs) && forall g <- ManifestDigests(p, rs) :: data'(g) == data(g)
    ensures Genuine(c, data', p, rs)
  {
    forall e | e in rs ensures GenuineReferrer(c, data', e, p.desc.digest) {
      assert GenuineReferrer(c, data, e, p.desc.digest);
      var i :| 0 <= i < |rs| && rs[i] == e;
      assert Descs(rs)[i] == e.desc && e.desc.digest in Digests(Descs(rs));
    }
  }

  /** Two well-formed layouts with the same data behind the same manifest digests are the same image. */
  lemma SameEntries(c: Codec, data: Content, a: Files, b: Files)
    requires WellFormed(c, a) && WellFormed(c, b) && View(c, b).primary.digest == View(c, a).primary.digest
    requires Digests(View(c, b).referrers) == Digests(View(c, a).referrers)
    requires forall g <- Digests(View(c, a).referenced) :: BlobBytes(a, g) == Some(data(g))
    requires forall g <- Digests(View(c, b).referenced) :: BlobBytes(b, g) == Some(data(g))
    ensures SameImage(c, a, b)
  {
    var p, rs, p', rs' := PrimaryEntry(c, a), ReferrerEntries(c, a), PrimaryEntry(c, b), ReferrerEntries(c, b);
    ReferencedAre(c, a);
    ReferencedAre(c, b);
    GenuineAs(c, data, a);
    GenuineAs(c, data, b);
    ContentSame(c, data, p, rs, p', rs');
  }

  lemma GenuineAs(c: Codec, data: Content, dir: Files)
    requires WellFormed(c, dir) && forall g <- Digests(View(c, dir).referenced) :: BlobBytes(dir, g) == Some(data(g))
    ensures Genuine(c, data, PrimaryEntry(c, dir), ReferrerEntries(c, dir))
  {
    ReferencedAre(c, dir);
    GenuineEntries(c, dir);
    GenuineShift(c, DataOf(dir), data, PrimaryEntry(c, dir), ReferrerEntries(c, dir));
  }

  lemma ContentSame(c: Codec, data: Content, p: Entry, rs: seq<Entry>, p': Entry, rs': seq<Entry>)
    requires Genuine(c, data, p, rs) && Genuine(c, data, p', rs')
    requires p'.desc.digest == p.desc.digest && Digests(Descs(rs')) == Digests(Descs(rs))
    ensures p'.manifest == p.manifest && ManifestDigests(p', rs') == ManifestDigests(p, rs)
    ensures ContentDigests(p', rs') == ContentDigests(p, rs)
  {
    ContentWithin(c, data, p, rs, p', rs');
    ContentWithin(c, data, p', rs', p, rs);
  }

  /** The referrers of the image are listed in an order in which a pull finds everything. */
  ghost predicate Retrievable(c: Codec, dir: Files, listed: seq<Descriptor>)
    requires WellFormed(c, dir)
  {
    var p, rs := PrimaryEntry(c, dir), ReferrerEntries(c, dir);
    Ordered(DataKids(c, DataOf(dir)), ManifestDigests(p, rs), p.desc.digest, listed)
  }

  /** A pull of the published data opens as the published image. */
  lemma PulledIsSame(c: Codec, dir: Files, b: Base, f: Files, target: RefTarget, rep: Report)
    requires c.Lawful() && WellFormed(c, dir) && StoreCorrect(c, dir)
    requires |DataOf(dir)(View(c, dir).primary.digest)| < U64_LIMIT && Retrievable(c, dir, rep.listed)
    requires FromData(b, DataOf(dir)) && LAYOUT_FILE !in b.files && Pulled(c, b, f, target, rep)
    requires rep.primary == DataOf(dir)(View(c, dir).primary.digest)
    requires Digests(rep.listed) == Digests(View(c, dir).referrers)
    requires forall x <- rep.listed :: x.mediaType == MANIFEST_TYPE
    ensures WellFormed(c, f) && SameImage(c, dir, f)
  {
    var data, p, rs := DataOf(dir), PrimaryEntry(c, dir), ReferrerEntries(c, dir);
    GenuineEntries(c, dir);
    EntriesComplete(c, dir);
    StoredHashed(c, dir, p.desc.digest);
    FetchedIsData(c, data, b, f, target, rep);
    assert Reports(rep, data, p, rs);
    OrderedFetched(c, data, p, rs, rep);
    PulledNoClash(c, data, b, f, target, rep);
    ReportShaped(c, data, p, rs, rep);
    FetchedOpens(c, b, f, target, rep);
    ReferencedPresent(c, dir);
    ReferencedPresent(c, f);
    forall g | g in Digests(View(c, f).referenced)
      ensures BlobBytes(f, g) == Some(data(g))
    {
      StoredIsData(c, data, b, f, g);
    }
    SameEntries(c, data, dir, f);
  }

  lemma StoredHashed(c: Codec, dir: Files, g: string)
    requires StoreCorrect(c, dir) && Present(dir, g)
    ensures Hashed(c, DataOf(dir), g)
  {
    var h := HexOf(g).value;
    assert c.hash(dir[Blob(h)]) == h;
  }

  // ── the round trip ──

  /** The registry after the image was published to an empty one. */
  function After(c: Codec, dir: Files, tag: string): R.Store
    requires WellFormed(c, dir)
  {
    PublishedStore(View(c, dir), DataOf(dir), EMPTY_STORE, tag)
  }

  lemma AfterHosts(c: Codec, dir: Files, tag: string)
    requires WellFormed(c, dir) && StoreCorrect(c, dir) && !Addressable(tag)
    ensures Hosts(c, DataOf(dir), After(c, dir, tag), PrimaryEntry(c, dir), ReferrerEntries(c, dir), tag)
    ensures Sound(c, DataOf(dir), PushOrder(View(c, dir))) && Named(View(c, dir))
  {
    var v := View(c, dir);
    OpenValidates(c, dir);
    ReferencedAre(c, dir);
    ReferencedPresent(c, dir);
    forall g | g in PushOrder(v) ensures Hashed(c, DataOf(dir), g) {
      PushedIsReferenced(v, g);
      StoredHashed(c, dir, g);
    }
    PublicationHosts(c, DataOf(dir), v, PrimaryEntry(c, dir), ReferrerEntries(c, dir), tag);
  }

  lemma PushedIsReferenced(image: ImageDir, g: string)
    requires Validated(image) && g in PushOrder(image)
    ensures g in Digests(image.referenced)
  {
    var n := |image.referenced|;
    assert image.referenced[..n] == image.referenced;
    ContentMembers(image, n, g);
    ReferrerMembers(image, g);
  }

  lemma TagServes(c: Codec, data: Content, s: R.Store, list: string -> seq<Descriptor>, ready: Session -> bool,
      p: Entry, rs: seq<Entry>, tag: string)
    requires Hosts(c, data, s, p, rs, tag)
    ensures UpstreamOf(c, s, list, data, ready).serve(ManifestAt(tag)).body.data == data(p.desc.digest)
  {
  }

  function AfterUpstream(c: Codec, dir: Files, tag: string, list: string -> seq<Descriptor>,
      ready: Session -> bool): Upstream
    requires WellFormed(c, dir)
  {
    UpstreamOf(c, After(c, dir, tag), list, DataOf(dir), ready)
  }

  /** What the registry lets a pull get after the publication, into a directory without blobs. */
  ghost predicate GivesBack(c: Codec, dir: Files, tag: string, up: Upstream, listed: seq<Descriptor>)
    requires WellFormed(c, dir)
  {
    && Faithful(c, up)
    && (forall b, required {:trigger ImageObtainable(c, b, up, Tag(tag), required)} :: NoBlobs(b) ==>
          (ImageObtainable(c, b, up, Tag(tag), required) <==> Retrievable(c, dir, listed)))
    && (forall required :: ReadReferrers(c, up.serve(ReferrersAt(View(c, dir).primary.digest)), required) == Ok(listed))
    && Digests(listed) == Digests(View(c, dir).referrers) && (forall x <- listed :: x.mediaType == MANIFEST_TYPE)
    && up.serve(ManifestAt(tag)).body.data == DataOf(dir)(View(c, dir).primary.digest)
    && forall h :: up.store(h) == DataOf(dir)(DigestText(h))
  }

  /** An image that is what its names promise, under a tag. */
  ghost predicate Publishable(c: Codec, dir: Files, tag: string)
  {
    && c.Lawful() && WellFormed(c, dir) && StoreCorrect(c, dir) && !Addressable(tag)
    && |DataOf(dir)(View(c, dir).primary.digest)| < U64_LIMIT
  }

  lemma PublicationGives(c: Codec, dir: Files, tag: string, list: string -> seq<Descriptor>, ready: Session -> bool)
    requires Publishable(c, dir, tag)
    requires ListsReferrers(c, After(c, dir, tag), list)
    ensures GivesBack(c, dir, tag, AfterUpstream(c, dir, tag, list, ready), list(View(c, dir).primary.digest))
  {
    var p, rs, data, s := PrimaryEntry(c, dir), ReferrerEntries(c, dir), DataOf(dir), After(c, dir, tag);
    AfterHosts(c, dir, tag);
    GenuineEntries(c, dir);
    HostsFaithful(c, data, s, list, ready, p, rs, tag);
    forall b, required | NoBlobs(b)
      ensures ImageObtainable(c, b, UpstreamOf(c, s, list, data, ready), Tag(tag), required) <==>
        Retrievable(c, dir, list(p.desc.digest))
    {
      ObtainableExactly(c, data, s, list, ready, p, rs, tag, required, b);
    }
    forall required
      ensures ReadReferrers(c, Serve(c, s, list, ReferrersAt(p.desc.digest)), required) == Ok(list(p.desc.digest))
    {
      ReferrersRead(c, s, list, p.desc.digest, required);
    }
    ListIsReferrers(c, data, s, list, p, rs, tag);
    TagServes(c, data, s, list, ready, p, rs, tag);
  }

  /** The pulling half, from a registry that gives the image back. */
  method PullBack(c: Codec, dir: Files, tag: string, client: Client, fs: Fs, required: bool, ghost up: Upstream,
      ghost listed: seq<Descriptor>)
    returns (r: Result<(), PullError>)
    requires Publishable(c, dir, tag)
    requires GivesBack(c, dir, tag, up, listed) && Delivers(client.server, up) && up.ready(client.Now())
    requires client.tokens == 0 && fs.Reliable() && fs.files == map[]
    modifies client, fs
    ensures r.Ok? <==> Retrievable(c, dir, listed)
    ensures r.Ok? ==> WellFormed(c, fs.files) && SameImage(c, dir, fs.files)
  {
    ghost var b := Base(fs.files, |fs.history|, Some(up.store));
    ghost var rep;
    assert NoBlobs(b);
    r, rep := ExecutePull(c, client, fs, true, Tag(tag), required, b, Some(up));
    if r.Ok? {
      PrimaryHashed(c, dir);
      PulledIsSame(c, dir, b, fs.files, Tag(tag), rep);
    }
  }

  lemma PrimaryHashed(c: Codec, dir: Files)
    requires WellFormed(c, dir) && StoreCorrect(c, dir)
    ensures c.DigestOf(DataOf(dir)(View(c, dir).primary.digest)) == View(c, dir).primary.digest
  {
    EntriesComplete(c, dir);
    StoredHashed(c, dir, View(c, dir).primary.digest);
  }

  /** `f` opens as the image that `dir` is. */
  ghost predicate CameBack(c: Codec, dir: Files, f: Files)
    requires WellFormed(c, dir)
  {
    WellFormed(c, f) && SameImage(c, dir, f)
  }

  /** A fresh client and an empty directory, and what the server serves is what the publication left. */
  ghost predicate PullReady(c: Codec, dir: Files, tag: string, client: Client, fs: Fs,
      list: string -> seq<Descriptor>, ready: Session -> bool)
    requires WellFormed(c, dir)
    reads client, fs
  {
    var up := AfterUpstream(c, dir, tag, list, ready);
    && ListsReferrers(c, After(c, dir, tag), list) && Delivers(client.server, up) && up.ready(client.Now())
    && client.tokens == 0 && fs.Reliable() && fs.files == map[]
  }

  /** The pulling half, from the registry the publication left. */
  method PullPublished(c: Codec, dir: Files, tag: string, client: Client, fs: Fs, required: bool,
      ghost list: string -> seq<Descriptor>, ghost ready: Session -> bool)
    returns (r: Result<(), PullError>)
    requires Publishable(c, dir, tag) && PullReady(c, dir, tag, client, fs, list, ready)
    modifies client, fs
    ensures r.Ok? <==> Retrievable(c, dir, list(View(c, dir).primary.digest))
    ensures r.Ok? ==> CameBack(c, dir, fs.files)
  {
    ghost var up, listed := AfterUpstream(c, dir, tag, list, ready), list(View(c, dir).primary.digest);
    PublicationGives(c, dir, tag, list, ready);
    r := PullBack(c, dir, tag, client, fs, required, up, listed);
  }

  /** The publishing half: retried 5xx and lost replies do not change what a success leaves. */
  method PushOut(c: Codec, dir: Files, conn: R.Connection, tag: string)
    returns (r: Result<PublishOutcome, PublishError>)
    requires Publishable(c, dir, tag)
    requires conn.c == c && conn.Honest() && conn.site.store == EMPTY_STORE
    modifies conn
    ensures r.Ok? ==> conn.site.store == After(c, dir, tag)
    ensures conn.Patient() ==> r.Ok?
  {
    AfterHosts(c, dir, tag);
    var image := Open(c, dir);
    r := PublishRegistry(conn, image.value, DataOf(dir), tag);
  }

  /**
   * `publish_registry` to an empty honest registry, then, if that succeeded, `execute_pull`
   * into an empty directory, whatever 5xx replies and lost replies the publication went
   * through: the pull succeeds exactly when the referrers API lists the referrers in order,
   * as it does whenever no manifest is also content, and its result opens as the same image,
   * byte for byte.
   */
  method PublishThenPull(c: Codec, dir: Files, conn: R.Connection, tag: string, client: Client, fs: Fs, required: bool,
      ghost list: string -> seq<Descriptor>, ghost ready: Session -> bool)
    returns (pushed: Result<PublishOutcome, PublishError>, pulled: Option<Result<(), PullError>>)
    requires Publishable(c, dir, tag) && PullReady(c, dir, tag, client, fs, list, ready)
    requires conn.c == c && conn.Honest() && conn.site.store == EMPTY_STORE
    modifies conn, client, fs
    ensures pushed.Ok? ==>
      && conn.site.store == After(c, dir, tag) && pulled.Some?
      && (pulled.value.Ok? <==> Retrievable(c, dir, list(View(c, dir).primary.digest)))
      && (pulled.value.Ok? ==> CameBack(c, dir, fs.files))
    ensures pushed.Err? ==> pulled.None?
    ensures conn.Patient() ==> pushed.Ok?
  {
    pulled := None;
    pushed := PushOut(c, dir, conn, tag);
    if pushed.Ok? {
      var r := PullPublished(c, dir, tag, client, fs, required, list, ready);
      pulled := Some(r);
    }
  }

  /** An image in which no manifest is also a layer or a config always comes back. */
  lemma PlainRetrievable(c: Codec, dir: Files, tag: string, list: string -> seq<Descriptor>)
    requires Publishable(c, dir, tag) && ListsReferrers(c, After(c, dir, tag), list)
    requires ManifestsNotContent(PrimaryEntry(c, dir), ReferrerEntries(c, dir))
    ensures Retrievable(c, dir, list(View(c, dir).primary.digest))
  {
    var p, rs := PrimaryEntry(c, dir), ReferrerEntries(c, dir);
    AfterHosts(c, dir, tag);
    GenuineEntries(c, dir);
    ListIsReferrers(c, DataOf(dir), After(c, dir, tag), list, p, rs, tag);
    NotContentOrdered(c, DataOf(dir), p, rs, list(p.desc.digest));
  }
}
