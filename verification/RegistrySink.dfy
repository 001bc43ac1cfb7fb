/** `publish_registry`: blobs, then referrer manifests, then the tag, over a faulty connection. */
module RegistrySink {
  import opened Wrappers
  import opened Oci
  import opened ImageDirs
  import opened Registry
  import opened Retries
  import opened Sinks

  /** The bytes behind a digest. */
  type Content = string -> Bytes

  function DataOf(dir: Files): Content
  {
    (g: string) => var b := BlobBytes(dir, g); if b.Some? then b.value else []
  }

  function Pushed(o: PublishOutcome, digest: string, size: nat): PublishOutcome
  {
    o.(pushed := o.pushed + [digest], bytesUploaded := o.bytesUploaded + size)
  }

  function Skipped(o: PublishOutcome, digest: string): PublishOutcome { o.(skipped := o.skipped + [digest]) }

  /** No exchange since `mark` has touched a tag. */
  ghost predicate TagsKept(conn: Connection, mark: nat, tags: map<string, string>)
    reads conn
  {
    conn.site.store.tags == tags && mark <= |conn.history| && forall i :: mark <= i < |conn.history| ==>
      conn.history[i].tags == tags
  }

  // ── one blob, one manifest ──

  function Refusal(status: nat): PublishError
  {
    if status == 401 || status == 403 then Auth else RegistryRefused(status)
  }

  method InitBlobUpload(conn: Connection, digest: string) returns (r: Result<nat, PublishError>)
    modifies conn
    ensures TagsKept(conn, |old(conn.history)|, old(conn.site.store.tags)) && old(conn.history) <= conn.history
    ensures conn.site.store == old(conn.site.store)
    ensures conn.Through(old(conn.clock)) ==> r.Ok? && r.value in conn.site.sessions
    ensures conn.clock > old(conn.clock)
    ensures conn.plan(old(conn.clock)).Fine? ==> conn.clock == old(conn.clock) + 1 && r.Ok?
  {
    if conn.plan(conn.clock).Fine? { conn.FineIsThrough(); }
    var reply := conn.Send(StartUpload);
    if reply.NoReply? { return Err(BlobUpload(digest)); }
    if reply.answer.status != 202 && reply.answer.status != 201 { return Err(RegistryRefused(reply.answer.status)); }
    if reply.answer.location.None? { return Err(BlobUpload(digest)); }
    r := Ok(reply.answer.location.value);
  }

  method PutBlobMonolithic(conn: Connection, session: nat, digest: string, data: Bytes)
    returns (r: Result<(), PublishError>)
    modifies conn
    ensures TagsKept(conn, |old(conn.history)|, old(conn.site.store.tags)) && old(conn.history) <= conn.history
    ensures conn.Honest() && r.Ok? ==>
      conn.site.store == Effect(conn.c, old(conn.site.store), PutBlob(session, digest, data))
        && conn.c.DigestOf(data) == digest
    ensures conn.Patient() && session in old(conn.site.sessions) && conn.c.DigestOf(data) == digest ==> r.Ok?
    ensures conn.LosesUpload(old(conn.clock)) ==>
      session in old(conn.site.sessions) && conn.c.DigestOf(data) == digest ==>
      r == Err(RegistryRefused(404)) && digest in conn.site.store.blobs
  {
    ghost var k, before := conn.clock, conn.site;
    var reply := conn.Send(PutBlob(session, digest, data));
    if conn.LosesUpload(k) && session in before.sessions && conn.c.DigestOf(data) == digest {
      UploadLost(conn.c, conn.plan, k, conn.clock - k, before, session, digest, data);
    }
    if reply.NoReply? { return Err(BlobUpload(digest)); }
    if reply.answer.status != 201 && reply.answer.status != 200 { return Err(Refusal(reply.answer.status)); }
    r := Ok(());
  }

  /** `push_blob_with_skip`. */
  method PushBlobWithSkip(conn: Connection, digest: string, data: Bytes, outcome: PublishOutcome)
    returns (r: Result<PublishOutcome, PublishError>)
    modifies conn
    ensures TagsKept(conn, |old(conn.history)|, old(conn.site.store.tags)) && old(conn.history) <= conn.history
    ensures r.Ok? ==> r.value == Skipped(outcome, digest) || r.value == Pushed(outcome, digest, |data|)
    ensures conn.Honest() && r.Ok? ==>
      var s := old(conn.site.store);
      && conn.site.store == s.(blobs := Add(s.blobs, digest, data))
      && r.value == if digest in s.blobs then Skipped(outcome, digest) else Pushed(outcome, digest, |data|)
    ensures conn.Patient() && conn.c.DigestOf(data) == digest ==> r.Ok?
    ensures conn.FineTwice(old(conn.clock)) && conn.LosesUpload(old(conn.clock) + 2) ==>
      conn.c.DigestOf(data) == digest && digest !in old(conn.site.store.blobs) ==>
      r == Err(RegistryRefused(404)) && digest in conn.site.store.blobs
  {
    conn.FineIsThrough();
    var head := conn.Send(HeadBlob(digest));
    if head.NoReply? { return Err(BlobUpload(digest)); }
    if head.answer.status == 200 { return Ok(Skipped(outcome, digest)); }
    if head.answer.status != 404 { return Err(RegistryRefused(head.answer.status)); }
    var session :- InitBlobUpload(conn, digest);
    var _ :- PutBlobMonolithic(conn, session, digest, data);
    r := Ok(Pushed(outcome, digest, |data|));
  }

  method PutManifestBytes(conn: Connection, target: string, data: Bytes) returns (r: Result<(), PublishError>)
    modifies conn
    ensures conn.Among(|old(conn.history)|, old(conn.site.store),
      Effect(conn.c, old(conn.site.store), PutManifest(target, data)))
    ensures old(conn.history) <= conn.history
    ensures conn.site.store == old(conn.site.store)
      || conn.site.store == Effect(conn.c, old(conn.site.store), PutManifest(target, data))
    ensures conn.Honest() && r.Ok? ==>
      && conn.site.store == Effect(conn.c, old(conn.site.store), PutManifest(target, data))
      && (Addressable(target) ==> conn.c.DigestOf(data) == target)
    ensures conn.Through(old(conn.clock)) && (Addressable(target) ==> conn.c.DigestOf(data) == target) ==> r.Ok?
    ensures conn.clock > old(conn.clock)
  {
    var reply := conn.Send(PutManifest(target, data));
    if reply.NoReply? { return Err(ManifestUpload); }
    if reply.answer.status != 201 && reply.answer.status != 200 { return Err(Refusal(reply.answer.status)); }
    r := Ok(());
  }

  /** `push_manifest_with_skip`: only a manifest addressed by its digest may be skipped. */
  method PushManifestWithSkip(conn: Connection, digest: string, target: string, data: Bytes, outcome: PublishOutcome)
    returns (r: Result<PublishOutcome, PublishError>)
    modifies conn
    ensures old(conn.history) <= conn.history
    ensures conn.Among(|old(conn.history)|, old(conn.site.store),
      Effect(conn.c, old(conn.site.store), PutManifest(target, data)))
    ensures conn.site.store == old(conn.site.store)
      || conn.site.store == Effect(conn.c, old(conn.site.store), PutManifest(target, data))
    ensures r.Ok? ==>
      r.value == Pushed(outcome, digest, |data|) || (digest == target && r.value == Skipped(outcome, digest))
    ensures conn.Honest() && r.Ok? ==>
      || conn.site.store == Effect(conn.c, old(conn.site.store), PutManifest(target, data))
      || (digest == target && Resolve(old(conn.site.store), target).Some? && conn.site.store == old(conn.site.store))
    ensures conn.Patient() && r.Ok? && digest == target ==>
      r.value ==
        if Resolve(old(conn.site.store), target).Some? then Skipped(outcome, digest)
        else Pushed(outcome, digest, |data|)
    ensures conn.Through(old(conn.clock)) && digest == target && Resolve(old(conn.site.store), target).Some? ==>
      r == Ok(Skipped(outcome, digest))
    ensures conn.BusyOnce(old(conn.clock)) && digest == target == conn.c.DigestOf(data) ==>
      r == Ok(Pushed(outcome, digest, |data|)) && conn.clock >= old(conn.clock) + MAX_RETRIES + 2
    ensures conn.Patient() && (Addressable(target) ==> conn.c.DigestOf(data) == target) ==> r.Ok?
  {
    if digest == target {
      var head := conn.Send(HeadManifest(digest));
      if head.NoReply? { return Err(ManifestUpload); }
      if head.answer.status == 200 { return Ok(Skipped(outcome, digest)); }
    }
    var _ :- PutManifestBytes(conn, target, data);
    r := Ok(Pushed(outcome, digest, |data|));
  }

  /** A referrer manifest, addressed by its own digest. */
  method PushReferrer(conn: Connection, digest: string, data: Bytes, outcome: PublishOutcome)
    returns (r: Result<PublishOutcome, PublishError>)
    requires Addressable(digest)
    modifies conn
    ensures TagsKept(conn, |old(conn.history)|, old(conn.site.store.tags)) && old(conn.history) <= conn.history
    ensures r.Ok? ==> r.value == Skipped(outcome, digest) || r.value == Pushed(outcome, digest, |data|)
    ensures conn.Honest() && r.Ok? && conn.c.DigestOf(data) == digest ==>
      var s := old(conn.site.store); conn.site.store == s.(manifests := Add(s.manifests, digest, data))
    ensures conn.Patient() && conn.c.DigestOf(data) == digest ==>
      r ==
        Ok(if digest in old(conn.site.store.manifests) then Skipped(outcome, digest)
           else Pushed(outcome, digest, |data|))
    ensures conn.Through(old(conn.clock)) && digest in old(conn.site.store.manifests) ==>
      r == Ok(Skipped(outcome, digest))
    ensures conn.BusyOnce(old(conn.clock)) && conn.c.DigestOf(data) == digest ==>
      r == Ok(Pushed(outcome, digest, |data|)) && conn.clock >= old(conn.clock) + MAX_RETRIES + 2
  {
    r := PushManifestWithSkip(conn, digest, digest, data, outcome);
  }

  /**
   * A referrer that is listed twice and that the registry has: when the server answers the
   * first HEAD with 5xx until the retries run out, the manifest is pushed although it is there,
   * and skipped the second time.
   */
  method PushListedTwice(conn: Connection, digest: string, data: Bytes, outcome: PublishOutcome)
    returns (r: Result<PublishOutcome, PublishError>)
    requires Addressable(digest) && conn.c.DigestOf(data) == digest && digest in conn.site.store.manifests
    requires conn.Refuses(conn.clock) && conn.PatientFrom(conn.clock + MAX_RETRIES + 1)
    requires conn.Honest()
    modifies conn
    ensures r == Ok(Skipped(Pushed(outcome, digest, |data|), digest)) && conn.site.store == old(conn.site.store)
  {
    var first := PushReferrer(conn, digest, data, outcome);
    r := PushReferrer(conn, digest, data, first.value);
  }

  // ── what there is to push ──

  predicate IsManifest(image: ImageDir, g: string) { g == image.primary.digest || g in Digests(image.referrers) }

  /** The layers and configs among the first `k` referenced blobs. */
  function ContentList(image: ImageDir, k: nat): seq<string>
    requires k <= |image.referenced|
  {
    if k == 0 then []
    else
      var g := image.referenced[k - 1].digest;
      ContentList(image, k - 1) + (if IsManifest(image, g) then [] else [g])
  }

  function AllContent(image: ImageDir): seq<string> { ContentList(image, |image.referenced|) }

  function DigestList(ds: seq<Descriptor>): (r: seq<string>)
    ensures |r| == |ds| && forall i :: 0 <= i < |ds| ==> r[i] == ds[i].digest
  {
    seq(|ds|, i requires 0 <= i < |ds| => ds[i].digest)
  }

  function Referrers(image: ImageDir): seq<string> { DigestList(image.referrers) }

  /** Everything in the order it is pushed. */
  function PushOrder(image: ImageDir): seq<string> { AllContent(image) + Referrers(image) + [image.primary.digest] }

  function Sizes(data: Content, ds: seq<string>): nat
  {
    if ds == [] then 0 else Sizes(data, ds[..|ds| - 1]) + |data(ds[|ds| - 1])|
  }

  /** Every digest was either pushed or skipped, and the bytes are those of the pushed ones. */
  ghost predicate Accounts(data: Content, done: seq<string>, o: PublishOutcome)
  {
    multiset(o.pushed) + multiset(o.skipped) == multiset(done) && o.bytesUploaded == Sizes(data, o.pushed)
  }

  lemma AccountsStep(data: Content, done: seq<string>, o: PublishOutcome, g: string)
    requires Accounts(data, done, o)
    ensures Accounts(data, done + [g], Pushed(o, g, |data(g)|)) && Accounts(data, done + [g], Skipped(o, g))
  {
    assert (o.pushed + [g])[..|o.pushed|] == o.pushed;
  }

  function AddAll(m: map<string, Bytes>, data: Content, ds: seq<string>): (r: map<string, Bytes>)
    ensures r.Keys == m.Keys + set g <- ds
  {
    if ds == [] then m
    else
      var n := |ds| - 1;
      assert ds == ds[..n] + [ds[n]];
      Add(AddAll(m, data, ds[..n]), ds[n], data(ds[n]))
  }

  lemma AddAllStep(m: map<string, Bytes>, data: Content, ds: seq<string>, g: string)
    ensures AddAll(m, data, ds + [g]) == Add(AddAll(m, data, ds), g, data(g))
  {
    assert (ds + [g])[..|ds|] == ds;
  }

  /** The outcome where `has` is there and every request gets through: skip what is there or was just pushed. */
  function Tally(data: Content, has: set<string>, ds: seq<string>, o: PublishOutcome): PublishOutcome
  {
    if ds == [] then o
    else
      var n := |ds| - 1;
      var before := Tally(data, has, ds[..n], o);
      if ds[n] in has || ds[n] in ds[..n] then Skipped(before, ds[n]) else Pushed(before, ds[n], |data(ds[n])|)
  }

  lemma TallyStep(data: Content, has: set<string>, ds: seq<string>, g: string, o: PublishOutcome)
    ensures Tally(data, has, ds + [g], o) ==
      var before := Tally(data, has, ds, o);
      if g in has || g in ds then Skipped(before, g) else Pushed(before, g, |data(g)|)
  {
    assert (ds + [g])[..|ds|] == ds;
  }

  /** The data of these digests hashes to them. */
  ghost predicate Sound(c: Codec, data: Content, ds: seq<string>)
  {
    forall g {:trigger data(g)} :: g in ds ==> c.DigestOf(data(g)) == g
  }

  /** Digests that name files, as a validated layout's do. */
  ghost predicate Named(image: ImageDir)
  {
    Addressable(image.primary.digest) && forall i {:trigger image.referrers[i].digest} :: 0 <= i < |image.referrers| ==>
      Addressable(image.referrers[i].digest)
  }

  // ── the three steps ──

  /** The registry and the outcome after these blobs. */
  ghost predicate ContentSoFar(conn: Connection, s: Store, data: Content, done: seq<string>, o: PublishOutcome,
      sound: bool)
    reads conn
  {
    && Accounts(data, done, o)
    && (conn.Honest() ==> conn.site.store == s.(blobs := AddAll(s.blobs, data, done)))
    && (conn.Patient() && sound ==> o == Tally(data, s.blobs.Keys, done, EMPTY_OUTCOME))
  }

  method PushOneContent(conn: Connection, g: string, data: Content, outcome: PublishOutcome, ghost s: Store,
      ghost done: seq<string>, ghost sound: bool)
    returns (r: Result<PublishOutcome, PublishError>)
    requires ContentSoFar(conn, s, data, done, outcome, sound) && (sound ==> conn.c.DigestOf(data(g)) == g)
    modifies conn
    ensures TagsKept(conn, |old(conn.history)|, old(conn.site.store.tags)) && old(conn.history) <= conn.history
    ensures r.Ok? ==> ContentSoFar(conn, s, data, done + [g], r.value, sound)
    ensures conn.Patient() && sound ==> r.Ok?
  {
    if conn.Patient() { conn.PatientIsHonest(); }
    AccountsStep(data, done, outcome, g);
    AddAllStep(s.blobs, data, done, g);
    TallyStep(data, s.blobs.Keys, done, g, EMPTY_OUTCOME);
    r := PushBlobWithSkip(conn, g, data(g), outcome);
  }

  /** These are the blobs to push among the first `i`. */
  predicate UpTo(image: ImageDir, i: nat, done: seq<string>)
  {
    i <= |image.referenced| && done == ContentList(image, i)
  }

  /** The blobs to push among the first `i` were pushed, and no tag was touched since `past`. */
  ghost predicate PushedUpTo(conn: Connection, past: seq<Store>, s: Store, image: ImageDir, data: Content, i: nat,
      o: PublishOutcome, sound: bool)
    reads conn
  {
    forall done {:trigger UpTo(image, i, done)} :: UpTo(image, i, done) ==>
      TagsKept(conn, |past|, s.tags) && past <= conn.history && ContentSoFar(conn, s, data, done, o, sound)
  }

  /** Step 1: every blob that is no manifest. */
  method PushContent(conn: Connection, image: ImageDir, data: Content, ghost sound: bool)
    returns (r: Result<PublishOutcome, PublishError>)
    requires sound ==> Sound(conn.c, data, AllContent(image))
    modifies conn
    ensures TagsKept(conn, |old(conn.history)|, old(conn.site.store.tags)) && old(conn.history) <= conn.history
    ensures r.Ok? ==> ContentSoFar(conn, old(conn.site.store), data, AllContent(image), r.value, sound)
    ensures conn.Patient() && sound ==> r.Ok?
  {
    r := PushBlobs(conn, image, data, sound);
    if r.Ok? { assert UpTo(image, |image.referenced|, AllContent(image)); }
  }

  /** The loop over the referenced blobs. */
  method PushBlobs(conn: Connection, image: ImageDir, data: Content, ghost sound: bool)
    returns (r: Result<PublishOutcome, PublishError>)
    requires sound ==> Sound(conn.c, data, AllContent(image))
    modifies conn
    ensures r.Ok? ==>
      PushedUpTo(conn, old(conn.history), old(conn.site.store), image, data, |image.referenced|, r.value, sound)
    ensures r.Err? ==> TagsKept(conn, |old(conn.history)|, old(conn.site.store.tags))
    ensures r.Err? ==> old(conn.history) <= conn.history
    ensures conn.Patient() && sound ==> r.Ok?
  {
    var outcome := EMPTY_OUTCOME;
    ghost var past, s := conn.history, conn.site.store;
    NothingPushed(conn, image, data, sound);
    for i := 0 to |image.referenced|
      invariant PushedUpTo(conn, past, s, image, data, i, outcome, sound)
    {
      outcome :- PushUnlessManifest(conn, image, i, data, outcome, past, s, sound);
    }
    r := Ok(outcome);
  }

  lemma NothingPushed(conn: Connection, image: ImageDir, data: Content, sound: bool)
    ensures PushedUpTo(conn, conn.history, conn.site.store, image, data, 0, EMPTY_OUTCOME, sound)
  {
  }

  /** A referenced blob, unless it is one of the manifests. */
  method PushUnlessManifest(conn: Connection, image: ImageDir, i: nat, data: Content, outcome: PublishOutcome,
      ghost past: seq<Store>, ghost s: Store, ghost sound: bool)
    returns (r: Result<PublishOutcome, PublishError>)
    requires i < |image.referenced| && PushedUpTo(conn, past, s, image, data, i, outcome, sound)
    requires sound ==> Sound(conn.c, data, AllContent(image))
    modifies conn
    ensures r.Ok? ==> PushedUpTo(conn, past, s, image, data, i + 1, r.value, sound)
    ensures r.Err? ==> TagsKept(conn, |past|, s.tags) && past <= conn.history
    ensures conn.Patient() && sound ==> r.Ok?
  {
    var g := image.referenced[i].digest;
    ghost var done := ContentList(image, i);
    assert UpTo(image, i, done);
    ContentStep(image, i);
    if IsManifest(image, g) { return Ok(outcome); }
    assert sound ==> conn.c.DigestOf(data(g)) == g;
    r := PushOneContent(conn, g, data, outcome, s, done, sound);
  }

  lemma ContentStep(image: ImageDir, i: nat)
    requires i < |image.referenced|
    ensures var g := image.referenced[i].digest;
      && ContentList(image, i + 1) ==
        (if IsManifest(image, g) then ContentList(image, i) else ContentList(image, i) + [g])
      && (!IsManifest(image, g) ==> g in AllContent(image))
  {
    ContentPrefix(image, i + 1);
  }

  lemma {:induction false} ContentPrefix(image: ImageDir, k: nat)
    requires k <= |image.referenced|
    ensures forall g <- ContentList(image, k) :: g in AllContent(image)
    decreases |image.referenced| - k
  {
    if k < |image.referenced| {
      ContentPrefix(image, k + 1);
      forall g | g in ContentList(image, k) ensures g in ContentList(image, k + 1) { }
    }
  }

  /** The registry and the outcome after these referrers. */
  ghost predicate ReferrersSoFar(conn: Connection, s: Store, data: Content, before: seq<string>, from: PublishOutcome,
      done: seq<string>, o: PublishOutcome, sound: bool)
    reads conn
  {
    && Accounts(data, before + done, o)
    && (conn.Honest() && sound ==> conn.site.store == s.(manifests := AddAll(s.manifests, data, done)))
    && (conn.Patient() && sound ==> o == Tally(data, s.manifests.Keys, done, from))
  }

  method PushOneReferrer(conn: Connection, g: string, data: Content, outcome: PublishOutcome,
      ghost s: Store, ghost before: seq<string>, ghost from: PublishOutcome, ghost done: seq<string>, ghost sound: bool)
    returns (r: Result<PublishOutcome, PublishError>)
    requires ReferrersSoFar(conn, s, data, before, from, done, outcome, sound)
    requires Addressable(g) && (sound ==> conn.c.DigestOf(data(g)) == g)
    modifies conn
    ensures TagsKept(conn, |old(conn.history)|, old(conn.site.store.tags)) && old(conn.history) <= conn.history
    ensures r.Ok? ==> ReferrersSoFar(conn, s, data, before, from, done + [g], r.value, sound)
    ensures conn.Patient() && sound ==> r.Ok?
  {
    assert before + (done + [g]) == before + done + [g];
    if conn.Patient() { conn.PatientIsHonest(); }
    r := PushReferrer(conn, g, data(g), outcome);
    AccountsStep(data, before + done, outcome, g);
    AddAllStep(s.manifests, data, done, g);
    if conn.Patient() && sound { TallyStep(data, s.manifests.Keys, done, g, from); }
  }

  /** Step 2: the referrer manifests. */
  method PushReferrers(conn: Connection, image: ImageDir, data: Content, outcome: PublishOutcome,
      ghost before: seq<string>)
    returns (r: Result<PublishOutcome, PublishError>)
    requires Accounts(data, before, outcome) && Named(image)
    modifies conn
    ensures TagsKept(conn, |old(conn.history)|, old(conn.site.store.tags)) && old(conn.history) <= conn.history
    ensures r.Ok? ==>
      ReferrersSoFar(conn, old(conn.site.store), data, before, outcome, Referrers(image), r.value,
        Sound(conn.c, data, Referrers(image)))
    ensures conn.Patient() && Sound(conn.c, data, Referrers(image)) ==> r.Ok?
  {
    var now := outcome;
    ghost var s, refs := conn.site.store, Referrers(image);
    ghost var sound := Sound(conn.c, data, refs);
    assert before + refs[..0] == before;
    for i := 0 to |image.referrers|
      invariant TagsKept(conn, |old(conn.history)|, s.tags) && old(conn.history) <= conn.history
      invariant ReferrersSoFar(conn, s, data, before, outcome, refs[..i], now, sound)
    {
      var g := image.referrers[i].digest;
      assert refs[i] == g && g in refs;
      assert sound ==> conn.c.DigestOf(data(g)) == g;
      assert refs[..i + 1] == refs[..i] + [g];
      now :- PushOneReferrer(conn, g, data, now, s, before, outcome, refs[..i], sound);
    }
    assert refs[..|refs|] == refs;
    r := Ok(now);
  }

  // ── the commit ──

  /** Everything but the primary manifest is in the registry. */
  ghost predicate ContentThere(image: ImageDir, s: Store)
  {
    (forall g <- AllContent(image) :: g in s.blobs) && (forall g <- Referrers(image) :: g in s.manifests)
  }

  /** The tag is as it was, or it names the primary and all its content and referrers are there. */
  ghost predicate Committed(image: ImageDir, tag: string, before: Store, s: Store)
  {
    || s.tags == before.tags
    || (s.tags == before.tags[tag := image.primary.digest] && image.primary.digest in s.manifests
      && ContentThere(image, s))
  }

  /** What a registry holds after a publication. */
  function PublishedStore(image: ImageDir, data: Content, s: Store, tag: string): Store
  {
    Store(
      AddAll(s.blobs, data, AllContent(image)),
      AddAll(s.manifests, data, Referrers(image) + [image.primary.digest]),
      s.tags[tag := image.primary.digest])
  }

  /** What a publication to a registry that lets every request through reports. */
  function PublishedOutcome(image: ImageDir, data: Content, s: Store): PublishOutcome
  {
    var content := Tally(data, s.blobs.Keys, AllContent(image), EMPTY_OUTCOME);
    var p := image.primary.digest;
    Pushed(Tally(data, s.manifests.Keys, Referrers(image), content), p, |data(p)|)
  }

  /** Step 3: the tag. */
  method PushPrimary(conn: Connection, image: ImageDir, data: Content, tag: string, outcome: PublishOutcome,
      ghost done: seq<string>)
    returns (r: Result<PublishOutcome, PublishError>)
    requires Accounts(data, done, outcome)
    modifies conn
    ensures old(conn.history) <= conn.history
    ensures r.Ok? ==> Accounts(data, done + [image.primary.digest], r.value)
    ensures r.Ok? && tag != image.primary.digest ==>
      r.value == Pushed(outcome, image.primary.digest, |data(image.primary.digest)|)
    ensures Sound(conn.c, data, [image.primary.digest]) && ContentThere(image, old(conn.site.store)) ==>
      forall i :: |old(conn.history)| <= i < |conn.history| ==>
        Committed(image, tag, old(conn.site.store), conn.history[i])
    ensures conn.Honest() && r.Ok? && !Addressable(tag) && tag != image.primary.digest ==>
      Sound(conn.c, data, [image.primary.digest]) ==>
      var s, p := old(conn.site.store), image.primary.digest;
      conn.site.store == s.(manifests := Add(s.manifests, p, data(p)), tags := s.tags[tag := p])
    ensures conn.Patient() && !Addressable(tag) ==> r.Ok?
  {
    var p := image.primary.digest;
    AccountsStep(data, done, outcome, p);
    assert Sound(conn.c, data, [p]) ==> conn.c.DigestOf(data(p)) == p by { assert p in [p]; }
    r := PushManifestWithSkip(conn, p, tag, data(p), outcome);
  }

  /** Steps 1 and 2. */
  method PushAllButPrimary(conn: Connection, image: ImageDir, data: Content)
    returns (r: Result<PublishOutcome, PublishError>)
    requires Named(image)
    modifies conn
    ensures TagsKept(conn, |old(conn.history)|, old(conn.site.store.tags)) && old(conn.history) <= conn.history
    ensures r.Ok? ==> Accounts(data, AllContent(image) + Referrers(image), r.value)
    ensures conn.Honest() && r.Ok? && Sound(conn.c, data, PushOrder(image)) ==>
      ContentThere(image, conn.site.store) && AddsUp(image, data, old(conn.site.store), conn.site.store)
    ensures conn.Patient() && Sound(conn.c, data, PushOrder(image)) ==>
      var s := old(conn.site.store);
      r ==
        Ok(Tally(data, s.manifests.Keys, Referrers(image), Tally(data, s.blobs.Keys, AllContent(image), EMPTY_OUTCOME)))
  {
    ghost var content, refs := AllContent(image), Referrers(image);
    if conn.Patient() { conn.PatientIsHonest(); }
    assert Sound(conn.c, data, PushOrder(image)) ==> Sound(conn.c, data, content) && Sound(conn.c, data, refs);
    var outcome :- PushContent(conn, image, data, Sound(conn.c, data, content));
    r := PushReferrers(conn, image, data, outcome, content);
  }

  /**
   * `publish_registry`. Whatever is replied, a success accounts for every digest once. An
   * honest registry's tag changes only in a state that has the whole image; one that lets every request through
   * accepts any sound image and ends with exactly the old content and the image.
   */
  method PublishRegistry(conn: Connection, image: ImageDir, data: Content, tag: string)
    returns (r: Result<PublishOutcome, PublishError>)
    requires Named(image)
    modifies conn
    ensures r.Ok? ==> Accounts(data, PushOrder(image), r.value)
    ensures r.Ok? && tag != image.primary.digest ==>
      r.value.pushed != [] && r.value.pushed[|r.value.pushed| - 1] == image.primary.digest
    ensures conn.Honest() && Sound(conn.c, data, PushOrder(image)) ==>
      forall i :: |old(conn.history)| <= i < |conn.history| ==>
        Committed(image, tag, old(conn.site.store), conn.history[i])
    ensures conn.Honest() && Sound(conn.c, data, PushOrder(image)) && r.Ok? && !Addressable(tag) ==>
      conn.site.store == PublishedStore(image, data, old(conn.site.store), tag)
    ensures conn.Patient() && Sound(conn.c, data, PushOrder(image)) && !Addressable(tag) ==>
      r == Ok(PublishedOutcome(image, data, old(conn.site.store)))
  {
    ghost var s, mark, p := conn.site.store, |conn.history|, image.primary.digest;
    ghost var sound := Sound(conn.c, data, PushOrder(image));
    assert sound ==> Sound(conn.c, data, [p]) by { assert p in PushOrder(image); }
    var outcome := PushAllButPrimary(conn, image, data);
    if outcome.Err? { return outcome; }
    ghost var s2, mid := conn.site.store, |conn.history|;
    r := PushPrimary(conn, image, data, tag, outcome.value, AllContent(image) + Referrers(image));
    if conn.Honest() && sound {
      forall i | mid <= i < |conn.history| ensures Committed(image, tag, s, conn.history[i]) {
        CommittedFrom(image, tag, s, s2, conn.history[i]);
      }
      if r.Ok? && !Addressable(tag) { StoreComplete(image, data, s, s2, conn.site.store, tag); }
    }
  }

  lemma CommittedFrom(image: ImageDir, tag: string, s: Store, s2: Store, x: Store)
    requires s2.tags == s.tags && Committed(image, tag, s2, x)
    ensures Committed(image, tag, s, x)
  {
  }

  lemma StoreComplete(image: ImageDir, data: Content, s: Store, s2: Store, s3: Store, tag: string)
    requires AddsUp(image, data, s, s2)
    requires var p := image.primary.digest;
      s3 == s2.(manifests := Add(s2.manifests, p, data(p)), tags := s2.tags[tag := p])
    ensures s3 == PublishedStore(image, data, s, tag)
  {
    AddAllStep(s.manifests, data, Referrers(image), image.primary.digest);
  }

  ghost predicate AddsUp(image: ImageDir, data: Content, s: Store, s2: Store)
  {
    && s2.blobs == AddAll(s.blobs, data, AllContent(image))
      && s2.manifests == AddAll(s.manifests, data, Referrers(image))
    && s2.tags == s.tags
  }
}
