/**
 * `execute_pull`: a layout rebuilt from arbitrary responses. Every state the directory goes
 * through keeps the store content-correct, and the index is replaced last.
 */
module Pull {
  import opened Wrappers
  import opened Json
  import opened Oci
  import opened ImageDirs
  import opened FileSystems
  import opened Staging
  import opened Wire
  import opened RefParser

  datatype PullError =
    | NotADirectory
    | Io
    | Unauthorized
    | Unreachable
    | Refused(status: nat)
    | DigestMismatch(expected: string, got: string)
    | BadDescriptor(defect: DigestDefect)
    | MalformedManifest
    | ReferrersNotSupported
    | Panicked

  // ── the registry a pull may rely on ──

  /** A registry that delivers the same response to every GET of a target, and its blobs. */
  datatype Upstream = Upstream(serve: Target -> Response, ready: Session -> bool, store: string -> Bytes)

  /** Calls made from a ready session bring the served response, whatever retries it takes. */
  ghost predicate Delivers(srv: Server, up: Upstream)
  {
    forall t, s {:trigger Call(srv, t, s)} :: up.ready(s) ==>
      Call(srv, t, s).0 == Resp(up.serve(t)) && up.ready(Call(srv, t, s).1)
  }

  /** Every manifest and blob body served is the stored one. */
  ghost predicate Faithful(c: Codec, up: Upstream)
  {
    forall t: Target :: !t.ReferrersAt? && Success(up.serve(t).status) ==>
      up.serve(t).body.data == up.store(c.hash(up.serve(t).body.data))
  }

  /** The session is fit for the next call. */
  ghost predicate Backed(c: Codec, b: Base, up: Option<Upstream>, client: Client, fs: Fs)
    reads client
  {
    && (b.store == if up.Some? then Some(up.value.store) else None)
    && (up.Some? ==>
      Delivers(client.server, up.value) && Faithful(c, up.value) && fs.Reliable() && up.value.ready(client.Now()))
  }

  /** At most one token was fetched so far, if the registry honours its tokens. */
  ghost predicate Thrifty(client: Client, alive: bool)
    reads client
  {
    FaultFree(client.server) && Honours(client.server) ==>
      client.Now().tokens <= 1 && (alive ==> AtMostOne(client.server, client.Now()))
  }

  // ── requests ──

  method Get(c: Codec, client: Client, fs: Fs, target: Target, ghost b: Base, ghost up: Option<Upstream>)
    returns (r: Result<Response, PullError>)
    requires Backed(c, b, up, client, fs) && Thrifty(client, true)
    modifies client
    ensures Backed(c, b, up, client, fs) && Thrifty(client, r.Ok?)
    ensures up.Some? ==> r == Ok(up.value.serve(target))
  {
    ghost var s := client.Now();
    if FaultFree(client.server) && Honours(client.server) { HonouredCall(client.server, target, s); }
    var out := client.SendWithRetry(target);
    match out {
      case Resp(resp) => r := Ok(resp);
      case Failed(Transport) => r := Err(Unreachable);
      case Failed(_) => r := Err(Unauthorized);
      case Panic => r := Err(Panicked);
    }
  }

  /** A response whose body is the manifest it claims to be. */
  predicate ManifestServed(c: Codec, resp: Response)
  {
    Success(resp.status) && !resp.body.broken
      && (resp.digest == None || resp.digest == Some(c.DigestOf(resp.body.data)))
  }

  /** What `fetch_manifest` makes of a response. */
  function ReadManifest(c: Codec, resp: Response): (r: Result<(Bytes, string), PullError>)
    ensures r.Ok? <==> ManifestServed(c, resp)
    ensures r.Ok? ==> r.value == (resp.body.data, c.DigestOf(resp.body.data))
  {
    var data := resp.body.data;
    if !Success(resp.status) then Err(Refused(resp.status))
    else if resp.body.broken then Err(Unreachable)
    else if resp.digest.Some? && resp.digest.value != c.DigestOf(data) then
      Err(PullError.DigestMismatch(resp.digest.value, c.DigestOf(data)))
    else Ok((data, c.DigestOf(data)))
  }

  method FetchManifest(c: Codec, client: Client, fs: Fs, reference: string, ghost b: Base, ghost up: Option<Upstream>)
    returns (r: Result<(Bytes, string), PullError>)
    requires Backed(c, b, up, client, fs) && Thrifty(client, true)
    modifies client
    ensures Backed(c, b, up, client, fs) && Thrifty(client, r.Ok?)
    ensures r.Ok? ==> r.value.1 == c.DigestOf(r.value.0)
    ensures up.Some? ==> r == ReadManifest(c, up.value.serve(ManifestAt(reference)))
    ensures up.Some? ==>
      var resp := up.value.serve(ManifestAt(reference));
      && (r.Ok? <==>
            && 200 <= resp.status < 300 && !resp.body.broken
            && (resp.digest.Some? ==> resp.digest.value == c.DigestOf(resp.body.data)))
      && (r.Ok? ==> r.value.0 == resp.body.data)
    ensures up.Some? && r.Ok? ==> r.value.0 == up.value.store(c.hash(r.value.0))
  {
    var resp :- Get(c, client, fs, ManifestAt(reference), b, up);
    r := ReadManifest(c, resp);
  }

  /** What `fetch_referrers` makes of a response. */
  function ReadReferrers(c: Codec, resp: Response, required: bool): (r: Result<seq<Descriptor>, PullError>)
    ensures r.Ok? ==> forall d <- r.value :: Fits(d)
  {
    if resp.status == 404 then (if required then Err(ReferrersNotSupported) else Ok([]))
    else if !Success(resp.status) then Err(Refused(resp.status))
    else if resp.body.broken then Err(Unreachable)
    else
      var ds := ParseIndex(c, resp.body.data);
      if ds.None? then Err(MalformedManifest)
      else
        DecodedFits(c.parse(resp.body.data).value);
        Ok(ds.value)
  }

  method FetchReferrers(c: Codec, client: Client, fs: Fs, digest: string, required: bool, ghost b: Base,
      ghost up: Option<Upstream>)
    returns (r: Result<seq<Descriptor>, PullError>)
    requires Backed(c, b, up, client, fs) && Thrifty(client, true)
    modifies client
    ensures Backed(c, b, up, client, fs) && Thrifty(client, r.Ok?)
    ensures r.Ok? ==> forall d <- r.value :: Fits(d)
    ensures up.Some? ==> r == ReadReferrers(c, up.value.serve(ReferrersAt(digest)), required)
  {
    var resp :- Get(c, client, fs, ReferrersAt(digest), b, up);
    r := ReadReferrers(c, resp, required);
  }

  // ── blobs ──

  function PartialOf(hex: string): Path { Blob(hex + ".partial") }

  /** The streaming loop: bytes go to the temporary file and the hasher until the body ends. */
  method StreamBody(c: Codec, fs: Fs, q: Path, body: Body, ghost b: Base) returns (r: Result<Bytes, PullError>)
    requires Safe(c, b, fs) && Scratch(b, q) && q != LAYOUT_FILE && q in fs.files && fs.files[q] == []
    modifies fs
    ensures Safe(c, b, fs) && Onward(old(fs.files), fs.files)
    ensures fs.files - {q} == old(fs.files) - {q} || r.Err?
    ensures r.Ok? ==> r.value == body.data && q in fs.files && fs.files[q] == body.data
    ensures r.Ok? ==> !body.broken
    ensures r.Err? && fs.Reliable() ==> q !in fs.files
    ensures fs.Reliable() && !body.broken ==> r.Ok?
  {
    var hashed: Bytes := [];
    while |hashed| < |body.data|
      invariant |hashed| <= |body.data| && hashed == body.data[..|hashed|]
      invariant Safe(c, b, fs) && Onward(old(fs.files), fs.files)
      invariant fs.files - {q} == old(fs.files) - {q}
      invariant q in fs.files && fs.files[q] == hashed
    {
      var n := ChunkSize(fs.sizes(fs.clock), |body.data| - |hashed|);
      var chunk := body.data[|hashed|..|hashed| + n];
      hashed := hashed + chunk;
      var ok := AppendScratch(c, fs, q, chunk, b);
      if !ok {
        RemoveScratch(c, fs, q, b);
        return Err(Io);
      }
    }
    if body.broken {
      RemoveScratch(c, fs, q, b);
      return Err(Unreachable);
    }
    r := Ok(hashed);
  }

  /** A response that brings the blob it was asked for. */
  predicate BlobServed(c: Codec, resp: Response, digest: string)
  {
    Success(resp.status) && !resp.body.broken && c.DigestOf(resp.body.data) == digest
  }

  /** The file a digest names, or the error `blob_path_for_digest` reports. */
  function BlobFile(digest: string): (r: Result<string, PullError>)
    ensures r.Ok? <==> Addressable(digest)
    ensures r.Ok? ==> IsHex64(r.value) && digest == DigestText(r.value) && HexOf(digest) == Ok(r.value)
  {
    var h := HexOf(digest);
    if h.Err? then Err(BadDescriptor(h.error)) else Ok(h.value)
  }

  // ── what can be obtained ──

  predicate BlobOffered(c: Codec, up: Upstream, g: string) { Addressable(g) && BlobServed(c, up.serve(BlobAt(g)), g) }

  /** A blob that was there before the pull, or that the registry serves. */
  predicate Available(c: Codec, up: Upstream, b: Base, g: string) { Present(b.files, g) || BlobOffered(c, up, g) }

  ghost predicate AllPresent(f: Files, gs: set<string>)
  {
    forall g {:trigger Present(f, g)} :: g in gs ==> Present(f, g)
  }

  /** The digests `here` are there, and every other blob is available. */
  ghost predicate Reached(c: Codec, b: Base, up: Option<Upstream>, f: Files, here: set<string>)
  {
    && AllPresent(f, here)
    && (up.Some? ==> forall g {:trigger Present(f, g)} :: Present(f, g) ==> g in here || Available(c, up.value, b, g))
  }

  /** No blob but `g` has been added. */
  ghost predicate AddsOnly(f: Files, f': Files, g: string)
  {
    forall x {:trigger Present(f', x)} :: Present(f', x) ==> Present(f, x) || x == g
  }

  lemma ReachedMore(c: Codec, b: Base, up: Option<Upstream>, f: Files, f': Files, here: set<string>, g: string)
    requires Reached(c, b, up, f, here) && BlobsGrow(f, f') && AddsOnly(f, f', g) && Present(f', g)
    ensures Reached(c, b, up, f', here + {g})
  {
    forall x | x in here ensures Present(f', x) { assert Present(f, x); }
  }

  lemma MovedAdds(q: Path, hex: string, f: Files, f': Files)
    requires !(q.Blob? && IsHex64(q.name)) && Apart({q, Blob(hex)}, f, f')
    ensures AddsOnly(f, f', DigestText(hex))
  {
    forall x | Present(f', x) ensures Present(f, x) || x == DigestText(hex) {
      var h := HexOf(x).value;
      assert h != hex ==> Blob(h) !in {q, Blob(hex)};
    }
  }

  /** The half of `pull_blob_streamed` after the response has arrived. */
  method SaveBody(c: Codec, fs: Fs, hex: string, body: Body, ghost b: Base) returns (r: Result<(), PullError>)
    requires Safe(c, b, fs) && IsHex64(hex) && Blob(hex) !in fs.files
    requires b.store.Some? ==> fs.Reliable() && body.data == b.store.value(c.hash(body.data))
    modifies fs
    ensures Safe(c, b, fs) && Onward(old(fs.files), fs.files)
    ensures r.Ok? ==> Blob(hex) in fs.files && AddsOnly(old(fs.files), fs.files, DigestText(hex))
    ensures r.Err? && fs.Reliable() ==> PartialOf(hex) !in fs.files
    ensures fs.Reliable() ==> (r.Ok? <==> !body.broken && c.hash(body.data) == hex)
  {
    var q := PartialOf(hex);
    assert |q.name| != 64;
    ghost var f := fs.files;
    var ok := CreateScratch(c, fs, q, b);
    if !ok { return Err(Io); }
    var data :- StreamBody(c, fs, q, body, b);
    MinusApart(q, f, fs.files);
    ok := fs.Tick();
    if !ok { return Err(Io); }
    if DigestText(c.hash(data)) != DigestText(hex) {
      RemoveScratch(c, fs, q, b);
      return Err(PullError.DigestMismatch(DigestText(hex), c.DigestOf(data)));
    }
    assert c.hash(data) == DigestText(c.hash(data))[7..];
    assert Blob(hex) !in fs.files by { assert Blob(hex) !in fs.files - {q}; }
    ok := Commit(c, fs, q, hex, data, b);
    if !ok { return Err(Io); }
    MovedAdds(q, hex, f, fs.files);
    r := Ok(());
  }

  /** `pull_blob_streamed`. It succeeds exactly when the blob is there or the registry serves it. */
  method PullBlobStreamed(c: Codec, client: Client, fs: Fs, digest: string, ghost b: Base, ghost up: Option<Upstream>)
    returns (r: Result<(), PullError>)
    requires Safe(c, b, fs) && Backed(c, b, up, client, fs) && Thrifty(client, true)
    modifies client, fs
    ensures Safe(c, b, fs) && Backed(c, b, up, client, fs) && Thrifty(client, r.Ok?)
    ensures Onward(old(fs.files), fs.files)
    ensures r.Ok? ==> Present(fs.files, digest) && AddsOnly(old(fs.files), fs.files, digest)
    ensures up.Some? ==> (r.Ok? <==> Present(old(fs.files), digest) || BlobOffered(c, up.value, digest))
    ensures up.Some? && r.Ok? && !Present(old(fs.files), digest) ==>
      var resp := up.value.serve(BlobAt(digest));
      200 <= resp.status < 300 && !resp.body.broken && c.DigestOf(resp.body.data) == digest
  {
    var hex :- BlobFile(digest);
    if Blob(hex) in fs.files { return Ok(()); }
    var resp :- Get(c, client, fs, BlobAt(digest), b, up);
    if !Success(resp.status) { return Err(Refused(resp.status)); }
    r := SaveBody(c, fs, hex, resp.body, b);
    assert c.DigestOf(resp.body.data)[7..] == c.hash(resp.body.data) && digest[7..] == hex;
  }

  method WriteBlobAtomically(c: Codec, fs: Fs, digest: string, data: Bytes, ghost b: Base)
    returns (r: Result<(), PullError>)
    requires Safe(c, b, fs)
    requires b.store.Some? ==> fs.Reliable() && data == b.store.value(c.hash(data))
    modifies fs
    ensures Safe(c, b, fs) && Onward(old(fs.files), fs.files)
    ensures r.Ok? ==> Present(fs.files, digest) && AddsOnly(old(fs.files), fs.files, digest)
    ensures fs.Reliable() && c.DigestOf(data) == digest ==> (r.Ok? <==> Addressable(digest))
  {
    var hex :- BlobFile(digest);
    if Blob(hex) in fs.files { return Ok(()); }
    if c.DigestOf(data) != digest { return Err(PullError.DigestMismatch(digest, c.DigestOf(data))); }
    assert c.hash(data) == DigestText(c.hash(data))[7..] && hex == digest[7..];
    var q := PartialOf(hex);
    assert |q.name| != 64;
    ghost var f := fs.files;
    var ok := WriteScratch(c, fs, q, data, b);
    if !ok { return Err(Io); }
    MinusApart(q, f, fs.files);
    assert Blob(hex) !in fs.files by { assert Blob(hex) !in fs.files - {q}; }
    ok := Commit(c, fs, q, hex, data, b);
    if !ok { return Err(Io); }
    MovedAdds(q, hex, f, fs.files);
    r := Ok(());
  }

  // ── manifests and their children ──

  function ChildrenOf(m: (Descriptor, seq<Descriptor>)): set<string> { Digests(m.1) + {m.0.digest} }

  /** The config and layers a manifest's bytes name. */
  function WireChildren(c: Codec, data: Bytes): set<string>
  {
    var m := ParseWireManifest(c, data);
    if m.Some? then ChildrenOf(m.value) else {}
  }

  ghost predicate BlobsOffered(c: Codec, up: Upstream, gs: set<string>)
  {
    forall g {:trigger BlobOffered(c, up, g)} :: g in gs ==> BlobOffered(c, up, g)
  }

  /** The registry offers this manifest and everything it names. */
  ghost predicate Offered(c: Codec, up: Upstream, reference: string, digest: string)
  {
    && ManifestOffered(c, up, reference, digest)
    && BlobsOffered(c, up, WireChildren(c, up.serve(ManifestAt(reference)).body.data))
  }

  /** The registry serves this manifest. */
  predicate ManifestOffered(c: Codec, up: Upstream, reference: string, digest: string)
  {
    var resp := up.serve(ManifestAt(reference));
    && ManifestServed(c, resp) && c.DigestOf(resp.body.data) == digest && Addressable(digest)
    && ParseWireManifest(c, resp.body.data).Some?
  }

  /** A pull that has reached `here` can get this blob. */
  predicate CanGet(c: Codec, b: Base, up: Upstream, here: set<string>, g: string)
  {
    g in here || Available(c, up, b, g)
  }

  ghost predicate CanGetAll(c: Codec, b: Base, up: Upstream, here: set<string>, gs: set<string>)
  {
    forall g {:trigger CanGet(c, b, up, here, g)} :: g in gs ==> CanGet(c, b, up, here, g)
  }

  /** What was got already changes nothing for what can be got. */
  lemma GetStep(c: Codec, b: Base, up: Upstream, here: set<string>, got: set<string>, g: string)
    requires CanGetAll(c, b, up, here, got)
    ensures CanGet(c, b, up, here + got, g) <==> CanGet(c, b, up, here, g)
    ensures CanGetAll(c, b, up, here, got + {g}) <==> CanGet(c, b, up, here, g)
  {
    assert CanGetAll(c, b, up, here, got + {g}) ==> CanGet(c, b, up, here, g) by { assert g in got + {g}; }
    if g in got { assert CanGet(c, b, up, here, g); }
  }

  lemma DigestsStep(ds: seq<Descriptor>, i: nat)
    requires i < |ds|
    ensures Digests(ds[..i + 1]) == Digests(ds[..i]) + {ds[i].digest} && ds[i].digest in Digests(ds)
  {
    assert ds[..i + 1] == ds[..i] + [ds[i]];
  }

  lemma PresentGrows(f: Files, f': Files, gs: set<string>)
    requires BlobsGrow(f, f') && AllPresent(f, gs)
    ensures AllPresent(f', gs)
  {
    forall g | g in gs ensures Present(f', g) { assert Present(f, g); }
  }

  /** One more blob beside those already there. */
  method PullOne(c: Codec, client: Client, fs: Fs, digest: string, ghost here: set<string>, ghost b: Base,
      ghost up: Option<Upstream>)
    returns (r: Result<(), PullError>)
    requires Safe(c, b, fs) && Backed(c, b, up, client, fs) && Thrifty(client, true)
    requires Reached(c, b, up, fs.files, here)
    modifies client, fs
    ensures Safe(c, b, fs) && Backed(c, b, up, client, fs) && Thrifty(client, r.Ok?)
    ensures Onward(old(fs.files), fs.files) && (r.Ok? ==> Reached(c, b, up, fs.files, here + {digest}))
    ensures up.Some? ==> (r.Ok? <==> CanGet(c, b, up.value, here, digest))
  {
    ghost var f := fs.files;
    assert Present(b.files, digest) ==> Present(f, digest);
    r := PullBlobStreamed(c, client, fs, digest, b, up);
    if r.Ok? { ReachedMore(c, b, up, f, fs.files, here, digest); }
  }

  /** The config and every layer of the primary manifest. */
  method PullContent(c: Codec, client: Client, fs: Fs, m: (Descriptor, seq<Descriptor>), ghost here: set<string>,
      ghost b: Base, ghost up: Option<Upstream>)
    returns (r: Result<(), PullError>)
    requires Safe(c, b, fs) && Backed(c, b, up, client, fs) && Thrifty(client, true)
    requires Reached(c, b, up, fs.files, here)
    modifies client, fs
    ensures Safe(c, b, fs) && Backed(c, b, up, client, fs) && Thrifty(client, r.Ok?)
    ensures Onward(old(fs.files), fs.files) && (r.Ok? ==> Reached(c, b, up, fs.files, here + ChildrenOf(m)))
    ensures up.Some? ==> (r.Ok? <==> CanGetAll(c, b, up.value, here, ChildrenOf(m)))
  {
    var (config, layers) := m;
    if up.Some? { GetStep(c, b, up.value, here, {}, config.digest); }
    r := PullOne(c, client, fs, config.digest, here, b, up);
    if r.Err? {
      if up.Some? { NotAll(c, b, up.value, here, ChildrenOf(m), config.digest); }
      return;
    }
    assert Digests(layers[..0]) + {config.digest} == {} + {config.digest};
    for i := 0 to |layers|
      invariant Safe(c, b, fs) && Backed(c, b, up, client, fs) && Thrifty(client, true)
      invariant Onward(old(fs.files), fs.files)
      invariant Reached(c, b, up, fs.files, here + (Digests(layers[..i]) + {config.digest}))
      invariant up.Some? ==> CanGetAll(c, b, up.value, here, Digests(layers[..i]) + {config.digest})
    {
      DigestsStep(layers, i);
      ghost var got := Digests(layers[..i]) + {config.digest};
      if up.Some? { GetStep(c, b, up.value, here, got, layers[i].digest); }
      r := PullOne(c, client, fs, layers[i].digest, here + got, b, up);
      if r.Err? {
        if up.Some? { NotAll(c, b, up.value, here, ChildrenOf(m), layers[i].digest); }
        return;
      }
      assert Digests(layers[..i + 1]) + {config.digest} == got + {layers[i].digest};
      assert here + (got + {layers[i].digest}) == here + got + {layers[i].digest};
    }
    assert layers[..|layers|] == layers;
    r := Ok(());
  }

  lemma NotAll(c: Codec, b: Base, up: Upstream, here: set<string>, gs: set<string>, g: string)
    requires g in gs && !CanGet(c, b, up, here, g)
    ensures !CanGetAll(c, b, up, here, gs)
  {
  }

  /** A blob of a referrer, unless it was seen before. */
  method PullUnseen(c: Codec, client: Client, fs: Fs, digest: string, seen: set<string>, ghost b: Base,
      ghost up: Option<Upstream>)
    returns (r: Result<set<string>, PullError>)
    requires Safe(c, b, fs) && Backed(c, b, up, client, fs) && Thrifty(client, true)
    requires Reached(c, b, up, fs.files, seen)
    modifies client, fs
    ensures Safe(c, b, fs) && Backed(c, b, up, client, fs) && Thrifty(client, r.Ok?)
    ensures Onward(old(fs.files), fs.files)
    ensures r.Ok? ==> r.value == seen + {digest} && Reached(c, b, up, fs.files, r.value)
    ensures up.Some? ==> (r.Ok? <==> CanGet(c, b, up.value, seen, digest))
  {
    if digest in seen {
      assert seen + {digest} == seen;
      return Ok(seen);
    }
    var _ :- PullOne(c, client, fs, digest, seen, b, up);
    r := Ok(seen + {digest});
  }

  /** The config and layers of a referrer. */
  method PullUnseenContent(c: Codec, client: Client, fs: Fs, m: (Descriptor, seq<Descriptor>), seen: set<string>,
      ghost b: Base, ghost up: Option<Upstream>)
    returns (r: Result<set<string>, PullError>)
    requires Safe(c, b, fs) && Backed(c, b, up, client, fs) && Thrifty(client, true)
    requires Reached(c, b, up, fs.files, seen)
    modifies client, fs
    ensures Safe(c, b, fs) && Backed(c, b, up, client, fs) && Thrifty(client, r.Ok?)
    ensures Onward(old(fs.files), fs.files)
    ensures r.Ok? ==> r.value == seen + ChildrenOf(m) && Reached(c, b, up, fs.files, r.value)
    ensures up.Some? ==> (r.Ok? <==> CanGetAll(c, b, up.value, seen, ChildrenOf(m)))
  {
    var (config, layers) := m;
    if up.Some? { GetStep(c, b, up.value, seen, {}, config.digest); }
    r := PullUnseen(c, client, fs, config.digest, seen, b, up);
    if r.Err? {
      if up.Some? { NotAll(c, b, up.value, seen, ChildrenOf(m), config.digest); }
      return;
    }
    assert Digests(layers[..0]) + {config.digest} == {} + {config.digest};
    for i := 0 to |layers|
      invariant Safe(c, b, fs) && Backed(c, b, up, client, fs) && Thrifty(client, true)
      invariant Onward(old(fs.files), fs.files)
      invariant r.Ok? && r.value == seen + (Digests(layers[..i]) + {config.digest})
      invariant Reached(c, b, up, fs.files, r.value)
      invariant up.Some? ==> CanGetAll(c, b, up.value, seen, Digests(layers[..i]) + {config.digest})
    {
      DigestsStep(layers, i);
      ghost var got := Digests(layers[..i]) + {config.digest};
      if up.Some? { GetStep(c, b, up.value, seen, got, layers[i].digest); }
      r := PullUnseen(c, client, fs, layers[i].digest, r.value, b, up);
      if r.Err? {
        if up.Some? { NotAll(c, b, up.value, seen, ChildrenOf(m), layers[i].digest); }
        return;
      }
      assert Digests(layers[..i + 1]) + {config.digest} == got + {layers[i].digest};
    }
    assert layers[..|layers|] == layers;
  }

  // ── referrers ──

  /** A manifest that was fetched: its bytes have its digest, and it and its children are there. */
  ghost predicate FetchedOk(c: Codec, f: Files, digest: string, data: Bytes)
  {
    && c.DigestOf(data) == digest && ParseWireManifest(c, data).Some?
    && Present(f, digest) && AllPresent(f, WireChildren(c, data))
  }

  ghost predicate AllFetchedOk(c: Codec, f: Files, fetched: map<string, Bytes>)
  {
    forall d {:trigger FetchedOk(c, f, d, fetched[d])} :: d in fetched ==> FetchedOk(c, f, d, fetched[d])
  }

  type Kids = Bytes -> set<string>

  function KidsOf(c: Codec): Kids { (data: Bytes) => WireChildren(c, data) }

  /** `g` is a config or layer of some fetched manifest. */
  ghost predicate NamedBy(kids: Kids, fetched: map<string, Bytes>, g: string)
  {
    exists d :: d in fetched && g in kids(fetched[d])
  }

  /** The digests seen are the fetched manifests and their children. */
  ghost predicate SeenIs(kids: Kids, fetched: map<string, Bytes>, seen: set<string>)
  {
    forall g {:trigger NamedBy(kids, fetched, g)} :: g in seen <==> g in fetched || NamedBy(kids, fetched, g)
  }

  lemma SeenOne(kids: Kids, fetched: map<string, Bytes>, seen: set<string>, digest: string, data: Bytes)
    requires SeenIs(kids, fetched, seen) && digest !in seen
    ensures digest !in fetched && SeenIs(kids, fetched[digest := data], seen + {digest} + kids(data))
  {
    var fetched' := fetched[digest := data];
    assert digest !in fetched by { var named := NamedBy(kids, fetched, digest); }
    forall g ensures NamedBy(kids, fetched', g) <==> NamedBy(kids, fetched, g) || g in kids(data) {
      if g in kids(data) { assert g in kids(fetched'[digest]); }
      if d :| d in fetched && g in kids(fetched[d]) { assert g in kids(fetched'[d]); }
    }
  }

  lemma FetchedGrow(c: Codec, f: Files, f': Files, fetched: map<string, Bytes>)
    requires BlobsGrow(f, f') && AllFetchedOk(c, f, fetched)
    ensures AllFetchedOk(c, f', fetched)
  {
    forall d | d in fetched ensures FetchedOk(c, f', d, fetched[d]) {
      assert FetchedOk(c, f, d, fetched[d]);
      PresentGrows(f, f', {d});
      PresentGrows(f, f', WireChildren(c, fetched[d]));
    }
  }

  /** A referrer that was not seen before can be pulled. */
  ghost predicate ReferrerObtainable(c: Codec, b: Base, up: Upstream, seen: set<string>, digest: string)
  {
    && ManifestOffered(c, up, digest, digest)
    && CanGetAll(c, b, up, seen + {digest}, WireChildren(c, up.serve(ManifestAt(digest)).body.data))
  }

  /** One referrer that was not seen before: its manifest, then its children. */
  method PullReferrer(c: Codec, client: Client, fs: Fs, digest: string, seen: set<string>, ghost b: Base,
      ghost up: Option<Upstream>)
    returns (r: Result<set<string>, PullError>, ghost data: Bytes)
    requires Safe(c, b, fs) && Backed(c, b, up, client, fs) && Thrifty(client, true)
    requires Reached(c, b, up, fs.files, seen)
    modifies client, fs
    ensures Safe(c, b, fs) && Backed(c, b, up, client, fs) && Thrifty(client, r.Ok?)
    ensures Onward(old(fs.files), fs.files)
    ensures r.Ok? ==> r.value == seen + {digest} + WireChildren(c, data) && Reached(c, b, up, fs.files, r.value)
    ensures r.Ok? ==> c.DigestOf(data) == digest && ParseWireManifest(c, data).Some?
    ensures r.Ok? && up.Some? ==> data == up.value.store(c.hash(data)) == up.value.serve(ManifestAt(digest)).body.data
    ensures up.Some? ==> (r.Ok? <==> ReferrerObtainable(c, b, up.value, seen, digest))
  {
    data := [];
    var got := FetchManifest(c, client, fs, digest, b, up);
    if got.Err? { return Err(got.error), data; }
    var (bytes, computed) := got.value;
    data := bytes;
    if computed != digest { return Err(PullError.DigestMismatch(digest, computed)), data; }
    var m := KeepManifest(c, fs, digest, bytes, seen, b, up);
    if m.Err? { return Err(m.error), data; }
    r := PullUnseenContent(c, client, fs, m.value, seen + {digest}, b, up);
  }

  /** A fetched manifest is written, and then read for its children. */
  method KeepManifest(c: Codec, fs: Fs, digest: string, data: Bytes, ghost here: set<string>, ghost b: Base,
      ghost up: Option<Upstream>)
    returns (r: Result<(Descriptor, seq<Descriptor>), PullError>)
    requires Safe(c, b, fs) && c.DigestOf(data) == digest && Reached(c, b, up, fs.files, here)
    requires b.store.Some? ==> fs.Reliable() && data == b.store.value(c.hash(data))
    modifies fs
    ensures Safe(c, b, fs) && Onward(old(fs.files), fs.files)
    ensures r.Ok? ==> ParseWireManifest(c, data) == Some(r.value) && Reached(c, b, up, fs.files, here + {digest})
    ensures fs.Reliable() ==> (r.Ok? <==> Addressable(digest) && ParseWireManifest(c, data).Some?)
  {
    ghost var f := fs.files;
    var _ :- WriteBlobAtomically(c, fs, digest, data, b);
    ReachedMore(c, b, up, f, fs.files, here, digest);
    var m := ParseWireManifest(c, data);
    r := if m.Some? then Ok(m.value) else Err(MalformedManifest);
  }

  /** The manifests and seen digests after some referrers. */
  ghost predicate Gathered(c: Codec, b: Base, f: Files, fetched: map<string, Bytes>, seen: set<string>)
  {
    && AllFetchedOk(c, f, fetched) && AllPresent(f, seen) && SeenIs(KidsOf(c), fetched, seen)
    && (b.store.Some? ==> forall d <- fetched :: fetched[d] == b.store.value(c.hash(fetched[d])))
  }

  lemma GatherOne(c: Codec, b: Base, f: Files, f': Files, fetched: map<string, Bytes>, seen: set<string>,
      digest: string, data: Bytes)
    requires Gathered(c, b, f, fetched, seen) && digest !in seen && Onward(f, f')
    requires c.DigestOf(data) == digest && ParseWireManifest(c, data).Some?
    requires b.store.Some? ==> data == b.store.value(c.hash(data))
    requires AllPresent(f', seen + {digest} + WireChildren(c, data))
    ensures digest !in fetched && Gathered(c, b, f', fetched[digest := data], seen + {digest} + WireChildren(c, data))
  {
    SeenOne(KidsOf(c), fetched, seen, digest, data);
    FetchedGrow(c, f, f', fetched);
    assert FetchedOk(c, f', digest, data);
  }

  /** The digests seen once these referrers had their turn, when `fetched` is what was fetched. */
  function SeenAfter(kids: Kids, fetched: map<string, Bytes>, first: set<string>, ds: seq<Descriptor>): set<string>
  {
    if ds == [] then first
    else
      var g, before := ds[|ds| - 1].digest, SeenAfter(kids, fetched, first, ds[..|ds| - 1]);
      if g in before || g !in fetched then before else before + {g} + kids(fetched[g])
  }

  /** The digests that were unseen at their turn. */
  function NewAtTurn(kids: Kids, fetched: map<string, Bytes>, first: set<string>, ds: seq<Descriptor>): set<string>
  {
    if ds == [] then {}
    else
      var g, before := ds[|ds| - 1].digest, ds[..|ds| - 1];
      NewAtTurn(kids, fetched, first, before) + (if g in SeenAfter(kids, fetched, first, before) then {} else {g})
  }

  /** Exactly the digests that were unseen at their turn were fetched, beside those of `old_`. */
  ghost predicate Turned(kids: Kids, old_: map<string, Bytes>, fetched: map<string, Bytes>, first: set<string>,
      ds: seq<Descriptor>, seen: set<string>)
  {
    && seen == SeenAfter(kids, fetched, first, ds)
    && fetched.Keys == old_.Keys + NewAtTurn(kids, fetched, first, ds)
  }

  /** One digest more in `fetched` changes nothing for the turns before it. */
  lemma {:induction false} TurnsKept(kids: Kids, fetched: map<string, Bytes>, first: set<string>, ds: seq<Descriptor>,
      g: string, data: Bytes)
    requires g !in fetched && NewAtTurn(kids, fetched, first, ds) <= fetched.Keys
    ensures SeenAfter(kids, fetched[g := data], first, ds) == SeenAfter(kids, fetched, first, ds)
    ensures NewAtTurn(kids, fetched[g := data], first, ds) == NewAtTurn(kids, fetched, first, ds)
  {
    if ds != [] { TurnsKept(kids, fetched, first, ds[..|ds| - 1], g, data); }
  }

  /** A turn: a seen digest costs nothing, an unseen one is fetched. */
  ghost predicate Turn(kids: Kids, g: string, fetched: map<string, Bytes>, seen: set<string>,
      fetched': map<string, Bytes>, seen': set<string>)
  {
    if g in seen then fetched' == fetched && seen' == seen
    else
      && g !in fetched && g in fetched' && fetched' == fetched[g := fetched'[g]]
      && seen' == seen + {g} + kids(fetched'[g])
  }

  lemma TurnStep(kids: Kids, old_: map<string, Bytes>, fetched: map<string, Bytes>, first: set<string>,
      ds: seq<Descriptor>, seen: set<string>, d: Descriptor, fetched': map<string, Bytes>, seen': set<string>)
    requires Turned(kids, old_, fetched, first, ds, seen) && Turn(kids, d.digest, fetched, seen, fetched', seen')
    ensures Turned(kids, old_, fetched', first, ds + [d], seen')
  {
    var all := ds + [d];
    assert all[..|all| - 1] == ds;
    if d.digest !in seen { TurnsKept(kids, fetched, first, ds, d.digest, fetched'[d.digest]); }
  }

  lemma {:induction false} NewWithin(kids: Kids, fetched: map<string, Bytes>, first: set<string>, ds: seq<Descriptor>)
    ensures NewAtTurn(kids, fetched, first, ds) <= Digests(ds)
  {
    if ds != [] {
      var n := |ds| - 1;
      assert ds == ds[..n] + [ds[n]];
      NewWithin(kids, fetched, first, ds[..n]);
      DigestsStep(ds, n);
    }
  }

  /** `fetched'` has every manifest `fetched` has. */
  ghost predicate Extends(fetched: map<string, Bytes>, fetched': map<string, Bytes>)
  {
    forall d <- fetched :: d in fetched' && fetched'[d] == fetched[d]
  }

  /** A listed referrer; a digest seen before is not fetched again. */
  method PullListed(c: Codec, client: Client, fs: Fs, digest: string, seen: set<string>, ghost b: Base,
      ghost up: Option<Upstream>, ghost fetched: map<string, Bytes>)
    returns (r: Result<set<string>, PullError>, ghost fetched': map<string, Bytes>)
    requires Safe(c, b, fs) && Backed(c, b, up, client, fs) && Thrifty(client, true)
    requires Gathered(c, b, fs.files, fetched, seen) && Reached(c, b, up, fs.files, seen)
    modifies client, fs
    ensures Safe(c, b, fs) && Onward(old(fs.files), fs.files) && Backed(c, b, up, client, fs) && Thrifty(client, r.Ok?)
    ensures r.Ok? ==> Extends(fetched, fetched') && Gathered(c, b, fs.files, fetched', r.value)
    ensures r.Ok? ==> seen + {digest} <= r.value && Reached(c, b, up, fs.files, r.value)
    ensures r.Ok? ==> Turn(KidsOf(c), digest, fetched, seen, fetched', r.value)
    ensures digest in seen ==>
      r == Ok(seen) && fetched' == fetched && fs.files == old(fs.files) && client.Now() == old(client.Now())
    ensures up.Some? ==> (r.Ok? <==> digest in seen || ReferrerObtainable(c, b, up.value, seen, digest))
    ensures up.Some? && r.Ok? ==> r.value == NextSeen(ServedKids(c, up.value), seen, digest)
  {
    fetched' := fetched;
    if digest in seen { return Ok(seen), fetched; }
    ghost var f := fs.files;
    ghost var data;
    r, data := PullReferrer(c, client, fs, digest, seen, b, up);
    if r.Ok? {
      GatherOne(c, b, f, fs.files, fetched, seen, digest, data);
      fetched' := fetched[digest := data];
    }
  }

  // ── when every turn succeeds ──

  /** The children the served manifest of a digest names. */
  function ServedKids(c: Codec, up: Upstream): string -> set<string>
  {
    (g: string) => WireChildren(c, up.serve(ManifestAt(g)).body.data)
  }

  function NextSeen(kids: string -> set<string>, seen: set<string>, g: string): set<string>
  {
    if g in seen then seen else seen + {g} + kids(g)
  }

  /** The digests seen once these referrers had their turn. */
  function SeenBy(kids: string -> set<string>, first: set<string>, ds: seq<Descriptor>): set<string>
  {
    if ds == [] then first else NextSeen(kids, SeenBy(kids, first, ds[..|ds| - 1]), ds[|ds| - 1].digest)
  }

  /** The `i`-th referrer was seen before its turn, or can be pulled then. */
  ghost predicate TurnObtainable(c: Codec, b: Base, up: Upstream, first: set<string>, ds: seq<Descriptor>, i: nat)
  {
    i < |ds| ==>
      var seen := SeenBy(ServedKids(c, up), first, ds[..i]);
      ds[i].digest in seen || ReferrerObtainable(c, b, up, seen, ds[i].digest)
  }

  ghost predicate ListObtainable(c: Codec, b: Base, up: Upstream, first: set<string>, ds: seq<Descriptor>)
  {
    forall i: nat {:trigger TurnObtainable(c, b, up, first, ds, i)} :: TurnObtainable(c, b, up, first, ds, i)
  }

  lemma SeenStep(kids: string -> set<string>, first: set<string>, ds: seq<Descriptor>, i: nat)
    requires i < |ds|
    ensures SeenBy(kids, first, ds[..i + 1]) == NextSeen(kids, SeenBy(kids, first, ds[..i]), ds[i].digest)
  {
    assert ds[..i + 1][..i] == ds[..i];
  }

  /** The `i`-th referrer of the list. */
  method PullNext(c: Codec, client: Client, fs: Fs, listed: seq<Descriptor>, i: nat, seen: set<string>,
      ghost b: Base, ghost up: Option<Upstream>, ghost old_: map<string, Bytes>, ghost fetched: map<string, Bytes>,
      ghost first: set<string>, ghost start: Files)
    returns (r: Result<set<string>, PullError>, ghost fetched': map<string, Bytes>)
    requires Safe(c, b, fs) && Backed(c, b, up, client, fs) && Thrifty(client, true) && i < |listed|
    requires Onward(start, fs.files)
    requires Underway(c, b, up, fs.files, old_, fetched, first, listed, i, seen)
    modifies client, fs
    ensures Safe(c, b, fs) && Onward(start, fs.files) && Backed(c, b, up, client, fs) && Thrifty(client, r.Ok?)
    ensures r.Ok? ==> Underway(c, b, up, fs.files, old_, fetched', first, listed, i + 1, r.value)
    ensures up.Some? && r.Err? ==> !TurnObtainable(c, b, up.value, first, listed, i)
  {
    ghost var f := fs.files;
    assert Before(listed, i, listed[..i]);
    r, fetched' := PullListed(c, client, fs, listed[i].digest, seen, b, up, fetched);
    if r.Ok? { UnderwayOn(c, b, up, f, fs.files, old_, fetched, fetched', first, listed, i, seen, r.value); }
  }

  /** Every listed referrer. */
  method PullReferrers(c: Codec, client: Client, fs: Fs, listed: seq<Descriptor>, seen: set<string>, ghost b: Base,
      ghost up: Option<Upstream>, ghost fetched: map<string, Bytes>)
    returns (r: Result<seq<Descriptor>, PullError>, ghost fetched': map<string, Bytes>, ghost seen': set<string>)
    requires Safe(c, b, fs) && Backed(c, b, up, client, fs) && Thrifty(client, true)
    requires Gathered(c, b, fs.files, fetched, seen) && Reached(c, b, up, fs.files, seen)
    modifies client, fs
    ensures Safe(c, b, fs) && Onward(old(fs.files), fs.files) && Backed(c, b, up, client, fs) && Thrifty(client, r.Ok?)
    ensures r.Ok? ==> r.value == listed && Extends(fetched, fetched') && fetched'.Keys <= fetched.Keys + Digests(listed)
    ensures r.Ok? ==> Gathered(c, b, fs.files, fetched', seen') && Digests(listed) <= seen'
    ensures r.Ok? ==> Turned(KidsOf(c), fetched, fetched', seen, listed, seen')
    ensures up.Some? ==> (r.Ok? <==> ListObtainable(c, b, up.value, seen, listed))
  {
    UnderwayFirst(c, b, up, fs.files, fetched, seen, listed);
    r, fetched', seen' := PullTurns(c, client, fs, listed, seen, b, up, fetched);
    if r.Ok? { UnderwayDone(c, b, up, fs.files, fetched, fetched', seen, listed, seen'); }
  }

  /** The loop over the listed referrers. */
  method PullTurns(c: Codec, client: Client, fs: Fs, listed: seq<Descriptor>, first: set<string>, ghost b: Base,
      ghost up: Option<Upstream>, ghost old_: map<string, Bytes>)
    returns (r: Result<seq<Descriptor>, PullError>, ghost fetched: map<string, Bytes>, ghost seen': set<string>)
    requires Safe(c, b, fs) && Backed(c, b, up, client, fs) && Thrifty(client, true)
    requires Underway(c, b, up, fs.files, old_, old_, first, listed, 0, first)
    modifies client, fs
    ensures Safe(c, b, fs) && Onward(old(fs.files), fs.files) && Backed(c, b, up, client, fs) && Thrifty(client, r.Ok?)
    ensures r.Ok? ==> r.value == listed && Underway(c, b, up, fs.files, old_, fetched, first, listed, |listed|, seen')
    ensures up.Some? && r.Err? ==> !ListObtainable(c, b, up.value, first, listed)
  {
    fetched := old_;
    ghost var start := fs.files;
    var seen, materialised := first, [];
    for i := 0 to |listed|
      invariant Safe(c, b, fs) && Onward(start, fs.files) && Backed(c, b, up, client, fs)
      invariant Thrifty(client, true) && materialised == listed[..i]
      invariant Underway(c, b, up, fs.files, old_, fetched, first, listed, i, seen)
    {
      var got;
      got, fetched := PullNext(c, client, fs, listed, i, seen, b, up, old_, fetched, first, start);
      if got.Err? { return Err(got.error), fetched, first; }
      seen := got.value;
      assert listed[..i + 1] == listed[..i] + [listed[i]];
      materialised := materialised + [listed[i]];
    }
    assert listed[..|listed|] == listed;
    r, seen' := Ok(materialised), seen;
  }

  /** These referrers come before the `i`-th. */
  predicate Before(listed: seq<Descriptor>, i: nat, done: seq<Descriptor>) { i <= |listed| && done == listed[..i] }

  /** The state of the loop before the `i`-th turn. */
  ghost predicate Underway(c: Codec, b: Base, up: Option<Upstream>, f: Files, old_: map<string, Bytes>,
      fetched: map<string, Bytes>, first: set<string>, listed: seq<Descriptor>, i: nat, seen: set<string>)
  {
    forall done {:trigger Before(listed, i, done)} :: Before(listed, i, done) ==>
      TurnsDone(c, b, up, f, old_, fetched, first, listed, done, seen)
  }

  /** The turns of `done`, the first of those listed, were taken and succeeded as they had to. */
  ghost predicate TurnsDone(c: Codec, b: Base, up: Option<Upstream>, f: Files, old_: map<string, Bytes>,
      fetched: map<string, Bytes>, first: set<string>, listed: seq<Descriptor>, done: seq<Descriptor>,
      seen: set<string>)
  {
    && Extends(old_, fetched) && Gathered(c, b, f, fetched, seen) && Reached(c, b, up, f, seen)
    && Digests(done) <= seen && Turned(KidsOf(c), old_, fetched, first, done, seen)
    && (up.Some? ==>
          seen == SeenBy(ServedKids(c, up.value), first, done) && AllObtained(c, b, up.value, first, listed, |done|))
  }

  /** The first `i` turns can succeed. */
  ghost predicate AllObtained(c: Codec, b: Base, up: Upstream, first: set<string>, listed: seq<Descriptor>, i: nat)
  {
    forall k: nat {:trigger TurnObtainable(c, b, up, first, listed, k)} :: k < i ==>
      TurnObtainable(c, b, up, first, listed, k)
  }

  lemma ObtainedOn(c: Codec, b: Base, up: Upstream, first: set<string>, listed: seq<Descriptor>, i: nat,
      seen: set<string>, seen': set<string>)
    requires i < |listed| && seen == SeenBy(ServedKids(c, up), first, listed[..i])
    requires AllObtained(c, b, up, first, listed, i)
    requires listed[i].digest in seen || ReferrerObtainable(c, b, up, seen, listed[i].digest)
    requires seen' == NextSeen(ServedKids(c, up), seen, listed[i].digest)
    ensures seen' == SeenBy(ServedKids(c, up), first, listed[..i + 1])
    ensures AllObtained(c, b, up, first, listed, i + 1)
  {
    SeenStep(ServedKids(c, up), first, listed, i);
    assert TurnObtainable(c, b, up, first, listed, i);
  }

  lemma UnderwayFirst(c: Codec, b: Base, up: Option<Upstream>, f: Files, fetched: map<string, Bytes>,
      seen: set<string>, listed: seq<Descriptor>)
    requires Gathered(c, b, f, fetched, seen) && Reached(c, b, up, f, seen)
    ensures Underway(c, b, up, f, fetched, fetched, seen, listed, 0, seen)
  {
  }

  lemma UnderwayDone(c: Codec, b: Base, up: Option<Upstream>, f: Files, old_: map<string, Bytes>,
      fetched: map<string, Bytes>, first: set<string>, listed: seq<Descriptor>, seen: set<string>)
    requires Underway(c, b, up, f, old_, fetched, first, listed, |listed|, seen)
    ensures TurnsDone(c, b, up, f, old_, fetched, first, listed, listed, seen)
    ensures fetched.Keys <= old_.Keys + Digests(listed)
    ensures up.Some? ==> ListObtainable(c, b, up.value, first, listed)
  {
    assert Before(listed, |listed|, listed);
    NewWithin(KidsOf(c), fetched, first, listed);
  }

  lemma TurnsOn(c: Codec, b: Base, up: Option<Upstream>, f: Files, f': Files, old_: map<string, Bytes>,
      fetched: map<string, Bytes>, fetched': map<string, Bytes>, first: set<string>, listed: seq<Descriptor>, i: nat,
      seen: set<string>, seen': set<string>)
    requires i < |listed| && TurnsDone(c, b, up, f, old_, fetched, first, listed, listed[..i], seen)
    requires Extends(fetched, fetched') && Gathered(c, b, f', fetched', seen') && Reached(c, b, up, f', seen')
    requires seen + {listed[i].digest} <= seen' && Turn(KidsOf(c), listed[i].digest, fetched, seen, fetched', seen')
    requires up.Some? ==> listed[i].digest in seen || ReferrerObtainable(c, b, up.value, seen, listed[i].digest)
    requires up.Some? ==> seen' == NextSeen(ServedKids(c, up.value), seen, listed[i].digest)
    ensures TurnsDone(c, b, up, f', old_, fetched', first, listed, listed[..i + 1], seen')
  {
    DigestsStep(listed, i);
    assert listed[..i + 1] == listed[..i] + [listed[i]];
    TurnStep(KidsOf(c), old_, fetched, first, listed[..i], seen, listed[i], fetched', seen');
    if up.Some? { ObtainedOn(c, b, up.value, first, listed, i, seen, seen'); }
  }

  lemma UnderwayOn(c: Codec, b: Base, up: Option<Upstream>, f: Files, f': Files, old_: map<string, Bytes>,
      fetched: map<string, Bytes>, fetched': map<string, Bytes>, first: set<string>, listed: seq<Descriptor>, i: nat,
      seen: set<string>, seen': set<string>)
    requires i < |listed| && Underway(c, b, up, f, old_, fetched, first, listed, i, seen)
    requires Extends(fetched, fetched') && Gathered(c, b, f', fetched', seen') && Reached(c, b, up, f', seen')
    requires seen + {listed[i].digest} <= seen' && Turn(KidsOf(c), listed[i].digest, fetched, seen, fetched', seen')
    requires up.Some? ==> listed[i].digest in seen || ReferrerObtainable(c, b, up.value, seen, listed[i].digest)
    requires up.Some? ==> seen' == NextSeen(ServedKids(c, up.value), seen, listed[i].digest)
    ensures Underway(c, b, up, f', old_, fetched', first, listed, i + 1, seen')
  {
    assert Before(listed, i, listed[..i]);
    TurnsOn(c, b, up, f, f', old_, fetched, fetched', first, listed, i, seen, seen');
  }

  // ── the marker and the index ──

  function IndexJson(ds: seq<Descriptor>): Json
  {
    JObj(map["schemaVersion" := JInt(2), "mediaType" := JStr(INDEX_TYPE), "manifests" := JArr(DescriptorsJson(ds))])
  }

  /** The index a pull writes: the primary first, then the listed referrers. */
  function PulledEntries(c: Codec, primary: Bytes, listed: seq<Descriptor>): seq<Descriptor>
  {
    [Descriptor(MANIFEST_TYPE, c.DigestOf(primary), |primary|, None)] + listed
  }

  function IndexBytes(c: Codec, primary: Bytes, listed: seq<Descriptor>): Bytes
  {
    c.pretty(IndexJson(PulledEntries(c, primary, listed)))
  }

  ghost predicate MarkerThere(c: Codec, b: Base, f: Files)
  {
    LAYOUT_FILE in f && f[LAYOUT_FILE] == if LAYOUT_FILE in b.files then b.files[LAYOUT_FILE] else MarkerBytes(c)
  }

  /** `write_oci_layout_marker`: an existing marker is kept as it is, a new one is empty first. */
  method WriteMarker(c: Codec, fs: Fs, ghost b: Base) returns (r: Result<(), PullError>)
    requires Safe(c, b, fs) && (LAYOUT_FILE in fs.files ==> LAYOUT_FILE in b.files)
    modifies fs
    ensures Safe(c, b, fs) && BlobsGrow(old(fs.files), fs.files)
    ensures r.Ok? ==> MarkerThere(c, b, fs.files)
    ensures r.Ok? && LAYOUT_FILE !in old(fs.files) ==> WasEmpty(fs, |old(fs.history)|, LAYOUT_FILE)
    ensures fs.Reliable() ==> r.Ok?
  {
    if LAYOUT_FILE in fs.files { return Ok(()); }
    var ok := WriteScratch(c, fs, LAYOUT_FILE, MarkerBytes(c), b);
    r := if ok then Ok(()) else Err(Io);
  }

  const INDEX_TMP := Root("index.tmp")

  /** `write_index_json`. */
  method WriteIndex(c: Codec, fs: Fs, primary: Bytes, listed: seq<Descriptor>, ghost b: Base)
    returns (r: Result<(), PullError>)
    requires Safe(c, b, fs) && MarkerThere(c, b, fs.files)
    modifies fs
    ensures r.Err? ==> Safe(c, b, fs)
    ensures r.Ok? ==> Switched(c, b, fs, IndexBytes(c, primary, listed)) && MarkerThere(c, b, fs.files)
    ensures r.Ok? ==> BlobsGrow(old(fs.files), fs.files)
    ensures fs.Reliable() ==> r.Ok?
  {
    var ok := ReplaceIndex(c, fs, INDEX_TMP, IndexBytes(c, primary, listed), b);
    r := if ok then Ok(()) else Err(Io);
  }

  // ── the whole pull ──

  /** What a successful pull read: the primary manifest, the referrer list, every manifest fetched. */
  datatype Report = Report(primary: Bytes, listed: seq<Descriptor>, fetched: map<string, Bytes>)

  /** Besides the primary, exactly the listed digests that were unseen at their turn were fetched. */
  ghost predicate FetchedAtTurn(kids: Kids, primary: string, rep: Report)
  {
    rep.fetched.Keys == {primary} + NewAtTurn(kids, rep.fetched, {primary} + kids(rep.primary), rep.listed)
  }

  /** The closure a successful pull leaves. */
  ghost predicate Pulled(c: Codec, b: Base, f: Files, target: RefTarget, rep: Report)
  {
    && StoreKept(c, b, f) && MarkerThere(c, b, f)
    && INDEX_FILE in f && f[INDEX_FILE] == IndexBytes(c, rep.primary, rep.listed)
    && (target.Digest? ==> target.digest == c.DigestOf(rep.primary))
    && c.DigestOf(rep.primary) in rep.fetched && rep.fetched[c.DigestOf(rep.primary)] == rep.primary
    && AllFetchedOk(c, f, rep.fetched) && rep.fetched.Keys <= {c.DigestOf(rep.primary)} + Digests(rep.listed)
    && FetchedAtTurn(KidsOf(c), c.DigestOf(rep.primary), rep)
    && AllPresent(f, Digests(rep.listed)) && (forall d <- rep.listed :: Fits(d))
    && (forall d <- rep.listed :: d.digest in rep.fetched || NamedBy(KidsOf(c), rep.fetched, d.digest))
    && (b.store.Some? ==> forall d <- rep.fetched :: rep.fetched[d] == b.store.value(c.hash(rep.fetched[d])))
  }

  /** The primary manifest and its content can be pulled. */
  ghost predicate PrimaryObtainable(c: Codec, b: Base, up: Upstream, target: RefTarget)
  {
    var data := up.serve(ManifestAt(target.Reference())).body.data;
    && ManifestOffered(c, up, target.Reference(), c.DigestOf(data))
    && (target.Digest? ==> target.digest == c.DigestOf(data))
    && CanGetAll(c, b, up, {c.DigestOf(data)}, WireChildren(c, data))
  }

  /** The primary manifest, which a digest target must match. */
  method FetchPrimary(c: Codec, client: Client, fs: Fs, target: RefTarget, ghost b: Base, ghost up: Option<Upstream>)
    returns (r: Result<(Bytes, string), PullError>)
    requires Backed(c, b, up, client, fs) && Thrifty(client, true)
    modifies client
    ensures Backed(c, b, up, client, fs) && Thrifty(client, r.Ok?)
    ensures r.Ok? ==> r.value.1 == c.DigestOf(r.value.0) && (target.Digest? ==> target.digest == r.value.1)
    ensures up.Some? && r.Ok? ==>
      r.value.0 == up.value.serve(ManifestAt(target.Reference())).body.data == up.value.store(c.hash(r.value.0))
    ensures up.Some? ==>
      var resp := up.value.serve(ManifestAt(target.Reference()));
      (r.Ok? <==> ManifestServed(c, resp) && (target.Digest? ==> target.digest == c.DigestOf(resp.body.data)))
  {
    r := FetchManifest(c, client, fs, target.Reference(), b, up);
    if r.Ok? && target.Digest? && target.digest != r.value.1 {
      r := Err(PullError.DigestMismatch(target.digest, r.value.1));
    }
  }

  /** Steps 1 to 3: the primary manifest, its config and its layers. */
  method PullPrimary(c: Codec, client: Client, fs: Fs, target: RefTarget, ghost b: Base, ghost up: Option<Upstream>)
    returns (r: Result<(Bytes, string, set<string>), PullError>)
    requires Safe(c, b, fs) && Backed(c, b, up, client, fs) && Thrifty(client, true) && Reached(c, b, up, fs.files, {})
    modifies client, fs
    ensures Safe(c, b, fs) && Backed(c, b, up, client, fs) && Thrifty(client, r.Ok?)
    ensures Onward(old(fs.files), fs.files)
    ensures r.Ok? ==>
      && r.value.1 == c.DigestOf(r.value.0) && (target.Digest? ==> target.digest == r.value.1)
      && r.value.2 == {r.value.1} + WireChildren(c, r.value.0)
      && Gathered(c, b, fs.files, map[r.value.1 := r.value.0], r.value.2) && Reached(c, b, up, fs.files, r.value.2)
    ensures up.Some? && r.Ok? ==> r.value.0 == up.value.serve(ManifestAt(target.Reference())).body.data
    ensures up.Some? ==> (r.Ok? <==> PrimaryObtainable(c, b, up.value, target))
  {
    var got: (Bytes, string) :- FetchPrimary(c, client, fs, target, b, up);
    var (data, digest) := got;
    var seen :- KeepPrimary(c, client, fs, data, digest, b, up);
    r := Ok((data, digest, seen));
  }

  /** The second half: the manifest is written, and its content pulled. */
  method KeepPrimary(c: Codec, client: Client, fs: Fs, data: Bytes, digest: string, ghost b: Base,
      ghost up: Option<Upstream>)
    returns (r: Result<set<string>, PullError>)
    requires Safe(c, b, fs) && Backed(c, b, up, client, fs) && Thrifty(client, true) && Reached(c, b, up, fs.files, {})
    requires digest == c.DigestOf(data) && (b.store.Some? ==> data == b.store.value(c.hash(data)))
    modifies client, fs
    ensures Safe(c, b, fs) && Backed(c, b, up, client, fs) && Thrifty(client, r.Ok?)
    ensures Onward(old(fs.files), fs.files)
    ensures r.Ok? ==> r.value == {digest} + WireChildren(c, data) && Reached(c, b, up, fs.files, r.value)
    ensures r.Ok? ==> Gathered(c, b, fs.files, map[digest := data], r.value)
    ensures up.Some? ==>
      (r.Ok? <==>
        && Addressable(digest) && ParseWireManifest(c, data).Some?
        && CanGetAll(c, b, up.value, {digest}, WireChildren(c, data)))
  {
    var m :- KeepManifest(c, fs, digest, data, {}, b, up);
    assert {} + {digest} == {digest};
    var _ :- PullContent(c, client, fs, m, {digest}, b, up);
    r := Ok({digest} + ChildrenOf(m));
    GatherFirst(c, b, fs.files, digest, data);
  }

  lemma GatherFirst(c: Codec, b: Base, f: Files, digest: string, data: Bytes)
    requires FetchedOk(c, f, digest, data)
    requires b.store.Some? ==> data == b.store.value(c.hash(data))
    ensures Gathered(c, b, f, map[digest := data], {digest} + WireChildren(c, data))
  {
    SeenOne(KidsOf(c), map[], {}, digest, data);
    assert {} + {digest} + WireChildren(c, data) == {digest} + WireChildren(c, data);
  }

  /** Step 6: the marker, then the index. */
  method Finish(c: Codec, fs: Fs, data: Bytes, listed: seq<Descriptor>, ghost b: Base)
    returns (r: Result<(), PullError>)
    requires Safe(c, b, fs) && (LAYOUT_FILE in fs.files ==> LAYOUT_FILE in b.files)
    modifies fs
    ensures r.Err? ==> Safe(c, b, fs)
    ensures r.Ok? ==> Switched(c, b, fs, IndexBytes(c, data, listed)) && MarkerThere(c, b, fs.files)
    ensures r.Ok? ==> BlobsGrow(old(fs.files), fs.files)
    ensures fs.Reliable() ==> r.Ok?
  {
    var _ :- WriteMarker(c, fs, b);
    r := WriteIndex(c, fs, data, listed, b);
  }

  lemma PulledFrom(c: Codec, b: Base, f: Files, f': Files, target: RefTarget, rep: Report, seen: set<string>)
    requires Gathered(c, b, f, rep.fetched, seen) && Digests(rep.listed) <= seen && BlobsGrow(f, f')
    requires StoreKept(c, b, f') && MarkerThere(c, b, f')
    requires INDEX_FILE in f' && f'[INDEX_FILE] == IndexBytes(c, rep.primary, rep.listed)
    requires target.Digest? ==> target.digest == c.DigestOf(rep.primary)
    requires (forall d <- rep.listed :: Fits(d)) && rep.fetched.Keys <= {c.DigestOf(rep.primary)} + Digests(rep.listed)
    requires c.DigestOf(rep.primary) in rep.fetched && rep.fetched[c.DigestOf(rep.primary)] == rep.primary
    requires FetchedAtTurn(KidsOf(c), c.DigestOf(rep.primary), rep)
    ensures Pulled(c, b, f', target, rep)
  {
    FetchedGrow(c, f, f', rep.fetched);
    PresentGrows(f, f', seen);
    forall d | d in rep.listed ensures d.digest in rep.fetched || NamedBy(KidsOf(c), rep.fetched, d.digest) {
      assert d.digest in Digests(rep.listed);
    }
  }

  /** Step 6, and the closure it leaves. */
  method Conclude(c: Codec, fs: Fs, data: Bytes, listed: seq<Descriptor>, ghost b: Base, ghost target: RefTarget,
      ghost rep: Report, ghost seen: set<string>)
    returns (r: Result<(), PullError>)
    requires Safe(c, b, fs) && (LAYOUT_FILE in fs.files ==> LAYOUT_FILE in b.files)
    requires (data, listed) == (rep.primary, rep.listed) && (target.Digest? ==> target.digest == c.DigestOf(data))
    requires Gathered(c, b, fs.files, rep.fetched, seen) && Digests(listed) <= seen
    requires (forall d <- listed :: Fits(d)) && rep.fetched.Keys <= {c.DigestOf(data)} + Digests(listed)
    requires c.DigestOf(data) in rep.fetched && rep.fetched[c.DigestOf(data)] == data
    requires FetchedAtTurn(KidsOf(c), c.DigestOf(data), rep)
    modifies fs
    ensures r.Err? ==> Safe(c, b, fs)
    ensures r.Ok? ==> Switched(c, b, fs, IndexBytes(c, data, listed)) && Pulled(c, b, fs.files, target, rep)
    ensures fs.Reliable() ==> r.Ok?
  {
    ghost var f := fs.files;
    r := Finish(c, fs, data, listed, b);
    if r.Ok? { PulledFrom(c, b, f, fs.files, target, rep, seen); }
  }

  /** The referrer list is served, and every referrer on it can be pulled at its turn. */
  ghost predicate ReferrersObtainable(c: Codec, b: Base, up: Upstream, data: Bytes, required: bool)
  {
    var digest := c.DigestOf(data);
    var list := ReadReferrers(c, up.serve(ReferrersAt(digest)), required);
    list.Ok? && ListObtainable(c, b, up, {digest} + WireChildren(c, data), list.value)
  }

  /** The image can be pulled: the primary, the referrer list, and every referrer at its turn. */
  ghost predicate ImageObtainable(c: Codec, b: Base, up: Upstream, target: RefTarget, required: bool)
  {
    && PrimaryObtainable(c, b, up, target)
    && ReferrersObtainable(c, b, up, up.serve(ManifestAt(target.Reference())).body.data, required)
  }

  /**
   * What comes of the response to the request for the referrers of the primary: a registry
   * without the referrers API answers 404, which is an empty list unless the API is required.
   */
  ghost predicate ListHeeded<A>(c: Codec, b: Base, up: Upstream, data: Bytes, required: bool, r: Result<A, PullError>,
      listed: seq<Descriptor>)
  {
    var d := c.DigestOf(data);
    var resp := up.serve(ReferrersAt(d));
    var list := ParseIndex(c, resp.body.data);
    && (resp.status == 404 && required ==> r == Err(ReferrersNotSupported))
    && (resp.status == 404 && !required ==> r.Ok? && listed == [])
    && (resp.status != 404 && !(200 <= resp.status < 300) ==> r == Err(Refused(resp.status)))
    && (200 <= resp.status < 300 && resp.body.broken ==> r == Err(Unreachable))
    && (200 <= resp.status < 300 && !resp.body.broken && list.None? ==> r == Err(MalformedManifest))
    && (200 <= resp.status < 300 && !resp.body.broken && list.Some? ==>
      && (r.Ok? <==> ListObtainable(c, b, up, {d} + WireChildren(c, data), list.value))
      && (r.Ok? ==> listed == list.value))
  }

  /** Steps 4 and 5: the referrer list, and every referrer. */
  method PullAttached(c: Codec, client: Client, fs: Fs, data: Bytes, digest: string, seen: set<string>, required: bool,
      ghost b: Base, ghost up: Option<Upstream>)
    returns (r: Result<seq<Descriptor>, PullError>, ghost rep: Report, ghost seen': set<string>)
    requires Safe(c, b, fs) && Backed(c, b, up, client, fs) && Thrifty(client, true)
    requires digest == c.DigestOf(data) && seen == {digest} + WireChildren(c, data)
    requires Gathered(c, b, fs.files, map[digest := data], seen) && Reached(c, b, up, fs.files, seen)
    modifies client, fs
    ensures Safe(c, b, fs) && Thrifty(client, r.Ok?) && Onward(old(fs.files), fs.files)
    ensures r.Ok? ==>
      && rep.primary == data && rep.listed == r.value
      && Gathered(c, b, fs.files, rep.fetched, seen') && Digests(rep.listed) <= seen'
      && (forall d <- rep.listed :: Fits(d)) && rep.fetched.Keys <= {digest} + Digests(rep.listed)
      && digest in rep.fetched && rep.fetched[digest] == data && FetchedAtTurn(KidsOf(c), digest, rep)
    ensures up.Some? && r.Ok? ==> ReadReferrers(c, up.value.serve(ReferrersAt(digest)), required) == Ok(rep.listed)
    ensures up.Some? ==> (r.Ok? <==> ReferrersObtainable(c, b, up.value, data, required))
    ensures up.Some? ==> ListHeeded(c, b, up.value, data, required, r, rep.listed)
  {
    rep, seen' := Report([], [], map[]), {};
    var found := FetchReferrers(c, client, fs, digest, required, b, up);
    if up.Some? { NoneListed(c, b, up.value, seen); }
    if found.Err? { return Err(found.error), rep, seen'; }
    ghost var fetched;
    r, fetched, seen' := PullReferrers(c, client, fs, found.value, seen, b, up, map[digest := data]);
    if r.Ok? { rep := Report(data, r.value, fetched); }
  }

  /** Nothing is listed, so nothing is missing. */
  lemma NoneListed(c: Codec, b: Base, up: Upstream, first: set<string>)
    ensures ListObtainable(c, b, up, first, [])
  {
    forall i: nat ensures TurnObtainable(c, b, up, first, [], i) { }
  }

  /** Steps 1 to 5: everything but the marker and the index. */
  method PullImage(c: Codec, client: Client, fs: Fs, target: RefTarget, required: bool, ghost b: Base,
      ghost up: Option<Upstream>)
    returns (r: Result<(Bytes, seq<Descriptor>), PullError>, ghost rep: Report, ghost seen: set<string>)
    requires Safe(c, b, fs) && Backed(c, b, up, client, fs) && Thrifty(client, true) && Reached(c, b, up, fs.files, {})
    modifies client, fs
    ensures Safe(c, b, fs) && Thrifty(client, r.Ok?) && Onward(old(fs.files), fs.files)
    ensures r.Ok? ==>
      && r.value == (rep.primary, rep.listed) && (target.Digest? ==> target.digest == c.DigestOf(rep.primary))
      && Gathered(c, b, fs.files, rep.fetched, seen) && Digests(rep.listed) <= seen
      && (forall d <- rep.listed :: Fits(d)) && rep.fetched.Keys <= {c.DigestOf(rep.primary)} + Digests(rep.listed)
      && c.DigestOf(rep.primary) in rep.fetched && rep.fetched[c.DigestOf(rep.primary)] == rep.primary
      && FetchedAtTurn(KidsOf(c), c.DigestOf(rep.primary), rep)
    ensures up.Some? && r.Ok? ==> FromUpstream(c, up.value, target, required, rep)
    ensures up.Some? ==> (r.Ok? <==> ImageObtainable(c, b, up.value, target, required))
    ensures up.Some? && PrimaryObtainable(c, b, up.value, target) ==>
      ListHeeded(c, b, up.value, up.value.serve(ManifestAt(target.Reference())).body.data, required, r, rep.listed)
  {
    rep, seen := Report([], [], map[]), {};
    var first := PullPrimary(c, client, fs, target, b, up);
    if first.Err? { return Err(first.error), rep, seen; }
    var (data, digest, seen1) := first.value;
    var listed;
    listed, rep, seen := PullAttached(c, client, fs, data, digest, seen1, required, b, up);
    r := if listed.Ok? then Ok((data, listed.value)) else Err(listed.error);
  }

  /** The report is about the manifest and the list that were served. */
  predicate FromUpstream(c: Codec, up: Upstream, target: RefTarget, required: bool, rep: Report)
  {
    && rep.primary == up.serve(ManifestAt(target.Reference())).body.data
    && ReadReferrers(c, up.serve(ReferrersAt(c.DigestOf(rep.primary))), required) == Ok(rep.listed)
  }

  /**
   * `execute_pull`. Whatever the server answers and whichever file operation fails, every
   * state on the way keeps the store correct and, but for the last one of a success, the
   * old index. A success leaves a closure. With working files, a registry that delivers is
   * pulled from with success exactly when it has the image, blob by blob and turn by turn.
   */
  method ExecutePull(c: Codec, client: Client, fs: Fs, isDir: bool, target: RefTarget, required: bool, ghost b: Base,
      ghost up: Option<Upstream>)
    returns (r: Result<(), PullError>, ghost rep: Report)
    requires b.files == fs.files && b.mark == |fs.history| && StoreCorrect(c, fs.files)
    requires Backed(c, b, up, client, fs) && Thrifty(client, true)
    modifies client, fs
    ensures r.Err? ==> Safe(c, b, fs)
    ensures r.Ok? ==> Switched(c, b, fs, IndexBytes(c, rep.primary, rep.listed)) && Pulled(c, b, fs.files, target, rep)
    ensures Thrifty(client, r.Ok?)
    ensures up.Some? && r.Ok? ==> FromUpstream(c, up.value, target, required, rep)
    ensures up.Some? ==> (r.Ok? <==> isDir && ImageObtainable(c, b, up.value, target, required))
    ensures up.Some? && isDir && PrimaryObtainable(c, b, up.value, target) ==>
      ListHeeded(c, b, up.value, up.value.serve(ManifestAt(target.Reference())).body.data, required, r, rep.listed)
  {
    if !isDir { return Err(NotADirectory), Report([], [], map[]); }
    var ok := fs.Tick();
    if !ok { return Err(Io), Report([], [], map[]); }
    var got;
    ghost var seen;
    got, rep, seen := PullImage(c, client, fs, target, required, b, up);
    if got.Err? { return Err(got.error), rep; }
    r := Conclude(c, fs, got.value.0, got.value.1, b, target, rep, seen);
  }

  // ── an image that is offered as a whole ──

  /** Every referrer is offered with all it names, but for those already seen. */
  ghost predicate AllOffered(c: Codec, up: Upstream, listed: seq<Descriptor>, seen: set<string>)
  {
    forall i {:trigger OfferedUnless(c, up, seen, listed[i].digest)} :: 0 <= i < |listed| ==>
      OfferedUnless(c, up, seen, listed[i].digest)
  }

  ghost predicate OfferedUnless(c: Codec, up: Upstream, seen: set<string>, g: string)
  {
    g in seen || Offered(c, up, g, g)
  }

  /** The registry offers a whole image with exactly these referrers. */
  ghost predicate OffersImage(c: Codec, up: Upstream, target: RefTarget, required: bool, listed: seq<Descriptor>)
  {
    var data := up.serve(ManifestAt(target.Reference())).body.data;
    && Offered(c, up, target.Reference(), c.DigestOf(data))
    && (target.Digest? ==> target.digest == c.DigestOf(data))
    && ReadReferrers(c, up.serve(ReferrersAt(c.DigestOf(data))), required) == Ok(listed)
    && AllOffered(c, up, listed, {c.DigestOf(data)} + WireChildren(c, data))
  }

  lemma OfferedCanGet(c: Codec, b: Base, up: Upstream, here: set<string>, gs: set<string>)
    requires BlobsOffered(c, up, gs)
    ensures CanGetAll(c, b, up, here, gs)
  {
    forall g | g in gs ensures CanGet(c, b, up, here, g) { assert BlobOffered(c, up, g); }
  }

  lemma {:induction false} SeenGrows(kids: string -> set<string>, first: set<string>, ds: seq<Descriptor>)
    ensures first <= SeenBy(kids, first, ds) && Digests(ds) <= SeenBy(kids, first, ds)
  {
    if ds != [] {
      var n := |ds| - 1;
      SeenGrows(kids, first, ds[..n]);
      DigestsStep(ds, n);
      assert ds[..n + 1] == ds;
    }
  }

  /** Such an image can be pulled, into any directory. */
  lemma OffersObtainable(c: Codec, b: Base, up: Upstream, target: RefTarget, required: bool, listed: seq<Descriptor>)
    requires OffersImage(c, up, target, required, listed)
    ensures ImageObtainable(c, b, up, target, required)
  {
    var data := up.serve(ManifestAt(target.Reference())).body.data;
    var first := {c.DigestOf(data)} + WireChildren(c, data);
    OfferedCanGet(c, b, up, {c.DigestOf(data)}, WireChildren(c, data));
    forall i: nat ensures TurnObtainable(c, b, up, first, listed, i) {
      if i < |listed| { OfferedTurn(c, b, up, first, listed, i); }
    }
  }

  lemma OfferedTurn(c: Codec, b: Base, up: Upstream, first: set<string>, listed: seq<Descriptor>, i: nat)
    requires AllOffered(c, up, listed, first) && i < |listed|
    ensures TurnObtainable(c, b, up, first, listed, i)
  {
    var g, seen := listed[i].digest, SeenBy(ServedKids(c, up), first, listed[..i]);
    SeenGrows(ServedKids(c, up), first, listed[..i]);
    assert OfferedUnless(c, up, first, g);
    if g !in seen { OfferedCanGet(c, b, up, seen + {g}, WireChildren(c, up.serve(ManifestAt(g)).body.data)); }
  }
}
