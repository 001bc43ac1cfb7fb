/**
 * An OCI registry as a state machine, and a connection to it on which any reply may be a
 * 5xx, may be lost after or before the request took effect, or may be any other status.
 */
module Registry {
  import opened Wrappers
  import opened Oci
  import opened Retries

  /** What a registry stores: blobs and manifests by digest, and what each tag points at. */
  datatype Store = Store(blobs: map<string, Bytes>, manifests: map<string, Bytes>, tags: map<string, string>)

  /** The stored content and the upload sessions that are open. */
  datatype Site = Site(store: Store, sessions: set<nat>, issued: nat)

  datatype Request =
    | HeadBlob(digest: string)
    | HeadManifest(reference: string)
    | StartUpload
    | PutBlob(session: nat, digest: string, data: Bytes)
    | PutManifest(reference: string, data: Bytes)

  /** A status and, from an upload that was started, the session it names. */
  datatype Answer = Answer(status: nat, location: Option<nat>)

  /** Content-addressed storage: what is there stays. */
  function Add(m: map<string, Bytes>, digest: string, data: Bytes): (r: map<string, Bytes>)
    ensures digest in r && forall k :: k in m ==> k in r && r[k] == m[k]
    ensures r.Keys == m.Keys + {digest}
  {
    if digest in m then m else m[digest := data]
  }

  /** What a request does to the stored content when it is accepted. */
  function Effect(c: Codec, s: Store, req: Request): Store
  {
    match req
    case PutBlob(_, digest, data) => if c.DigestOf(data) == digest then s.(blobs := Add(s.blobs, digest, data)) else s
    case PutManifest(reference, data) =>
      var digest := c.DigestOf(data);
      var there := s.(manifests := Add(s.manifests, digest, data));
      if !Addressable(reference) then there.(tags := s.tags[reference := digest])
      else if reference == digest then there
      else s
    case _ => s
  }

  /** The manifest digest a reference stands for. */
  function Resolve(s: Store, reference: string): Option<string>
  {
    if Addressable(reference) then (if reference in s.manifests then Some(reference) else None)
    else if reference in s.tags && s.tags[reference] in s.manifests then Some(s.tags[reference])
    else None
  }

  /** An honest registry's answer to a request, and its new state. */
  function Handle(c: Codec, site: Site, req: Request): (Answer, Site)
  {
    match req
    case HeadBlob(digest) => (Answer(if digest in site.store.blobs then 200 else 404, None), site)
    case HeadManifest(reference) => (Answer(if Resolve(site.store, reference).Some? then 200 else 404, None), site)
    case StartUpload => (Answer(202, Some(site.issued)),
      site.(sessions := site.sessions + {site.issued}, issued := site.issued + 1))
    case PutBlob(session, digest, data) =>
      if session !in site.sessions then (Answer(404, None), site)
      else if c.DigestOf(data) != digest then (Answer(400, None), site)
      else (Answer(201, None), site.(store := Effect(c, site.store, req), sessions := site.sessions - {session}))
    case PutManifest(reference, data) =>
      if Addressable(reference) && c.DigestOf(data) != reference then (Answer(400, None), site)
      else (Answer(201, None), site.(store := Effect(c, site.store, req)))
  }

  // ── the connection ──

  /** What the network and the server make of one exchange. */
  datatype Fault = Fine | Says(answer: Answer, applied: bool) | Lost(applied: bool)

  /** A reply that is tried again. */
  predicate Retried(f: Fault) { f.Lost? || (f.Says? && ServerError(f.answer.status)) }

  /** A fault that another try makes good: the request had no effect. */
  predicate Passing(f: Fault) { Retried(f) && !f.applied }

  datatype Reply = NoReply | Replied(answer: Answer)

  function Transmit(c: Codec, fault: Fault, site: Site, req: Request): (Reply, Site)
  {
    var (answer, site') := Handle(c, site, req);
    match fault
    case Fine => (Replied(answer), site')
    case Says(other, applied) => (Replied(other), if applied then site' else site)
    case Lost(applied) => (NoReply, if applied then site' else site)
  }

  /** The same request in `n` exchanges from the `k`-th on: the last reply, and what they leave. */
  function Exchanges(c: Codec, plan: nat -> Fault, k: nat, n: nat, site: Site, req: Request): (Reply, Site)
  {
    if n == 0 then (NoReply, site)
    else Transmit(c, plan(k + n - 1), Exchanges(c, plan, k, n - 1, site, req).1, req)
  }

  class Connection {
    const c: Codec
    const plan: nat -> Fault
    var site: Site
    var clock: nat
    /** The stored content after every exchange. */
    ghost var history: seq<Store>

    constructor (c: Codec, plan: nat -> Fault, site: Site)
      ensures this.c == c && this.plan == plan && this.site == site && clock == 0 && history == []
    {
      this.c, this.plan, this.site, clock, history := c, plan, site, 0, [];
    }

    /** An honest registry: nothing but 5xx and lost replies ever departs from its answers. */
    ghost predicate Honest() { forall n :: plan(n).Says? ==> ServerError(plan(n).answer.status) }

    /** The request that is first sent in exchange `k` gets through, on its `i`-th retry. */
    ghost predicate ThroughAfter(k: nat, i: nat)
    {
      i <= MAX_RETRIES && plan(k + i).Fine? && forall j :: k <= j < k + i ==> Passing(plan(j))
    }

    ghost predicate Through(k: nat) { exists i :: ThroughAfter(k, i) }

    /** Whatever is sent from exchange `k` on gets through. */
    ghost predicate PatientFrom(k: nat) { forall n {:trigger Through(n)} :: n >= k ==> Through(n) }

    /** Every request gets through. */
    ghost predicate Patient() { forall n {:trigger Through(n)} :: Through(n) }

    /** From exchange `k` on, the server answers as often as a request is tried with a 5xx, and does nothing. */
    ghost predicate Refuses(k: nat)
    {
      forall i :: k <= i < k + MAX_RETRIES + 1 ==>
        plan(i).Says? && !plan(i).applied && ServerError(plan(i).answer.status)
    }

    /** Too busy for one request, however often it is tried, and fine for the one after. */
    ghost predicate BusyOnce(k: nat) { Refuses(k) && Through(k + MAX_RETRIES + 1) }

    /** No fault from exchange `k` on. */
    ghost predicate FineFrom(k: nat) { forall n :: n >= k ==> plan(n).Fine? }

    lemma FineIsThrough()
      ensures forall k {:trigger Through(k)} :: plan(k).Fine? ==> Through(k)
    {
      forall k: nat | plan(k).Fine? ensures Through(k) { assert ThroughAfter(k, 0); }
    }

    /** From exchange `k` on there is no fault, unless the first request meets a server that is too busy for it. */
    ghost predicate Starts(k: nat, busy: bool)
    {
      if busy then Refuses(k) && FineFrom(k + MAX_RETRIES + 1) else FineFrom(k)
    }

    ghost predicate FineTwice(k: nat) { plan(k).Fine? && plan(k + 1).Fine? }

    /** The reply to a request is lost after it took effect, and the next try is answered. */
    ghost predicate LosesUpload(k: nat) { plan(k) == Lost(true) && plan(k + 1).Fine? }

    lemma PatientIsHonest()
      requires Patient()
      ensures Honest()
    {
      forall n: nat | plan(n).Says? ensures ServerError(plan(n).answer.status) {
        assert Through(n);
        var i :| ThroughAfter(n, i);
        assert Passing(plan(n));
      }
    }

    method Exchange(req: Request) returns (reply: Reply)
      modifies this
      ensures (reply, site) == Transmit(c, plan(old(clock)), old(site), req) && clock == old(clock) + 1
      ensures history == old(history) + [site.store]
    {
      var (r, s) := Transmit(c, plan(clock), site, req);
      reply, site, clock, history := r, s, clock + 1, history + [s.store];
    }

    /** Every state since `mark` is one of two. */
    ghost predicate Among(mark: nat, a: Store, b: Store)
      reads this
    {
      mark <= |history| && forall i :: mark <= i < |history| ==> history[i] == a || history[i] == b
    }

    /** The retry loop every request goes through: a 5xx or a lost reply is tried again three times. */
    method Tries(req: Request) returns (reply: Reply)
      modifies this
      ensures var s := old(site.store);
        Among(|old(history)|, s, Effect(c, s, req)) && (site.store == s || site.store == Effect(c, s, req))
      ensures |old(history)| < |history| && old(history) <= history
      ensures old(clock) < clock && Tried(plan, old(clock), clock - old(clock))
      ensures (reply, site) == Exchanges(c, plan, old(clock), clock - old(clock), old(site), req)
    {
      ghost var s, mark, k := site, |history|, clock;
      ghost var e := Effect(c, s.store, req);
      for attempt := 0 to MAX_RETRIES + 1
        invariant attempt <= MAX_RETRIES
        invariant Among(mark, s.store, e) && (site.store == s.store || site.store == e)
        invariant old(history) <= history && clock == k + attempt
        invariant site == Exchanges(c, plan, k, attempt, s, req).1
        invariant forall j :: k <= j < clock ==> Retried(plan(j))
      {
        TransmitEffect(c, plan(clock), s.store, site, req);
        reply := Exchange(req);
        if attempt == MAX_RETRIES || (reply.Replied? && !ServerError(reply.answer.status)) { return; }
      }
      assert false;
    }

    /** A request, and what is known of its reply: on every plan, and where it gets through or is refused. */
    method Send(req: Request) returns (reply: Reply)
      modifies this
      ensures var s := old(site.store);
        Among(|old(history)|, s, Effect(c, s, req)) && (site.store == s || site.store == Effect(c, s, req))
      ensures |old(history)| < |history| && old(history) <= history
      ensures Honest() && reply.Replied? && !ServerError(reply.answer.status) ==>
        Settled(c, old(site), req, reply.answer, site)
      ensures old(clock) < clock && Tried(plan, old(clock), clock - old(clock))
      ensures (reply, site) == Exchanges(c, plan, old(clock), clock - old(clock), old(site), req)
      ensures Through(old(clock)) ==> (reply, site) == Transmit(c, Fine, old(site), req)
      ensures Refuses(old(clock)) ==>
        reply.Replied? && ServerError(reply.answer.status) && site == old(site) && clock == old(clock) + MAX_RETRIES + 1
    {
      ghost var k, before := clock, site;
      reply := Tries(req);
      if Through(k) {
        var i :| ThroughAfter(k, i);
        GotThrough(c, plan, k, clock - k, i, before, req);
      }
      if Honest() && reply.Replied? && !ServerError(reply.answer.status) {
        HonestReply(c, plan, k, clock - k, before, req);
      }
      if Refuses(k) { TurnedAway(c, plan, k, clock - k, before, req); }
    }
  }

  lemma TransmitEffect(c: Codec, f: Fault, s: Store, site: Site, req: Request)
    requires site.store == s || site.store == Effect(c, s, req)
    ensures var after := Transmit(c, f, site, req).1.store; after == s || after == Effect(c, s, req)
  {
    EffectTwice(c, s, req);
  }

  lemma {:induction false} ExchangesEffect(c: Codec, plan: nat -> Fault, k: nat, n: nat, site: Site, req: Request)
    ensures var after := Exchanges(c, plan, k, n, site, req).1.store;
      after == site.store || after == Effect(c, site.store, req)
  {
    if n > 0 {
      ExchangesEffect(c, plan, k, n - 1, site, req);
      TransmitEffect(c, plan(k + n - 1), site.store, Exchanges(c, plan, k, n - 1, site, req).1, req);
    }
  }

  /** An honest last reply that is no 5xx is true. */
  lemma HonestReply(c: Codec, plan: nat -> Fault, k: nat, n: nat, site: Site, req: Request)
    requires n > 0 && forall j :: plan(j).Says? ==> ServerError(plan(j).answer.status)
    requires var reply := Exchanges(c, plan, k, n, site, req).0; reply.Replied? && !ServerError(reply.answer.status)
    ensures var (reply, after) := Exchanges(c, plan, k, n, site, req); Settled(c, site, req, reply.answer, after)
  {
    ExchangesEffect(c, plan, k, n - 1, site, req);
    EffectTwice(c, site.store, req);
  }

  /** The exchanges of one request: all but the last are tried again, and so is the last if tries are left. */
  ghost predicate Tried(plan: nat -> Fault, k: nat, n: nat)
  {
    && 0 < n <= MAX_RETRIES + 1 && (forall j :: k <= j < k + n - 1 ==> Retried(plan(j)))
    && (n <= MAX_RETRIES ==> !Retried(plan(k + n - 1)))
  }

  lemma GotThrough(c: Codec, plan: nat -> Fault, k: nat, n: nat, i: nat, site: Site, req: Request)
    requires Tried(plan, k, n) && i <= MAX_RETRIES && plan(k + i).Fine?
    requires forall j :: k <= j < k + i ==> Passing(plan(j))
    ensures Exchanges(c, plan, k, n, site, req) == Transmit(c, Fine, site, req)
  {
    var last := plan(k + n - 1);
    assert !Retried(plan(k + i));
    assert n <= i ==> Passing(last);
    assert n == i + 1;
    NothingDone(c, plan, k, i, site, req);
  }

  lemma TurnedAway(c: Codec, plan: nat -> Fault, k: nat, n: nat, site: Site, req: Request)
    requires Tried(plan, k, n)
    requires forall j :: k <= j < k + MAX_RETRIES + 1 ==> Passing(plan(j)) && plan(j).Says?
    ensures n == MAX_RETRIES + 1 && Exchanges(c, plan, k, n, site, req) == (Replied(plan(k + n - 1).answer), site)
  {
    assert Retried(plan(k + n - 1));
    NothingDone(c, plan, k, n, site, req);
    NothingDone(c, plan, k, n - 1, site, req);
  }

  /** An upload whose reply is lost after it took effect is tried again on a session that is gone. */
  lemma UploadLost(c: Codec, plan: nat -> Fault, k: nat, n: nat, site: Site, session: nat, digest: string, data: Bytes)
    requires Tried(plan, k, n) && plan(k) == Lost(true) && plan(k + 1).Fine?
    requires session in site.sessions && c.DigestOf(data) == digest
    ensures var (reply, after) := Exchanges(c, plan, k, n, site, PutBlob(session, digest, data));
      reply == Replied(Answer(404, None)) && digest in after.store.blobs
  {
    assert !Retried(plan(k + 1));
    assert n > 1 by { if n == 1 { assert Retried(plan(k + n - 1)); } }
    assert n == 2;
    var req := PutBlob(session, digest, data);
    assert Exchanges(c, plan, k, 1, site, req) == Transmit(c, Lost(true), site, req);
  }

  /** Faults without effect leave everything as it was. */
  lemma {:induction false} NothingDone(c: Codec, plan: nat -> Fault, k: nat, n: nat, site: Site, req: Request)
    requires forall j :: k <= j < k + n ==> Passing(plan(j))
    ensures Exchanges(c, plan, k, n, site, req).1 == site
  {
    if n > 0 { NothingDone(c, plan, k, n - 1, site, req); }
  }

  lemma EffectTwice(c: Codec, s: Store, req: Request)
    ensures Effect(c, Effect(c, s, req), req) == Effect(c, s, req)
  {
  }

  /** A reply that is no fault tells the truth about the content the request leaves behind. */
  predicate Settled(c: Codec, before: Site, req: Request, answer: Answer, after: Site)
  {
    match req
    case HeadBlob(digest) => after.store == before.store
      && answer.status == (if digest in before.store.blobs then 200 else 404)
    case HeadManifest(reference) =>
      after.store == before.store && answer.status == (if Resolve(before.store, reference).Some? then 200 else 404)
    case StartUpload => after.store == before.store
    case PutBlob(_, digest, data) =>
      answer.status == 200 || answer.status == 201 ==>
        after.store == Effect(c, before.store, req) && c.DigestOf(data) == digest
    case PutManifest(reference, data) =>
      answer.status == 200 || answer.status == 201 ==>
        after.store == Effect(c, before.store, req) && (Addressable(reference) ==> c.DigestOf(data) == reference)
  }
}
