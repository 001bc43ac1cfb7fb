/**
 * Registries a pull can rely on although replies are lost: the retries bring the response
 * exactly when enough replies come through.
 */
module Deliveries {
  import opened Wrappers
  import opened BearerChallenge
  import opened Wire
  import opened RetryFacts
  import opened Pull

  /** What is served is neither a fault nor a challenge. */
  ghost predicate Unfailing(up: Upstream) { forall t :: Plain(up.serve(t)) && !Fault(Got(up.serve(t))) }

  // ── an open registry ──

  /** Every GET brings the served response, but those with these numbers are lost or met by a 5xx. */
  ghost predicate OpenRegistry(srv: Server, up: Upstream, busy: nat -> bool)
  {
    && (forall n, t, a {:trigger srv.answer(n, t, a)} ::
          if busy(n) then Fault(srv.answer(n, t, a)) else srv.answer(n, t, a) == Got(up.serve(t)))
    && (forall n :: srv.credentials(n) == Ok(None))
    && (forall s :: up.ready(s) <==> s.bearer.None?)
  }

  /** How many of the next `left` GETs are busy before the first that is not. */
  ghost function BusyRun(busy: nat -> bool, n: nat, left: nat): (k: nat)
    ensures k <= left && (forall j :: n <= j < n + k ==> busy(j)) && (k < left ==> !busy(n + k))
    decreases left
  {
    if left == 0 || !busy(n) then 0 else 1 + BusyRun(busy, n + 1, left - 1)
  }

  /** Of any four GETs in a row one is answered. */
  ghost predicate OneInFour(busy: nat -> bool) { forall n {:trigger OneFree(busy, n)} :: OneFree(busy, n) }

  ghost predicate OneFree(busy: nat -> bool, n: nat) { exists i :: n <= i < n + 4 && !busy(i) }

  /** A call of an open registry. */
  lemma OpenCall(srv: Server, up: Upstream, busy: nat -> bool, t: Target, s: Session)
    requires OpenRegistry(srv, up, busy) && Unfailing(up) && up.ready(s)
    ensures Call(srv, t, s).0 == Resp(up.serve(t)) <==> OneFree(busy, s.gets)
    ensures OneFree(busy, s.gets) ==> Call(srv, t, s).1.bearer == None
  {
    var k := BusyRun(busy, s.gets, 4);
    forall j: nat ensures Nth(srv, t, s, j) == Some(srv.answer(s.gets + j, t, None)) {
      assert Header(srv, s, j) == Some(None);
    }
    assert Leading(srv, t, s, 4, k);
    if k < 4 { FirstAnswer(srv, t, s, k, up.serve(t)); } else { FourFaults(srv, t, s); }
  }

  /** An open registry delivers exactly when one GET in four is answered. */
  lemma OpenDelivers(srv: Server, up: Upstream, busy: nat -> bool)
    requires OpenRegistry(srv, up, busy) && Unfailing(up)
    ensures Delivers(srv, up) <==> OneInFour(busy)
  {
    forall t, s | up.ready(s)
      ensures Call(srv, t, s).0 == Resp(up.serve(t)) <==> OneFree(busy, s.gets)
      ensures OneFree(busy, s.gets) ==> Call(srv, t, s).1.bearer == None
    {
      OpenCall(srv, up, busy, t, s);
    }
    if Delivers(srv, up) {
      forall n ensures OneFree(busy, n) {
        var s := Session(n, 0, 0, None);
        assert up.ready(s) && Call(srv, ManifestAt(""), s).0 == Resp(up.serve(ManifestAt("")));
      }
    }
  }

  // ── a registry that wants a token ──

  /** A challenge that names a realm. */
  ghost predicate Invites(r: Response)
  {
    && r.status == 401 && r.challenge.Some?
    && forall h {:trigger Demands(r, h)} :: Demands(r, h) ==> Challenge(h).Some? && "realm" in Challenge(h).value
  }

  /** A registry that wants a token it issues: everything else is challenged. */
  ghost predicate TokenRegistry(srv: Server, up: Upstream, busy: nat -> bool, tok: string, refusal: Response)
  {
    && (forall n, t, a {:trigger srv.answer(n, t, a)} ::
          if busy(n) then Fault(srv.answer(n, t, a))
          else
            && (a == Some("Bearer " + tok) ==> srv.answer(n, t, a) == Got(up.serve(t)))
            && (a == None ==> srv.answer(n, t, a) == Got(refusal)))
    && Invites(refusal) && (forall n, url, a :: TokenIn(srv.grant(n, url, a)) == Some(tok))
    && (forall n :: srv.credentials(n) == Ok(None)) && srv.headerOk("Bearer " + tok)
    && (forall s :: up.ready(s) <==> s.bearer == None || s.bearer == Some(tok))
  }

  /** Of any four GETs in a row two are answered: the challenge and the response. */
  ghost predicate TwoInFour(busy: nat -> bool) { forall n {:trigger TwoFree(busy, n)} :: TwoFree(busy, n) }

  ghost predicate TwoFree(busy: nat -> bool, n: nat) { exists i, j :: n <= i < j < n + 4 && !busy(i) && !busy(j) }

  lemma CachedReplies(srv: Server, up: Upstream, busy: nat -> bool, tok: string, refusal: Response, t: Target,
      s: Session, j: nat)
    requires TokenRegistry(srv, up, busy, tok, refusal) && s.bearer == Some(tok)
    ensures if busy(s.gets + j) then Faulted(Nth(srv, t, s, j)) else Nth(srv, t, s, j) == Some(Got(up.serve(t)))
  {
    assert Header(srv, s, j) == Some(Some("Bearer " + tok));
  }

  lemma BareReplies(srv: Server, up: Upstream, busy: nat -> bool, tok: string, refusal: Response, t: Target,
      s: Session, j: nat)
    requires TokenRegistry(srv, up, busy, tok, refusal) && s.bearer == None
    ensures Header(srv, s, j) == Some(None)
    ensures if busy(s.gets + j) then Faulted(Nth(srv, t, s, j)) else Nth(srv, t, s, j) == Some(Got(refusal))
  {
  }

  lemma CachedRun(srv: Server, up: Upstream, busy: nat -> bool, tok: string, refusal: Response, t: Target,
      s: Session, left: nat, m: nat)
    requires TokenRegistry(srv, up, busy, tok, refusal) && Unfailing(up) && s.bearer == Some(tok)
    requires m == BusyRun(busy, s.gets, left)
    ensures Leading(srv, t, s, left, m) && (m < left ==> Nth(srv, t, s, m) == Some(Got(up.serve(t))))
  {
    forall j: nat { CachedReplies(srv, up, busy, tok, refusal, t, s, j); }
  }

  lemma BareRun(srv: Server, up: Upstream, busy: nat -> bool, tok: string, refusal: Response, t: Target, s: Session)
    requires TokenRegistry(srv, up, busy, tok, refusal) && s.bearer == None
    ensures var k := BusyRun(busy, s.gets, 4);
      && Leading(srv, t, s, 4, k) && (k < 4 ==> Nth(srv, t, s, k) == Some(Got(refusal)))
  {
    forall j: nat { BareReplies(srv, up, busy, tok, refusal, t, s, j); }
  }

  /** Once the token is cached one answer is enough. */
  lemma TokenCall(srv: Server, up: Upstream, busy: nat -> bool, tok: string, refusal: Response, t: Target, s: Session)
    requires TokenRegistry(srv, up, busy, tok, refusal) && Unfailing(up) && s.bearer == Some(tok)
    requires OneFree(busy, s.gets)
    ensures Call(srv, t, s).0 == Resp(up.serve(t)) && Call(srv, t, s).1.bearer == Some(tok)
  {
    var k := BusyRun(busy, s.gets, 4);
    CachedRun(srv, up, busy, tok, refusal, t, s, 4, k);
    FirstAnswer(srv, t, s, k, up.serve(t));
  }

  /** The token endpoint answers the challenge. */
  lemma ChallengeGranted(srv: Server, up: Upstream, busy: nat -> bool, tok: string, refusal: Response, t: Target,
      s: Session, k: nat)
    returns (reply: TokenReply)
    requires TokenRegistry(srv, up, busy, tok, refusal) && s.bearer == None && k == BusyRun(busy, s.gets, 4) < 4
    ensures Challenges(srv, t, s, k, refusal, Some(reply)) && TokenIn(reply) == Some(tok)
  {
    BareRun(srv, up, busy, tok, refusal, t, s);
    BareReplies(srv, up, busy, tok, refusal, t, s, k);
    reply := Invited(srv, s, k, refusal, tok);
  }

  lemma Invited(srv: Server, s: Session, k: nat, refusal: Response, tok: string) returns (reply: TokenReply)
    requires Invites(refusal) && Header(srv, s, k) == Some(None)
    requires forall n, url, a :: TokenIn(srv.grant(n, url, a)) == Some(tok)
    ensures Draws(srv, s, k, refusal, Some(reply)) && TokenIn(reply) == Some(tok)
  {
    var h := refusal.challenge.value;
    assert Demands(refusal, h);
    var ch := Challenge(h).value;
    reply := TokenAnswer(srv, s.tokens, ch, None).value;
    assert Wants(refusal, ch);
  }

  /** Without a token two answers are needed, the challenge and the response. */
  lemma FirstTokenCall(srv: Server, up: Upstream, busy: nat -> bool, tok: string, refusal: Response, t: Target,
      s: Session)
    requires TokenRegistry(srv, up, busy, tok, refusal) && Unfailing(up) && s.bearer == None
    ensures Call(srv, t, s).0 == Resp(up.serve(t)) <==> TwoFree(busy, s.gets)
    ensures TwoFree(busy, s.gets) ==> Call(srv, t, s).1.bearer == Some(tok)
  {
    var k := BusyRun(busy, s.gets, 4);
    if k == 4 {
      BareRun(srv, up, busy, tok, refusal, t, s);
      FourFaults(srv, t, s);
    } else {
      SecondAnswer(srv, up, busy, tok, refusal, t, s, k, BusyRun(busy, s.gets + k + 1, 3 - k));
    }
  }

  lemma SecondAnswer(srv: Server, up: Upstream, busy: nat -> bool, tok: string, refusal: Response, t: Target,
      s: Session, k: nat, m: nat)
    requires TokenRegistry(srv, up, busy, tok, refusal) && Unfailing(up) && s.bearer == None
    requires k == BusyRun(busy, s.gets, 4) < 4 && m == BusyRun(busy, s.gets + k + 1, 3 - k)
    ensures Call(srv, t, s).0 == Resp(up.serve(t)) <==> m < 3 - k
    ensures m < 3 - k ==> Call(srv, t, s).1.bearer == Some(tok)
  {
    var reply := ChallengeGranted(srv, up, busy, tok, refusal, t, s, k);
    CachedRun(srv, up, busy, tok, refusal, t, WithToken(s, k, tok), 3 - k, m);
    GoesOn(srv, t, s, k, refusal, reply, tok, m, up.serve(t));
  }

  /** Once the challenge is answered, the call ends in the response exactly when a try is left for it. */
  lemma GoesOn(srv: Server, t: Target, s: Session, k: nat, refusal: Response, reply: TokenReply, tok: string, m: nat,
      served: Response)
    requires Challenges(srv, t, s, k, refusal, Some(reply)) && TokenIn(reply) == Some(tok) && !Fault(Got(served))
    requires Leading(srv, t, WithToken(s, k, tok), 3 - k, m)
    requires m < 3 - k ==> Nth(srv, t, WithToken(s, k, tok), m) == Some(Got(served))
    ensures Call(srv, t, s).0 == Resp(served) <==> m < 3 - k
    ensures m < 3 - k ==> Call(srv, t, s).1.bearer == Some(tok)
  {
    TokenUsed(srv, t, s, k, refusal, reply, tok, m);
    SecondEnds(srv, t, WithToken(s, k, tok), k, m, LostBefore(srv, t, s, k), Call(srv, t, s), served);
  }

  lemma SecondEnds(srv: Server, t: Target, s: Session, k: nat, m: nat, lost: bool, end: (Outcome, Session),
      served: Response)
    requires k + m <= 3 && EndsWithToken(srv, t, s, k, m, lost, end) && !Fault(Got(served))
    requires m < 3 - k ==> Nth(srv, t, s, m) == Some(Got(served))
    requires forall j :: 0 <= j < m ==> Faulted(Nth(srv, t, s, j))
    ensures end.0 == Resp(served) <==> m < 3 - k
    ensures m < 3 - k ==> end.1.bearer == s.bearer
  {
  }

  lemma TokenReplies(srv: Server, up: Upstream, busy: nat -> bool, tok: string, refusal: Response, t: Target,
      s: Session)
    requires TokenRegistry(srv, up, busy, tok, refusal) && Unfailing(up) && up.ready(s) && TwoInFour(busy)
    ensures Call(srv, t, s).0 == Resp(up.serve(t)) && up.ready(Call(srv, t, s).1)
  {
    assert TwoFree(busy, s.gets) && OneFree(busy, s.gets);
    if s.bearer == None {
      FirstTokenCall(srv, up, busy, tok, refusal, t, s);
    } else {
      TokenCall(srv, up, busy, tok, refusal, t, s);
    }
  }

  /** A registry that wants a token delivers exactly when two GETs in four are answered. */
  lemma TokenDelivers(srv: Server, up: Upstream, busy: nat -> bool, tok: string, refusal: Response)
    requires TokenRegistry(srv, up, busy, tok, refusal) && Unfailing(up)
    ensures Delivers(srv, up) <==> TwoInFour(busy)
  {
    if TwoInFour(busy) {
      forall t, s | up.ready(s) ensures Call(srv, t, s).0 == Resp(up.serve(t)) && up.ready(Call(srv, t, s).1) {
        TokenReplies(srv, up, busy, tok, refusal, t, s);
      }
    }
    if Delivers(srv, up) {
      forall n ensures TwoFree(busy, n) {
        var s := Session(n, 0, 0, None);
        assert up.ready(s) && Call(srv, ManifestAt(""), s).0 == Resp(up.serve(ManifestAt("")));
        FirstTokenCall(srv, up, busy, tok, refusal, ManifestAt(""), s);
      }
    }
  }
}
