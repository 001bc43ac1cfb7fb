/** What a call comes to, read off the replies it meets: every trace, to the last field of the session. */
module RetryFacts {
  import opened Wrappers
  import opened BearerChallenge
  import opened Wire

  // ── a trace ──

  /** The header of the `k`-th GET from a session: a cached bearer, else what the credential chain has. */
  function Header(srv: Server, s: Session, k: nat): Option<Option<string>>
  {
    var chain := srv.credentials(s.gets + k);
    var h := if s.bearer.Some? then Some("Bearer " + s.bearer.value) else if chain.Ok? then chain.value else None;
    if (s.bearer.None? && chain.Err?) || (h.Some? && !srv.headerOk(h.value)) then None else Some(h)
  }

  /** The reply to it, if it can be sent. */
  function Nth(srv: Server, target: Target, s: Session, k: nat): Option<Reply>
  {
    var h := Header(srv, s, k);
    if h.Some? then Some(srv.answer(s.gets + k, target, h.value)) else None
  }

  /** A reply worth another try. */
  predicate Fault(r: Reply) { r.Lost? || 500 <= r.response.status < 600 }

  predicate Faulted(r: Option<Reply>) { r.Some? && Fault(r.value) }

  /** From this session and with these many tries left, exactly the first `k` replies are faults. */
  ghost predicate Leading(srv: Server, target: Target, s: Session, left: nat, k: nat)
  {
    && k <= left && (forall j :: 0 <= j < k ==> Faulted(Nth(srv, target, s, j)))
    && (k < left ==> !Faulted(Nth(srv, target, s, k)))
  }

  lemma {:induction false} LeadingExists(srv: Server, target: Target, s: Session, left: nat)
    ensures exists k :: Leading(srv, target, s, left, k)
  {
    if left == 0 {
      assert Leading(srv, target, s, 0, 0);
    } else {
      LeadingExists(srv, target, s, left - 1);
      var k :| Leading(srv, target, s, left - 1, k);
      var next := if k == left - 1 && Faulted(Nth(srv, target, s, k)) then left else k;
      assert Leading(srv, target, s, left, next);
    }
  }

  predicate LostBefore(srv: Server, target: Target, s: Session, k: nat)
  {
    exists j :: 0 <= j < k && Nth(srv, target, s, j) == Some(Lost)
  }

  /** Milliseconds slept before the `k`-th attempt. */
  function Slept(k: nat): nat { if k == 0 then 0 else if k == 1 then 200 else if k == 2 then 600 else 1400 }

  /** The session after attempts `from` to `to` were all faults. */
  function After(s: Session, from: nat, to: nat): Session
    requires from <= to <= 4
  {
    Session(s.gets + (to - from), s.tokens, s.slept + (Slept(to) - Slept(from)), s.bearer)
  }

  // ── one turn ──

  /** What a call does with a reply that is not tried again. */
  type Settler = (State, Session, Option<string>, Response) -> Turn

  ghost predicate IsSettler(settle: Settler, srv: Server)
  {
    forall st, s, auth, r {:trigger Settle(srv, st, s, auth, r)} ::
      settle(st, s, auth, r) == Settle(srv, st, s, auth, r)
  }

  /** Known by its values only. */
  ghost function Settles(srv: Server): (settle: Settler)
    ensures IsSettler(settle, srv)
  {
    var whole: Settler := (st: State, s: Session, auth: Option<string>, r: Response) => Settle(srv, st, s, auth, r);
    assert IsSettler(whole, srv);
    var settle: Settler :| IsSettler(settle, srv);
    settle
  }

  /** A turn as a function of the reply alone. */
  function TurnBy(settle: Settler, srv: Server, target: Target, st: State, a: nat): Turn
    requires a <= 3
  {
    match Nth(srv, target, st.s, 0)
    case None => Done(Failed(BadCredentials), st.s)
    case Some(reply) =>
      if reply.Lost? || (a < 3 && Fault(reply)) then
        Again(State(After(st.s, a, a + 1), st.danced, st.failed || reply.Lost?))
      else settle(st, Replying(st.s), Header(srv, st.s, 0).value, reply.response)
  }

  function Replying(s: Session): Session { s.(gets := s.gets + 1) }

  lemma TurnIs(settle: Settler, srv: Server, target: Target, st: State, a: nat)
    requires IsSettler(settle, srv) && a <= 3
    ensures TakeTurn(srv, target, st, a) == TurnBy(settle, srv, target, st, a)
  {
    HeaderSent(srv, st.s);
    var auth := AuthFor(srv, st.s);
    if auth.Ok? { ReplyIs(settle, srv, st, a, auth.value, srv.answer(st.s.gets, target, auth.value)); }
  }

  lemma ReplyIs(settle: Settler, srv: Server, st: State, a: nat, auth: Option<string>, reply: Reply)
    requires IsSettler(settle, srv) && a <= 3
    ensures OnReply(srv, st, a, auth, reply) ==
      if reply.Lost? || (a < 3 && Fault(reply)) then
        Again(State(After(st.s, a, a + 1), st.danced, st.failed || reply.Lost?))
      else settle(st, Replying(st.s), auth, reply.response)
  {
    Backoffs();
  }

  lemma HeaderSent(srv: Server, s: Session)
    ensures AuthFor(srv, s) == match Header(srv, s, 0) case None => Err(BadCredentials) case Some(h) => Ok(h)
  {
  }

  lemma Backoffs()
    ensures Backoff(0) == 200 && Backoff(1) == 400 && Backoff(2) == 800
  {
    assert Pow2(0) == 1 && Pow2(1) == 2 && Pow2(2) == 4;
  }

  /** These are the turns of a call. */
  ghost predicate Walks(turn: Turner, settle: Settler, srv: Server, target: Target)
  {
    forall st, a: nat {:trigger TurnBy(settle, srv, target, st, a)} :: a <= 3 ==>
      turn(st, a) == TurnBy(settle, srv, target, st, a)
  }

  lemma CallWalks(srv: Server, target: Target)
    ensures Walks(Turns(srv, target), Settles(srv), srv, target)
  {
    var turn, settle := Turns(srv, target), Settles(srv);
    forall st, a: nat | a <= 3 ensures turn(st, a) == TurnBy(settle, srv, target, st, a) {
      assert turn(st, a) == TakeTurn(srv, target, st, a);
      TurnIs(settle, srv, target, st, a);
    }
  }

  lemma SendStep(turn: Turner, st: State, a: nat)
    requires a <= 3
    ensures Send(turn, st, a) ==
      match turn(st, a)
      case Done(out, s) => (out, s)
      case Again(next) => Send(turn, next, a + 1)
  {
  }

  // ── the faults are waited out ──

  /** A state of the loop is left for the next one. */
  ghost predicate LeadsTo(turn: Turner, states: nat -> State, k: nat) { turn(states(k), k) == Again(states(k + 1)) }

  lemma {:induction false} SendThrough(turn: Turner, states: nat -> State, a: nat, b: nat)
    requires a <= b <= 4 && forall k :: a <= k < b ==> LeadsTo(turn, states, k)
    ensures Send(turn, states(a), a) == Send(turn, states(b), b)
    decreases b - a
  {
    if a < b {
      assert LeadsTo(turn, states, a);
      SendStep(turn, states(a), a);
      SendThrough(turn, states, a + 1, b);
    }
  }

  /** The state of a call in which attempts `a` to `b` were faults. */
  function Met(srv: Server, target: Target, st: State, a: nat, b: nat): State
    requires a <= b <= 4
  {
    State(After(st.s, a, b), st.danced, st.failed || LostBefore(srv, target, st.s, b - a))
  }

  function Meeting(srv: Server, target: Target, st: State, a: nat): nat -> State
  {
    (b: nat) => if a <= b <= 4 then Met(srv, target, st, a, b) else st
  }

  /** From there on the replies are the later ones. */
  lemma Shifted(srv: Server, target: Target, st: State, a: nat, b: nat)
    requires a <= b <= 4
    ensures Nth(srv, target, Met(srv, target, st, a, b).s, 0) == Nth(srv, target, st.s, b - a)
    ensures Header(srv, Met(srv, target, st, a, b).s, 0) == Header(srv, st.s, b - a)
  {
  }

  lemma LostNext(srv: Server, target: Target, s: Session, k: nat)
    ensures LostBefore(srv, target, s, k + 1) <==>
      LostBefore(srv, target, s, k) || Nth(srv, target, s, k) == Some(Lost)
  {
  }

  lemma MeetsNext(turn: Turner, settle: Settler, srv: Server, target: Target, st: State, a: nat, b: nat)
    requires Walks(turn, settle, srv, target) && a <= b <= 3 && Faulted(Nth(srv, target, st.s, b - a))
    requires b == 3 ==> Nth(srv, target, st.s, b - a) == Some(Lost)
    ensures turn(Met(srv, target, st, a, b), b) == Again(Met(srv, target, st, a, b + 1))
  {
    var mid := Met(srv, target, st, a, b);
    Shifted(srv, target, st, a, b);
    LostNext(srv, target, st.s, b - a);
    assert turn(mid, b) == TurnBy(settle, srv, target, mid, b);
  }

  /** Attempts `a` to `b` are all faults; beyond the last attempt only a lost reply leads on. */
  lemma WaitedOut(turn: Turner, settle: Settler, srv: Server, target: Target, st: State, a: nat, b: nat)
    requires Walks(turn, settle, srv, target) && a <= b <= 4
    requires forall j :: 0 <= j < b - a ==> Faulted(Nth(srv, target, st.s, j))
    requires b == 4 && a < b ==> Nth(srv, target, st.s, 3 - a) == Some(Lost)
    ensures Send(turn, st, a) == Send(turn, Met(srv, target, st, a, b), b)
  {
    var states := Meeting(srv, target, st, a);
    forall k | a <= k < b ensures LeadsTo(turn, states, k) {
      assert Faulted(Nth(srv, target, st.s, k - a));
      MeetsNext(turn, settle, srv, target, st, a, k);
    }
    SendThrough(turn, states, a, b);
    assert states(a) == st;
  }

  // ── the first reply that is no fault ──

  /** The response ends a call in this state. */
  ghost predicate Ends(settle: Settler, danced: bool, r: Response)
  {
    forall st: State, s, auth {:trigger settle(st, s, auth, r)} :: st.danced == danced ==>
      settle(st, s, auth, r) == Done(Resp(r), s)
  }

  /** The first reply that is no fault, unless it is a challenge, is returned. */
  lemma Replied(turn: Turner, settle: Settler, srv: Server, target: Target, st: State, a: nat, k: nat, r: Response)
    requires Walks(turn, settle, srv, target) && a + k <= 3 && Ends(settle, st.danced, r)
    requires forall j :: 0 <= j < k ==> Faulted(Nth(srv, target, st.s, j))
    requires Nth(srv, target, st.s, k) == Some(Got(r)) && (a + k == 3 || !Fault(Got(r)))
    ensures Send(turn, st, a) == (Resp(r), Replying(After(st.s, a, a + k)))
  {
    var mid := Met(srv, target, st, a, a + k);
    WaitedOut(turn, settle, srv, target, st, a, a + k);
    Shifted(srv, target, st, a, a + k);
    assert turn(mid, a + k) == TurnBy(settle, srv, target, mid, a + k);
    SendStep(turn, mid, a + k);
  }

  /** Where no header can be sent, the call ends. */
  lemma Stuck(turn: Turner, settle: Settler, srv: Server, target: Target, st: State, a: nat, k: nat)
    requires Walks(turn, settle, srv, target) && a + k <= 3 && Leading(srv, target, st.s, 4 - a, k)
    requires Nth(srv, target, st.s, k).None?
    ensures Send(turn, st, a) == (Failed(BadCredentials), After(st.s, a, a + k))
  {
    var mid := Met(srv, target, st, a, a + k);
    WaitedOut(turn, settle, srv, target, st, a, a + k);
    Shifted(srv, target, st, a, a + k);
    assert turn(mid, a + k) == TurnBy(settle, srv, target, mid, a + k);
    SendStep(turn, mid, a + k);
  }

  /** What the last of nothing but faults makes of a call. */
  function Faults(last: Option<Reply>): Outcome
  {
    if last.Some? && last.value.Got? then Resp(last.value.response) else Failed(Transport)
  }

  /** All tries left are faults: the last decides. */
  lemma Exhausted(turn: Turner, settle: Settler, srv: Server, target: Target, st: State, a: nat)
    requires Walks(turn, settle, srv, target) && a <= 3 && Leading(srv, target, st.s, 4 - a, 4 - a)
    requires forall r: Response :: 500 <= r.status < 600 ==> Ends(settle, st.danced, r)
    ensures Send(turn, st, a) == (Faults(Nth(srv, target, st.s, 3 - a)), After(st.s, a, 4))
  {
    var last := Nth(srv, target, st.s, 3 - a).value;
    if last.Lost? {
      WaitedOut(turn, settle, srv, target, st, a, 4);
      assert LostBefore(srv, target, st.s, 4 - a);
    } else {
      Replied(turn, settle, srv, target, st, a, 3 - a, last.response);
    }
  }

  // ── challenges ──

  /** The response is a challenge a client can read. */
  predicate Wants(r: Response, ch: map<string, string>)
  {
    r.status == 401 && r.challenge.Some? && Challenge(r.challenge.value) == Some(ch)
  }

  /** The response is a 401 with this header. */
  predicate Demands(r: Response, header: string) { r.status == 401 && r.challenge == Some(header) }

  ghost predicate Plain(r: Response)
  {
    forall h {:trigger Demands(r, h)} :: Demands(r, h) ==> Challenge(h).None?
  }

  lemma PlainEnds(srv: Server, r: Response, danced: bool)
    requires danced || Plain(r)
    ensures Ends(Settles(srv), danced, r)
  {
    var settle := Settles(srv);
    forall st: State, s, auth | st.danced == danced ensures settle(st, s, auth, r) == Done(Resp(r), s) {
      assert settle(st, s, auth, r) == Settle(srv, st, s, auth, r);
      if r.status == 401 && r.challenge.Some? { assert Demands(r, r.challenge.value); }
    }
  }

  lemma ErrorsEnd(srv: Server, danced: bool)
    ensures forall r: Response :: 500 <= r.status < 600 ==> Ends(Settles(srv), danced, r)
  {
    forall r: Response | 500 <= r.status < 600 ensures Ends(Settles(srv), danced, r) { PlainEnds(srv, r, danced); }
  }

  /** The token in an answer: a non-empty string under `token`, or under `access_token` when there is no `token`. */
  function TokenIn(t: TokenReply): Option<string>
  {
    if t.NoAnswer? || !(200 <= t.status < 300) || t.body.None? || !t.body.value.JObj? then None
    else
      var o := t.body.value.o;
      var key := if "token" in o then "token" else "access_token";
      if key in o && o[key].JStr? && o[key].s != "" then Some(o[key].s) else None
  }

  lemma TokenRead(t: TokenReply)
    ensures TokenOf(t) == match TokenIn(t) case None => Err(TokenRefused) case Some(tok) => Ok(tok)
  {
  }

  /** What the token endpoint says, if there is one: asked with the credentials of the challenged GET. */
  function TokenAnswer(srv: Server, tokens: nat, ch: map<string, string>, auth: Option<string>): Option<TokenReply>
  {
    if "realm" !in ch then None
    else
      var service := if "service" in ch then Some(ch["service"]) else None;
      var scope := if "scope" in ch then Some(ch["scope"]) else None;
      Some(srv.grant(tokens, TokenUrl(ch["realm"], service, scope), auth))
  }

  /** The token that was issued, if any. */
  function Issued(t: Option<TokenReply>): Option<string> { if t.Some? then TokenIn(t.value) else None }

  function Asking(s: Session, t: Option<TokenReply>): Session { if t.Some? then s.(tokens := s.tokens + 1) else s }

  /** The turn of a challenged call, when the token endpoint says `reply`. */
  function Challenged(asked: Session, reply: Option<TokenReply>, failed: bool): Turn
  {
    match Issued(reply)
    case None => Done(Failed(TokenRefused), Asking(asked, reply))
    case Some(tok) => Again(State(Asking(asked, reply).(bearer := Some(tok)), true, failed))
  }

  lemma ChallengeSettles(srv: Server, st: State, s: Session, auth: Option<string>, r: Response, ch: map<string, string>)
    requires !st.danced && Wants(r, ch)
    ensures Settles(srv)(st, s, auth, r) == Challenged(s, TokenAnswer(srv, s.tokens, ch, auth), st.failed)
  {
    assert Settles(srv)(st, s, auth, r) == Settle(srv, st, s, auth, r);
    assert ChallengeOf(r) == Some(ch);
    TokenFetched(srv, s, ch, auth);
  }

  lemma TokenFetched(srv: Server, s: Session, ch: map<string, string>, auth: Option<string>)
    ensures var reply := TokenAnswer(srv, s.tokens, ch, auth);
      FetchToken(srv, s, ch, auth) ==
        (match Issued(reply) case None => Err(TokenRefused) case Some(tok) => Ok(tok), Asking(s, reply))
  {
    var reply := TokenAnswer(srv, s.tokens, ch, auth);
    if reply.Some? { TokenRead(reply.value); }
  }

  // ── what a call comes to ──

  /**
   * Lost replies and 5xx replies are waited out, in any mix: the first other reply, unless it is
   * a challenge, is what the call returns, one GET and no token later.
   */
  lemma FirstAnswer(srv: Server, target: Target, s: Session, k: nat, r: Response)
    requires k <= 3 && Leading(srv, target, s, 4, k) && Nth(srv, target, s, k) == Some(Got(r)) && Plain(r)
    ensures Call(srv, target, s) == (Resp(r), Session(s.gets + k + 1, s.tokens, s.slept + Slept(k), s.bearer))
  {
    CallWalks(srv, target);
    PlainEnds(srv, r, false);
    Replied(Turns(srv, target), Settles(srv), srv, target, State(s, false, false), 0, k, r);
  }

  /** A GET that cannot be sent ends the call. */
  lemma NoHeader(srv: Server, target: Target, s: Session, k: nat)
    requires k <= 3 && Leading(srv, target, s, 4, k) && Nth(srv, target, s, k).None?
    ensures Call(srv, target, s) ==
      (Failed(BadCredentials), Session(s.gets + k, s.tokens, s.slept + Slept(k), s.bearer))
  {
    CallWalks(srv, target);
    Stuck(Turns(srv, target), Settles(srv), srv, target, State(s, false, false), 0, k);
  }

  /** Four faults: 1400 ms were slept; a lost last reply is an error, a 5xx is returned. */
  lemma FourFaults(srv: Server, target: Target, s: Session)
    requires Leading(srv, target, s, 4, 4)
    ensures Call(srv, target, s) ==
      (Faults(Nth(srv, target, s, 3)), Session(s.gets + 4, s.tokens, s.slept + 1400, s.bearer))
  {
    CallWalks(srv, target);
    ErrorsEnd(srv, false);
    Exhausted(Turns(srv, target), Settles(srv), srv, target, State(s, false, false), 0);
  }

  /** The `k`-th GET is sent with this header. */
  predicate SentWith(srv: Server, s: Session, k: nat, auth: Option<string>) { Header(srv, s, k) == Some(auth) }

  /** The response to the `k`-th GET is a challenge, and this is what the token endpoint says to it. */
  ghost predicate Draws(srv: Server, s: Session, k: nat, r: Response, reply: Option<TokenReply>)
  {
    forall auth {:trigger SentWith(srv, s, k, auth)} :: SentWith(srv, s, k, auth) ==>
      exists ch :: Wants(r, ch) && reply == TokenAnswer(srv, s.tokens, ch, auth)
  }

  /** The first reply that is no fault is a challenge. */
  ghost predicate Challenges(srv: Server, target: Target, s: Session, k: nat, r: Response, reply: Option<TokenReply>)
  {
    && k <= 3 && Leading(srv, target, s, 4, k) && Nth(srv, target, s, k) == Some(Got(r))
    && Draws(srv, s, k, r, reply)
  }

  lemma ChallengeAnswered(srv: Server, target: Target, s: Session, k: nat, r: Response, reply: Option<TokenReply>,
      mid: State)
    requires Challenges(srv, target, s, k, r, reply) && !mid.danced && mid.s == After(s, 0, k)
    ensures Settles(srv)(mid, Replying(mid.s), Header(srv, s, k).value, r) ==
      Challenged(Replying(mid.s), reply, mid.failed)
  {
    var auth := Header(srv, s, k).value;
    assert SentWith(srv, s, k, auth);
    var ch :| Wants(r, ch) && reply == TokenAnswer(srv, s.tokens, ch, auth);
    ChallengeSettles(srv, mid, Replying(mid.s), auth, r, ch);
  }

  /** The challenged turn. */
  lemma ChallengeTurn(turn: Turner, srv: Server, target: Target, s: Session, k: nat, r: Response,
      reply: Option<TokenReply>)
    requires Walks(turn, Settles(srv), srv, target) && Challenges(srv, target, s, k, r, reply)
    ensures var mid := Met(srv, target, State(s, false, false), 0, k);
      turn(mid, k) == Challenged(Replying(After(s, 0, k)), reply, mid.failed)
  {
    var st := State(s, false, false);
    var mid := Met(srv, target, st, 0, k);
    Shifted(srv, target, st, 0, k);
    assert turn(mid, k) == TurnBy(Settles(srv), srv, target, mid, k);
    ChallengeAnswered(srv, target, s, k, r, reply, mid);
  }

  lemma MeetsChallenge(turn: Turner, srv: Server, target: Target, s: Session, k: nat, r: Response,
      reply: Option<TokenReply>, st: State, a: nat)
    requires Walks(turn, Settles(srv), srv, target) && Challenges(srv, target, s, k, r, reply)
    requires st == State(s, false, false) && a == 0
    ensures Send(turn, st, a) ==
      match Challenged(Replying(After(s, 0, k)), reply, LostBefore(srv, target, s, k))
      case Done(out, s') => (out, s')
      case Again(next) => Send(turn, next, k + 1)
  {
    WaitedOut(turn, Settles(srv), srv, target, st, a, k);
    ChallengeTurn(turn, srv, target, s, k, r, reply);
    SendStep(turn, Met(srv, target, st, 0, k), k);
  }

  /** A challenge without a realm, or a token endpoint that issues no token, ends the call. */
  lemma TokenDenied(srv: Server, target: Target, s: Session, k: nat, r: Response, reply: Option<TokenReply>)
    requires Challenges(srv, target, s, k, r, reply) && Issued(reply).None?
    ensures Call(srv, target, s) == (Failed(TokenRefused), Asking(Replying(After(s, 0, k)), reply))
  {
    CallWalks(srv, target);
    MeetsChallenge(Turns(srv, target), srv, target, s, k, r, reply, State(s, false, false), 0);
  }

  /** The session that has just been given a token. */
  function WithToken(s: Session, k: nat, tok: string): Session
    requires k <= 3
  {
    Session(s.gets + k + 1, s.tokens + 1, s.slept + Slept(k), Some(tok))
  }

  /** What a call comes to that has its token after `k` faults, and then `m` more; `lost` if a reply was lost before. */
  predicate EndsWithToken(srv: Server, target: Target, s: Session, k: nat, m: nat, lost: bool, end: (Outcome, Session))
    requires k + m <= 3
  {
    var last, after := Nth(srv, target, s, m), After(s, k + 1, k + 1 + m);
    if k == 3 then end == (if lost then Failed(Transport) else Panic, s)
    else if m == 3 - k then end == (Faults(Nth(srv, target, s, m - 1)), after)
    else if last.None? then end == (Failed(BadCredentials), after)
    else last.value.Got? && end == (Resp(last.value.response), Replying(after))
  }

  /**
   * With the token the remaining tries go on as before, but for a second challenge, which is
   * returned; with none left a lost reply is the error, and without one the call panics.
   */
  lemma TokenUsed(srv: Server, target: Target, s: Session, k: nat, r: Response, reply: TokenReply, tok: string, m: nat)
    requires Challenges(srv, target, s, k, r, Some(reply)) && TokenIn(reply) == Some(tok)
    requires Leading(srv, target, WithToken(s, k, tok), 3 - k, m)
    ensures EndsWithToken(srv, target, WithToken(s, k, tok), k, m, LostBefore(srv, target, s, k), Call(srv, target, s))
  {
    var turn, st := Turns(srv, target), State(WithToken(s, k, tok), true, LostBefore(srv, target, s, k));
    CallWalks(srv, target);
    MeetsChallenge(turn, srv, target, s, k, r, Some(reply), State(s, false, false), 0);
    AfterToken(turn, srv, target, st, k, m);
  }

  lemma AfterToken(turn: Turner, srv: Server, target: Target, st: State, k: nat, m: nat)
    requires Walks(turn, Settles(srv), srv, target) && st.danced && k <= 3 && Leading(srv, target, st.s, 3 - k, m)
    ensures EndsWithToken(srv, target, st.s, k, m, st.failed, Send(turn, st, k + 1))
  {
    if m < 3 - k {
      var last := Nth(srv, target, st.s, m);
      if last.None? {
        Stuck(turn, Settles(srv), srv, target, st, k + 1, m);
      } else {
        PlainEnds(srv, last.value.response, true);
        Replied(turn, Settles(srv), srv, target, st, k + 1, m, last.value.response);
      }
    } else if k < 3 {
      ErrorsEnd(srv, true);
      Exhausted(turn, Settles(srv), srv, target, st, k + 1);
    }
  }

  /** These are all the ways a call can go. */
  lemma EveryTrace(srv: Server, target: Target, s: Session)
    ensures exists k :: k <= 4 && Leading(srv, target, s, 4, k) && OneWay(srv, target, s, k)
  {
    LeadingExists(srv, target, s, 4);
    var k :| Leading(srv, target, s, 4, k);
    if k < 4 && Nth(srv, target, s, k).Some? && !Plain(Nth(srv, target, s, k).value.response) {
      var r, auth := Nth(srv, target, s, k).value.response, Header(srv, s, k).value;
      var ch := Challenge(r.challenge.value).value;
      assert Wants(r, ch);
      assert Challenges(srv, target, s, k, r, TokenAnswer(srv, s.tokens, ch, auth));
    }
    assert OneWay(srv, target, s, k);
  }

  ghost predicate OneWay(srv: Server, target: Target, s: Session, k: nat)
  {
    k == 4 ||
    match Nth(srv, target, s, k)
    case None => true
    case Some(Lost) => false
    case Some(Got(r)) => Plain(r) || exists reply :: Challenges(srv, target, s, k, r, reply)
  }
}
