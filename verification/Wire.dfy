/**
 * `send_with_retry`: the bounded GET loop of a pull, with its once-only token request, its
 * session cache and its remembered transport error, over every possible trace of replies.
 */
module Wire {
  import opened Wrappers
  import opened Json
  import opened BearerChallenge
  import opened Retries

  datatype Target = ManifestAt(reference: string) | BlobAt(digest: string) | ReferrersAt(digest: string)

  /** A body delivers its data and then ends, or breaks off with a read error. */
  datatype Body = Body(data: Bytes, broken: bool)

  /** The two headers are `None` when absent or not visible ASCII. */
  datatype Response = Response(status: nat, digest: Option<string>, challenge: Option<string>, body: Body)

  datatype Reply = Lost | Got(response: Response)

  /** A token endpoint's answer; the body is `None` when it cannot be read as JSON. */
  datatype TokenReply = NoAnswer | Answered(status: nat, body: Option<Json>)

  /**
   * Everything outside the client: the reply to the n-th GET, to the n-th token request, the
   * `Authorization` header the credential chain yields before the n-th GET, and the test a
   * header value must pass.
   */
  datatype Server = Server(
    answer: (nat, Target, Option<string>) -> Reply,
    grant: (nat, string, Option<string>) -> TokenReply,
    credentials: nat -> Result<Option<string>, ()>,
    headerOk: string -> bool)

  datatype WireError = BadCredentials | TokenRefused | Transport

  /** What a call comes to; `Panic` is its final `expect` with no stored error. */
  datatype Outcome = Resp(response: Response) | Failed(error: WireError) | Panic

  const MAX_BACKOFF_MS: nat := 800

  predicate Success(status: nat) { 200 <= status < 300 }

  function Pow2(n: nat): nat { if n == 0 then 1 else 2 * Pow2(n - 1) }

  /** `sleep_backoff`. */
  function Backoff(attempt: nat): nat
  {
    var ms := 200 * Pow2(if attempt < 8 then attempt else 8);
    if ms < MAX_BACKOFF_MS then ms else MAX_BACKOFF_MS
  }

  // ── the session ──

  datatype Session = Session(gets: nat, tokens: nat, slept: nat, bearer: Option<string>)

  function Checked(srv: Server, header: string): Result<Option<string>, WireError>
  {
    if srv.headerOk(header) then Ok(Some(header)) else Err(BadCredentials)
  }

  /** Cached bearer first, then the credential chain, then nothing. */
  function AuthFor(srv: Server, s: Session): Result<Option<string>, WireError>
  {
    match s.bearer
    case Some(t) => Checked(srv, "Bearer " + t)
    case None =>
      match srv.credentials(s.gets)
      case Err(_) => Err(BadCredentials)
      case Ok(None) => Ok(None)
      case Ok(Some(h)) => Checked(srv, h)
  }

  /** `extract_bearer_challenge`. */
  function ChallengeOf(r: Response): Option<map<string, string>>
  {
    if r.status == 401 && r.challenge.Some? then Challenge(r.challenge.value) else None
  }

  function At(m: map<string, string>, k: string): Option<string> { if k in m then Some(m[k]) else None }

  /** The token in a token endpoint's answer: `token`, or `access_token` when that is absent. */
  function TokenOf(t: TokenReply): Result<string, WireError>
  {
    if t.NoAnswer? || !Success(t.status) || t.body.None? then Err(TokenRefused)
    else
      var key := if Field(t.body.value, "token").Some? then "token" else "access_token";
      var tok := StrField(t.body.value, key);
      if tok.None? || tok.value == "" then Err(TokenRefused) else Ok(tok.value)
  }

  /** `fetch_bearer_token`: without a realm no request is made. */
  function FetchToken(srv: Server, s: Session, ch: map<string, string>, auth: Option<string>): (Result<string,
      WireError>, Session)
  {
    if "realm" !in ch then (Err(TokenRefused), s)
    else
      var url := TokenUrl(ch["realm"], At(ch, "service"), At(ch, "scope"));
      (TokenOf(srv.grant(s.tokens, url, auth)), s.(tokens := s.tokens + 1))
  }

  function Asked(s: Session): Session { s.(gets := s.gets + 1) }
  function Waited(s: Session, attempt: nat): Session { s.(slept := s.slept + Backoff(attempt)) }

  /** What a call carries from one attempt to the next. */
  datatype State = State(s: Session, danced: bool, failed: bool)

  datatype Turn = Done(out: Outcome, s: Session) | Again(st: State)

  /** What a call does with a reply that is not retried. */
  function Settle(srv: Server, st: State, s: Session, auth: Option<string>, r: Response): Turn
  {
    var ch := ChallengeOf(r);
    if st.danced || ch.None? then Done(Resp(r), s)
    else
      var (tok, s') := FetchToken(srv, s, ch.value, auth);
      if tok.Err? then Done(Failed(tok.error), s') else Again(State(s'.(bearer := Some(tok.value)), true, st.failed))
  }

  /** What one attempt makes of its reply. */
  function OnReply(srv: Server, st: State, attempt: nat, auth: Option<string>, reply: Reply): Turn
  {
    match reply
    case Lost => Again(st.(s := if attempt < MAX_RETRIES then Waited(Asked(st.s), attempt) else Asked(st.s),
      failed := true))
    case Got(r) =>
      if ServerError(r.status) && attempt < MAX_RETRIES then Again(st.(s := Waited(Asked(st.s), attempt)))
      else Settle(srv, st, Asked(st.s), auth, r)
  }

  /** One attempt. */
  function TakeTurn(srv: Server, target: Target, st: State, attempt: nat): Turn
  {
    var auth := AuthFor(srv, st.s);
    if auth.Err? then Done(Failed(auth.error), st.s)
    else OnReply(srv, st, attempt, auth.value, srv.answer(st.s.gets, target, auth.value))
  }

  type Turner = (State, nat) -> Turn

  ghost predicate IsTurns(turn: Turner, srv: Server, target: Target)
  {
    forall st, k {:trigger TakeTurn(srv, target, st, k)} :: turn(st, k) == TakeTurn(srv, target, st, k)
  }

  /** The turns of a call, known by their values only. */
  ghost function Turns(srv: Server, target: Target): (turn: Turner)
    ensures IsTurns(turn, srv, target)
  {
    var whole: Turner := (st: State, attempt: nat) => TakeTurn(srv, target, st, attempt);
    assert IsTurns(whole, srv, target);
    var turn: Turner :| IsTurns(turn, srv, target);
    turn
  }

  /** The rest of a call from its `attempt`-th turn on. */
  function Send(turn: Turner, st: State, attempt: nat): (Outcome, Session)
    decreases MAX_RETRIES + 1 - attempt
  {
    if attempt > MAX_RETRIES then (if st.failed then Failed(Transport) else Panic, st.s)
    else
      match turn(st, attempt)
      case Done(out, s) => (out, s)
      case Again(next) => Send(turn, next, attempt + 1)
  }

  /** A whole call. */
  ghost function Call(srv: Server, target: Target, s: Session): (Outcome, Session)
  {
    Send(Turns(srv, target), State(s, false, false), 0)
  }

  // ── the client ──

  method BuildTokenUrl(ch: map<string, string>) returns (url: string)
    requires "realm" in ch
    ensures url == TokenUrl(ch["realm"], At(ch, "service"), At(ch, "scope"))
  {
    url := ch["realm"];
    var sep := if '?' in url then "&" else "?";
    if "service" in ch {
      url := url + (sep + "service=" + UrlEncode(ch["service"]));
      sep := "&";
    }
    if "scope" in ch {
      url := url + (sep + "scope=" + UrlEncode(ch["scope"]));
    }
  }

  class Client {
    const server: Server
    var gets: nat
    var tokens: nat
    var slept: nat
    var bearer: Option<string>

    constructor (server: Server)
      ensures this.server == server && Now() == Session(0, 0, 0, None)
    {
      this.server, gets, tokens, slept, bearer := server, 0, 0, 0, None;
    }

    function Now(): Session
      reads this
    {
      Session(gets, tokens, slept, bearer)
    }

    method FetchBearerToken(ch: map<string, string>, auth: Option<string>) returns (r: Result<string, WireError>)
      modifies this`tokens
      ensures (r, Now()) == FetchToken(server, old(Now()), ch, auth)
    {
      if "realm" !in ch { return Err(TokenRefused); }
      var url := BuildTokenUrl(ch);
      r := TokenOf(server.grant(tokens, url, auth));
      tokens := tokens + 1;
    }

    /** One attempt of the loop; `Some` ends the call. */
    method Attempt(target: Target, attempt: nat, danced: bool, failed: bool, ghost turn: Turner)
      returns (out: Option<Outcome>, danced': bool, failed': bool)
      requires IsTurns(turn, server, target)
      modifies this
      ensures turn(State(old(Now()), danced, failed), attempt) ==
        match out
        case Some(o) => Done(o, Now())
        case None => Again(State(Now(), danced', failed'))
    {
      danced', failed' := danced, failed;
      ghost var st := State(Now(), danced, failed);
      assert turn(st, attempt) == TakeTurn(server, target, st, attempt);
      var auth := AuthFor(server, Now());
      if auth.Err? { return Some(Failed(auth.error)), danced, failed; }
      var reply := server.answer(gets, target, auth.value);
      out, danced', failed' := TakeReply(reply, attempt, auth.value, danced, failed, st);
    }

    method TakeReply(reply: Reply, attempt: nat, auth: Option<string>, danced: bool, failed: bool, ghost st: State)
      returns (out: Option<Outcome>, danced': bool, failed': bool)
      requires st == State(Now(), danced, failed)
      modifies this
      ensures OnReply(server, st, attempt, auth, reply) ==
        match out
        case Some(o) => Done(o, Now())
        case None => Again(State(Now(), danced', failed'))
    {
      danced', failed' := danced, failed;
      gets := gets + 1;
      assert Now() == Asked(st.s);
      if reply.Lost? {
        if attempt < MAX_RETRIES { slept := slept + Backoff(attempt); }
        assert Now() == if attempt < MAX_RETRIES then Waited(Asked(st.s), attempt) else Asked(st.s);
        return None, danced, true;
      }
      if ServerError(reply.response.status) && attempt < MAX_RETRIES {
        slept := slept + Backoff(attempt);
        assert Now() == Waited(Asked(st.s), attempt);
        return None, danced, failed;
      }
      out, danced' := SettleReply(reply.response, auth, danced, failed, st);
    }

    /** A reply that is not retried ends the call, or is answered with a token request. */
    method SettleReply(r: Response, auth: Option<string>, danced: bool, failed: bool, ghost st: State)
      returns (out: Option<Outcome>, danced': bool)
      requires st.danced == danced && st.failed == failed
      modifies this
      ensures Settle(server, st, old(Now()), auth, r) ==
        match out
        case Some(o) => Done(o, Now())
        case None => Again(State(Now(), danced', failed))
    {
      danced' := danced;
      var ch := ChallengeOf(r);
      if danced || ch.None? { return Some(Resp(r)), danced; }
      var tok := FetchBearerToken(ch.value, auth);
      if tok.Err? { return Some(Failed(tok.error)), danced; }
      bearer := Some(tok.value);
      return None, true;
    }

    method Loop(target: Target, ghost turn: Turner) returns (out: Outcome)
      requires IsTurns(turn, server, target)
      modifies this
      ensures (out, Now()) == Send(turn, State(old(Now()), false, false), 0)
    {
      var failed, danced := false, false;
      for attempt := 0 to MAX_RETRIES + 1
        invariant Send(turn, State(old(Now()), false, false), 0) == Send(turn, State(Now(), danced, failed), attempt)
      {
        var done;
        done, danced, failed := Attempt(target, attempt, danced, failed, turn);
        if done.Some? { return done.value; }
      }
      out := if failed then Failed(Transport) else Panic;
    }

    method SendWithRetry(target: Target) returns (out: Outcome)
      modifies this
      ensures (out, Now()) == Call(server, target, old(Now()))
    {
      out := Loop(target, Turns(server, target));
    }
  }

  // ── what holds on every trace ──

  /** Back-off that attempts `attempt..3` can still add. */
  function BackoffLeft(attempt: nat): nat
    decreases MAX_RETRIES - attempt
  {
    if attempt >= MAX_RETRIES then 0 else Backoff(attempt) + BackoffLeft(attempt + 1)
  }

  /** What one attempt may cost, and what it hands on. */
  predicate TurnCost(st: State, attempt: nat, t: Turn)
  {
    var s, s' := st.s, if t.Done? then t.s else t.st.s;
    && s.gets <= s'.gets <= s.gets + 1
    && s.slept <= s'.slept <= s.slept + (if attempt < MAX_RETRIES then Backoff(attempt) else 0)
    && s.tokens <= s'.tokens <= s.tokens + (if st.danced then 0 else 1)
    && match t
       case Done(out, _) => !out.Panic?
       case Again(next) =>
         && (st.danced ==> next.danced) && (st.failed ==> next.failed)
         && (s'.tokens > s.tokens ==> next.danced)
         && (st.danced && attempt >= MAX_RETRIES ==> next.failed)
  }

  ghost predicate Costed(turn: Turner)
  {
    forall st, k {:trigger TurnCost(st, k, turn(st, k))} :: TurnCost(st, k, turn(st, k))
  }

  lemma TurnsCosted(srv: Server, target: Target)
    ensures Costed(Turns(srv, target))
  {
    forall st, k ensures TurnCost(st, k, Turns(srv, target)(st, k)) { OneTurnCost(srv, target, st, k); }
  }

  lemma OneTurnCost(srv: Server, target: Target, st: State, attempt: nat)
    ensures TurnCost(st, attempt, TakeTurn(srv, target, st, attempt))
  {
  }

  lemma {:induction false} SendBounds(turn: Turner, st: State, attempt: nat)
    requires Costed(turn) && attempt <= MAX_RETRIES + 1
    ensures var s' := Send(turn, st, attempt).1;
      && st.s.gets <= s'.gets <= st.s.gets + (MAX_RETRIES + 1 - attempt)
      && st.s.tokens <= s'.tokens <= st.s.tokens + (if st.danced then 0 else 1)
      && st.s.slept <= s'.slept <= st.s.slept + BackoffLeft(attempt)
    decreases MAX_RETRIES + 1 - attempt
  {
    if attempt <= MAX_RETRIES {
      var t := turn(st, attempt);
      assert TurnCost(st, attempt, t);
      if t.Again? { SendBounds(turn, t.st, attempt + 1); }
    }
  }

  /** At most four GETs, one token request and 1400 ms of waiting, whatever the server does. */
  lemma CallBounds(srv: Server, target: Target, s: Session)
    ensures var s' := Call(srv, target, s).1;
      && s.gets <= s'.gets <= s.gets + 4 && s.tokens <= s'.tokens <= s.tokens + 1
        && s.slept <= s'.slept <= s.slept + 1400
  {
    TurnsCosted(srv, target);
    SendBounds(Turns(srv, target), State(s, false, false), 0);
    assert Pow2(0) == 1 && Pow2(1) == 2 && Pow2(2) == 4;
    assert BackoffLeft(3) == 0 && BackoffLeft(2) == 800 && BackoffLeft(1) == 1200;
  }

  // ── the panic ──

  /** The session before the `k`-th attempt when everything so far was a 5xx. */
  function AfterErrors(s: Session, k: nat): Session
  {
    if k == 0 then s else Waited(Asked(AfterErrors(s, k - 1)), k - 1)
  }

  /** The reply to attempt `k`, everything before it having been a 5xx. */
  function ReplyAt(srv: Server, target: Target, s: Session, k: nat): Reply
  {
    var auth := AuthFor(srv, AfterErrors(s, k));
    if auth.Err? then Lost else srv.answer(AfterErrors(s, k).gets, target, auth.value)
  }

  predicate ErrorAt(srv: Server, target: Target, s: Session, k: nat)
  {
    var r := ReplyAt(srv, target, s, k);
    r.Got? && ServerError(r.response.status)
  }

  /** Attempt `k` draws a challenge whose token request succeeds. */
  predicate DancesAt(srv: Server, target: Target, s: Session, k: nat)
  {
    var r, s' := ReplyAt(srv, target, s, k), AfterErrors(s, k);
    && r.Got? && AuthFor(srv, s').Ok? && ChallengeOf(r.response).Some?
    && FetchToken(srv, Asked(s'), ChallengeOf(r.response).value, AuthFor(srv, s').value).0.Ok?
  }

  /** Before the last attempt only a 5xx leads on without a stored error or a dance. */
  lemma ErrorTurn(srv: Server, target: Target, s: Session, k: nat)
    requires k < MAX_RETRIES
    ensures var t := TakeTurn(srv, target, State(AfterErrors(s, k), false, false), k);
      && (t.Again? && !t.st.failed && !t.st.danced <==> ErrorAt(srv, target, s, k))
      && (ErrorAt(srv, target, s, k) ==> t.st == State(AfterErrors(s, k + 1), false, false))
  {
    SettleDances(srv, target, s, k);
    assert AfterErrors(s, k + 1) == Waited(Asked(AfterErrors(s, k)), k);
  }

  /** A settled reply either ends the call or has danced. */
  lemma SettleDances(srv: Server, target: Target, s: Session, k: nat)
    ensures var st := State(AfterErrors(s, k), false, false); var r := ReplyAt(srv, target, s, k);
      var auth := AuthFor(srv, st.s);
      auth.Ok? && r.Got? ==>
        var t := Settle(srv, st, Asked(st.s), auth.value, r.response);
        (t.Again? ==> t.st.danced && !t.st.failed) && (t.Again? <==> DancesAt(srv, target, s, k))
  {
  }

  /** The last attempt leads on without a stored error only by a dance. */
  lemma FinalTurn(srv: Server, target: Target, s: Session)
    ensures var t := TakeTurn(srv, target, State(AfterErrors(s, MAX_RETRIES), false, false), MAX_RETRIES);
      && (t.Again? && !t.st.failed <==> DancesAt(srv, target, s, MAX_RETRIES))
      && (t.Again? ==> t.st.failed || t.st.danced)
  {
    SettleDances(srv, target, s, MAX_RETRIES);
  }

  /** Once an error is stored, or a dance leaves an attempt to make, the call cannot panic. */
  lemma {:induction false} NoPanicAfter(turn: Turner, st: State, attempt: nat)
    requires Costed(turn) && (st.failed || (st.danced && attempt <= MAX_RETRIES))
    ensures !Send(turn, st, attempt).0.Panic?
    decreases MAX_RETRIES + 1 - attempt
  {
    if attempt <= MAX_RETRIES {
      var t := turn(st, attempt);
      assert TurnCost(st, attempt, t);
      if t.Again? { NoPanicAfter(turn, t.st, attempt + 1); }
    }
  }

  function Lead(s: Session): nat -> State { (k: nat) => State(AfterErrors(s, k), false, false) }
  function Errors(srv: Server, target: Target, s: Session): nat -> bool { (k: nat) => ErrorAt(srv, target, s, k) }

  /** From `lead(k)` the only ways on without a stored error or a dance are 5xx replies. */
  ghost predicate Leads(turn: Turner, lead: nat -> State, err: nat -> bool, dance: bool)
  {
    forall k: nat :: k <= MAX_RETRIES ==> LeadsOn(lead, err, dance, k, turn(lead(k), k))
  }

  predicate LeadsOn(lead: nat -> State, err: nat -> bool, dance: bool, k: nat, t: Turn)
  {
    && (t.Again? && !t.st.failed && !t.st.danced <==> k < MAX_RETRIES && err(k))
    && (t.Again? && !t.st.failed && !t.st.danced ==> t.st == lead(k + 1))
    && (k == MAX_RETRIES ==> (t.Again? && !t.st.failed <==> dance))
  }

  lemma CallLeads(srv: Server, target: Target, s: Session)
    ensures Leads(Turns(srv, target), Lead(s), Errors(srv, target, s), DancesAt(srv, target, s, MAX_RETRIES))
  {
    forall k: nat | k <= MAX_RETRIES
      ensures LeadsOn(Lead(s), Errors(srv, target, s), DancesAt(srv, target, s, MAX_RETRIES), k,
        Turns(srv, target)(Lead(s)(k), k))
    {
      if k < MAX_RETRIES { ErrorTurn(srv, target, s, k); } else { FinalTurn(srv, target, s); }
    }
  }

  lemma {:induction false} PanicNeeds(turn: Turner, lead: nat -> State, err: nat -> bool, dance: bool, k: nat)
    requires Costed(turn) && Leads(turn, lead, err, dance) && k <= MAX_RETRIES
    ensures Send(turn, lead(k), k).0.Panic? <==> (forall j :: k <= j < MAX_RETRIES ==> err(j)) && dance
    decreases MAX_RETRIES - k
  {
    var t := turn(lead(k), k);
    assert TurnCost(lead(k), k, t) && LeadsOn(lead, err, dance, k, t);
    if t.Again? {
      if k < MAX_RETRIES && err(k) {
        PanicNeeds(turn, lead, err, dance, k + 1);
      } else if k < MAX_RETRIES || t.st.failed {
        NoPanicAfter(turn, t.st, k + 1);
      }
    }
  }

  /**
   * The final `expect` fires on exactly one trace: three 5xx replies, then a 401 with a
   * bearer challenge whose token request succeeds.
   */
  lemma PanicsExactly(srv: Server, target: Target, s: Session)
    ensures Call(srv, target, s).0.Panic? <==>
      && ErrorAt(srv, target, s, 0) && ErrorAt(srv, target, s, 1) && ErrorAt(srv, target, s, 2)
      && DancesAt(srv, target, s, 3)
  {
    TurnsCosted(srv, target);
    CallLeads(srv, target, s);
    PanicNeeds(Turns(srv, target), Lead(s), Errors(srv, target, s), DancesAt(srv, target, s, MAX_RETRIES), 0);
    var err := Errors(srv, target, s);
    assert (forall j :: 0 <= j < MAX_RETRIES ==> err(j)) <==> err(0) && err(1) && err(2);
    assert Lead(s)(0) == State(s, false, false);
  }

  const REALM_CHALLENGE := "Bearer" + " " + Render([Param("", "realm", "r", true)])

  const UNAVAILABLE := Response(503, None, None, Body([], false))

  /** Three times 503, then a challenge, whose token endpoint issues a token. */
  const PANICKING := Server(
    (n: nat, _, _) => Got(if n < MAX_RETRIES then UNAVAILABLE
                          else Response(401, None, Some(REALM_CHALLENGE), Body([], false))),
    (_, _, _) => Answered(200, Some(JObj(map["token" := JStr("t")]))),
    _ => Ok(None),
    _ => true)

  lemma RealmChallenged()
    ensures var ch := Challenge(REALM_CHALLENGE); ch.Some? && "realm" in ch.value
  {
    var ps := [Param("", "realm", "r", true)];
    assert ValidParam(ps[0]) by {
      assert !EndsKey('r') && !EndsKey('e') && !EndsKey('a') && !EndsKey('l') && !EndsKey('m');
    }
    ChallengeRoundTrip("Bearer", ps);
    ParamLookup(ps, map[], 0);
  }

  const FRESH := Session(0, 0, 0, None)

  lemma {:induction false} ErrorsCount(s: Session, k: nat)
    ensures AfterErrors(s, k).gets == s.gets + k && AfterErrors(s, k).bearer == s.bearer
  {
    if k > 0 { ErrorsCount(s, k - 1); }
  }

  lemma PanickingReplies(target: Target, k: nat)
    ensures AuthFor(PANICKING, AfterErrors(FRESH, k)) == Ok(None)
    ensures ReplyAt(PANICKING, target, FRESH, k) == PANICKING.answer(k, target, None)
  {
    ErrorsCount(FRESH, k);
  }

  lemma PanickingGrants(s: Session, ch: map<string, string>)
    requires "realm" in ch
    ensures FetchToken(PANICKING, s, ch, None).0 == Ok("t")
  {
  }

  lemma DancesWhen(srv: Server, target: Target, s: Session, k: nat, r: Response)
    requires AuthFor(srv, AfterErrors(s, k)) == Ok(None) && ReplyAt(srv, target, s, k) == Got(r)
    requires ChallengeOf(r).Some? && FetchToken(srv, Asked(AfterErrors(s, k)), ChallengeOf(r).value, None).0.Ok?
    ensures DancesAt(srv, target, s, k)
  {
  }

  lemma PanickingDances(target: Target)
    ensures DancesAt(PANICKING, target, FRESH, MAX_RETRIES)
  {
    PanickingReplies(target, MAX_RETRIES);
    RealmChallenged();
    var r := Response(401, None, Some(REALM_CHALLENGE), Body([], false));
    PanickingGrants(Asked(AfterErrors(FRESH, MAX_RETRIES)), ChallengeOf(r).value);
    DancesWhen(PANICKING, target, FRESH, MAX_RETRIES, r);
  }

  /** A fresh client that meets this server panics, whatever it asks for. */
  lemma PanicHappens(target: Target)
    ensures Call(PANICKING, target, FRESH).0.Panic?
  {
    forall k: nat | k < MAX_RETRIES ensures ErrorAt(PANICKING, target, FRESH, k) { PanickingReplies(target, k); }
    PanickingDances(target);
    PanicsExactly(PANICKING, target, FRESH);
  }

  // ── responses ──

  /** The `n`-th GET asks for `target`, and `r` is the reply. */
  ghost predicate Answers(srv: Server, n: nat, target: Target, r: Response)
  {
    exists auth: Option<string> :: IsAnswer(srv, n, target, auth, r)
  }

  predicate IsAnswer(srv: Server, n: nat, target: Target, auth: Option<string>, r: Response)
  {
    srv.answer(n, target, auth) == Got(r)
  }

  ghost predicate TurnAnswers(srv: Server, target: Target, st: State, attempt: nat, t: Turn)
  {
    t.Done? && t.out.Resp? ==>
      && t.s.gets == st.s.gets + 1 && Answers(srv, st.s.gets, target, t.out.response)
  }

  lemma OneTurnAnswers(srv: Server, target: Target, st: State, attempt: nat)
    ensures TurnAnswers(srv, target, st, attempt, TakeTurn(srv, target, st, attempt))
  {
    var auth := AuthFor(srv, st.s);
    if auth.Ok? && srv.answer(st.s.gets, target, auth.value).Got? {
      assert IsAnswer(srv, st.s.gets, target, auth.value, srv.answer(st.s.gets, target, auth.value).response);
    }
  }

  ghost predicate AllAnswer(srv: Server, target: Target, turn: Turner)
  {
    forall st, k {:trigger TurnAnswers(srv, target, st, k, turn(st, k))} :: TurnAnswers(srv, target, st, k, turn(st, k))
  }

  lemma TurnsGood(srv: Server, target: Target, turn: Turner)
    requires IsTurns(turn, srv, target)
    ensures Costed(turn) && AllAnswer(srv, target, turn)
  {
    forall st, k ensures TurnCost(st, k, turn(st, k)) && TurnAnswers(srv, target, st, k, turn(st, k)) {
      assert turn(st, k) == TakeTurn(srv, target, st, k);
      OneTurnCost(srv, target, st, k);
      OneTurnAnswers(srv, target, st, k);
    }
  }

  lemma {:induction false} SendAnswers(srv: Server, target: Target, turn: Turner, st: State, attempt: nat)
    requires Costed(turn) && AllAnswer(srv, target, turn)
    ensures var (out, s') := Send(turn, st, attempt);
      out.Resp? ==> s'.gets > st.s.gets && Answers(srv, s'.gets - 1, target, out.response)
    decreases MAX_RETRIES + 1 - attempt
  {
    if attempt <= MAX_RETRIES {
      var t := turn(st, attempt);
      assert TurnCost(st, attempt, t) && TurnAnswers(srv, target, st, attempt, t);
      if t.Again? { SendAnswers(srv, target, turn, t.st, attempt + 1); }
    }
  }

  /** What a call's turns return is the server's reply to the last GET. */
  lemma ResponseIsReply(srv: Server, target: Target, turn: Turner, s: Session)
    requires IsTurns(turn, srv, target)
    ensures var (out, s') := Send(turn, State(s, false, false), 0);
      out.Resp? ==> s'.gets > s.gets && Answers(srv, s'.gets - 1, target, out.response)
  {
    TurnsGood(srv, target, turn);
    SendAnswers(srv, target, turn, State(s, false, false), 0);
  }

  // ── one token a pull ──

  /** The token endpoint can issue this token. */
  ghost predicate Grants(srv: Server, tok: string)
  {
    exists n, url, auth :: TokenOf(srv.grant(n, url, auth)) == Ok(tok)
  }

  /** No reply is a fault. */
  ghost predicate FaultFree(srv: Server)
  {
    forall n, t, a :: srv.answer(n, t, a).Got? && !ServerError(srv.answer(n, t, a).response.status)
  }

  /** Every token the endpoint can issue is accepted. */
  ghost predicate Honours(srv: Server)
  {
    forall n, t, tok :: Grants(srv, tok) ==>
      srv.answer(n, t, Some("Bearer " + tok)).Got? && srv.answer(n, t, Some("Bearer " + tok)).response.status != 401
  }

  /** No token was asked for yet, or one was and it is in use. */
  ghost predicate AtMostOne(srv: Server, s: Session)
  {
    s.tokens == 0 || (s.tokens == 1 && s.bearer.Some? && Grants(srv, s.bearer.value))
  }

  predicate Frugal(out: Outcome, tokens: nat) { tokens <= 1 && !out.Panic? }

  lemma TokenGranted(srv: Server, s: Session, ch: map<string, string>, auth: Option<string>)
    ensures var (tok, s') := FetchToken(srv, s, ch, auth);
      && s'.tokens <= s.tokens + 1 && (tok.Ok? ==> s'.tokens == s.tokens + 1 && Grants(srv, tok.value))
  {
  }

  lemma HonouredSettle(srv: Server, st: State, auth: Option<string>, r: Response)
    requires AtMostOne(srv, st.s) && (st.s.tokens == 1 ==> r.status != 401)
    ensures var t := Settle(srv, st, Asked(st.s), auth, r);
      match t
      case Done(out, s') => Frugal(out, s'.tokens) && (out.Resp? ==> AtMostOne(srv, s'))
      case Again(st') => AtMostOne(srv, st'.s) && st'.danced && !st.danced
  {
    var ch := ChallengeOf(r);
    if ch.Some? { TokenGranted(srv, Asked(st.s), ch.value, auth); }
  }

  lemma HonouredTurn(srv: Server, target: Target, st: State, attempt: nat)
    requires FaultFree(srv) && Honours(srv) && AtMostOne(srv, st.s)
    ensures var t := TakeTurn(srv, target, st, attempt);
      match t
      case Done(out, s') => Frugal(out, s'.tokens) && (out.Resp? ==> AtMostOne(srv, s'))
      case Again(st') => AtMostOne(srv, st'.s) && st'.danced && !st.danced
  {
    var auth := AuthFor(srv, st.s);
    if auth.Ok? {
      var reply := srv.answer(st.s.gets, target, auth.value);
      assert reply.Got? && !ServerError(reply.response.status);
      if st.s.tokens == 1 { assert auth.value == Some("Bearer " + st.s.bearer.value); }
      HonouredSettle(srv, st, auth.value, reply.response);
    }
  }

  /** Against a fault-free registry that honours its tokens, calls share one token request. */
  lemma HonouredCall(srv: Server, target: Target, s: Session)
    requires FaultFree(srv) && Honours(srv) && AtMostOne(srv, s)
    ensures var (out, s') := Call(srv, target, s);
      s'.tokens <= 1 && !out.Panic? && (out.Resp? ==> AtMostOne(srv, s'))
  {
    var st := State(s, false, false);
    HonouredTurn(srv, target, st, 0);
    var t := TakeTurn(srv, target, st, 0);
    if t.Again? { HonouredTurn(srv, target, t.st, 1); }
  }
}
