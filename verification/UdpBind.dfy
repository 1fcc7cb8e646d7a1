/**
 Binding a UDP endpoint to a session: the gateway issues a ticket over TCP, the client sends
 it back over UDP, failures are slowed down by a growing backoff. Clock readings, nonces and
 the keyed signature are parameters; nothing is assumed about the clock, not even that it
 moves forward.
 */
module UdpBind {
  import opened Bounds
  import opened Wrappers
  import opened Packet
  import opened UdpBindCodec

  type Endpoint = string

  datatype BindConfig = BindConfig(
    listenPort: nat,
    secret: Bytes,
    ttlMs: nat,
    backoffMs: nat,
    backoffMaxMs: nat,
    maxAttempts: nat,
    mac: (Bytes, Bytes) -> Bytes)         // the keyed signature of a text

  datatype SessionState = SessionState(
    nonce: nat,
    expires: nat,
    issuedAt: nat,
    failAttempts: nat,
    retryAfter: nat,
    token: Bytes,
    bound: bool,
    endpoint: Endpoint)

  const NEW_SESSION := SessionState(0, 0, 0, 0, 0, [], false, "")

  datatype Code = Bound | InvalidPayload | UnknownSession | Backoff | NotIssued | Expired | Mismatch | BadToken | AlreadyBound

  function Token(cfg: BindConfig, session: Bytes, nonce: nat, expires: nat): Bytes {
    if cfg.secret == [] then [] else cfg.mac(cfg.secret, SigningInput(session, nonce, expires))
  }

  function Pow2(n: nat): nat {
    if n == 0 then 1 else 2 * Pow2(n - 1)
  }

  // doubling per failed attempt, at most seven times, capped
  function RetryDelay(cfg: BindConfig, attempt: nat): (d: nat)
    ensures d <= cfg.backoffMaxMs
  {
    var capped := Min(attempt, 8);
    var factor := Pow2(if capped == 0 then 0 else capped - 1);
    Min(cfg.backoffMs * factor, cfg.backoffMaxMs)
  }

  function Failed(cfg: BindConfig, s: SessionState, now: nat): SessionState {
    var attempt := Min(s.failAttempts + 1, cfg.maxAttempts);
    s.(failAttempts := attempt, retryAfter := now + RetryDelay(cfg, attempt))
  }

  function Issued(cfg: BindConfig, s: SessionState, id: Bytes, nonce: nat, now: nat): SessionState {
    var expires := now + cfg.ttlMs;
    s.(nonce := nonce, expires := expires, issuedAt := now, failAttempts := 0, retryAfter := 0,
       token := Token(cfg, id, nonce, expires), bound := false, endpoint := "")
  }

  // the first check that objects, or Bound
  function Judge(cfg: BindConfig, s: SessionState, req: BindRequest, endpoint: Endpoint, now: nat): Code {
    if s.retryAfter > now then Backoff
    else if s.expires == 0 || s.nonce == 0 || s.token == [] then NotIssued
    else if req.expires < now || s.expires < now then Expired
    else if req.expires != s.expires || req.nonce != s.nonce then Mismatch
    else if req.token != s.token || req.token != Token(cfg, req.session, req.nonce, req.expires) then BadToken
    else if s.bound && s.endpoint != endpoint then AlreadyBound
    else Bound
  }

  function Judged(cfg: BindConfig, s: SessionState, code: Code, endpoint: Endpoint, now: nat): SessionState {
    if code == Bound then s.(bound := true, endpoint := endpoint, failAttempts := 0, retryAfter := 0)
    else if code == Backoff then s
    else Failed(cfg, s, now)
  }

  type Sessions = map<Bytes, SessionState>

  predicate CanIssue(cfg: BindConfig, ss: Sessions, id: Bytes, nonce: nat, now: nat) {
    cfg.listenPort != 0 && id in ss && Token(cfg, id, nonce, now + cfg.ttlMs) != []
  }

  function IssueTicket(cfg: BindConfig, ss: Sessions, id: Bytes, nonce: nat, now: nat): Sessions {
    if CanIssue(cfg, ss, id, nonce, now) then ss[id := Issued(cfg, ss[id], id, nonce, now)] else ss
  }

  function Answer(cfg: BindConfig, ss: Sessions, req: BindRequest, endpoint: Endpoint, now: nat): Code {
    if req.session == [] || req.token == [] then InvalidPayload
    else if req.session !in ss then UnknownSession
    else Judge(cfg, ss[req.session], req, endpoint, now)
  }

  function ApplyRequest(cfg: BindConfig, ss: Sessions, req: BindRequest, endpoint: Endpoint, now: nat): Sessions {
    var code := Answer(cfg, ss, req, endpoint, now);
    if code == InvalidPayload || code == UnknownSession then ss
    else ss[req.session := Judged(cfg, ss[req.session], code, endpoint, now)]
  }

  /** Where the signature does not collide, a token stands for one session, nonce and expiry only. */
  lemma TokenNamesTicket(cfg: BindConfig, s: Bytes, n: nat, e: nat, s': Bytes, n': nat, e': nat)
    requires cfg.secret != [] && Token(cfg, s, n, e) == Token(cfg, s', n', e')
    requires var (x, y) := (SigningInput(s, n, e), SigningInput(s', n', e'));
      cfg.mac(cfg.secret, x) == cfg.mac(cfg.secret, y) ==> x == y
    ensures s == s' && n == n' && e == e'
  {
    hide SigningInput;
    SigningInputInjective(s, n, e, s', n', e');
  }

  // ---- the gateway's two entry points --------------------------------------------------------

  class Gateway {
    const cfg: BindConfig
    var sessions: Sessions

    constructor (cfg: BindConfig)
      ensures this.cfg == cfg && sessions == map[]
    {
      this.cfg := cfg;
      sessions := map[];
    }

    /** Issue a fresh ticket for a known session; the clock and the nonce are the caller's. */
    method MakeTicket(id: Bytes, nonce: nat, now: nat) returns (ticket: Option<BindRequest>)
      modifies this
      ensures sessions == IssueTicket(cfg, old(sessions), id, nonce, now)
      ensures ticket.Some? <==> CanIssue(cfg, old(sessions), id, nonce, now)
      ensures ticket.Some? ==> ticket.value == BindRequest(id, nonce, now + cfg.ttlMs, sessions[id].token)
    {
      ticket := None;
      if cfg.listenPort == 0 || cfg.secret == [] {
        return;
      }
      if id !in sessions {
        return;
      }
      var expires := now + cfg.ttlMs;
      var token := cfg.mac(cfg.secret, SigningInput(id, nonce, expires));
      if token == [] {
        return;
      }
      var s := sessions[id];
      s := s.(nonce := nonce, expires := expires, issuedAt := now, failAttempts := 0, retryAfter := 0);
      s := s.(token := token, bound := false, endpoint := "");
      sessions := sessions[id := s];
      ticket := Some(BindRequest(id, nonce, expires, token));
    }

    method ApplyRetryBackoff(id: Bytes, now: nat)
      requires id in sessions
      modifies this
      ensures sessions == old(sessions)[id := Failed(cfg, old(sessions)[id], now)]
    {
      var s := sessions[id];
      var next := if s.failAttempts + 1 < cfg.maxAttempts then s.failAttempts + 1 else cfg.maxAttempts;
      s := s.(failAttempts := next);
      sessions := sessions[id := s.(retryAfter := now + RetryDelay(cfg, next))];
    }

    /** Check a bind request step by step; the first objection decides. */
    method Apply(req: BindRequest, endpoint: Endpoint, now: nat) returns (code: Code)
      modifies this
      ensures code == Answer(cfg, old(sessions), req, endpoint, now)
      ensures sessions == ApplyRequest(cfg, old(sessions), req, endpoint, now)
    {
      if req.session == [] || req.token == [] {
        return InvalidPayload;
      }
      if req.session !in sessions {
        return UnknownSession;
      }
      var s := sessions[req.session];
      if s.retryAfter > now {
        return Backoff;
      }
      if s.expires == 0 || s.nonce == 0 || s.token == [] {
        ApplyRetryBackoff(req.session, now);
        return NotIssued;
      }
      if req.expires < now {
        ApplyRetryBackoff(req.session, now);
        return Expired;
      }
      if s.expires < now {
        ApplyRetryBackoff(req.session, now);
        return Expired;
      }
      if req.expires != s.expires || req.nonce != s.nonce {
        ApplyRetryBackoff(req.session, now);
        return Mismatch;
      }
      var expected := Token(cfg, req.session, req.nonce, req.expires);
      if req.token != s.token || req.token != expected {
        ApplyRetryBackoff(req.session, now);
        return BadToken;
      }
      if s.bound && s.endpoint != endpoint {
        ApplyRetryBackoff(req.session, now);
        return AlreadyBound;
      }
      sessions := sessions[req.session := s.(bound := true, endpoint := endpoint, failAttempts := 0, retryAfter := 0)];
      return Bound;
    }
  }

  // ---- every run ---------------------------------------------------------------------------------

  datatype Event =
    | Open(id: Bytes)
    | Shut(id: Bytes)
    | Issue(id: Bytes, nonce: nat, now: nat)
    | Request(req: BindRequest, ep: Endpoint, now: nat)

  function Step(cfg: BindConfig, ss: Sessions, e: Event): Sessions {
    match e
    case Open(id) => ss[id := NEW_SESSION]
    case Shut(id) => ss - {id}
    case Issue(id, nonce, now) => IssueTicket(cfg, ss, id, nonce, now)
    case Request(req, ep, now) => ApplyRequest(cfg, ss, req, ep, now)
  }

  function SessionsAt(cfg: BindConfig, run: seq<Event>, n: nat): Sessions
    requires n <= |run|
  {
    if n == 0 then map[] else Step(cfg, SessionsAt(cfg, run, n - 1), run[n - 1])
  }

  // event i issued the ticket the session still holds at n
  ghost predicate HoldsTicketFrom(cfg: BindConfig, run: seq<Event>, n: nat, id: Bytes, i: int)
    requires n <= |run|
  {
    && 0 <= i < n && run[i].Issue? && run[i].id == id
    && CanIssue(cfg, SessionsAt(cfg, run, i), id, run[i].nonce, run[i].now)
    && (forall k :: i < k < n ==> !run[k].Open? || run[k].id != id)
    && (forall k :: i < k < n ==> !run[k].Shut? || run[k].id != id)
    && (forall k :: i < k < n && run[k].Issue? && run[k].id == id ==>
          !CanIssue(cfg, SessionsAt(cfg, run, k), id, run[k].nonce, run[k].now))
  }

  // request j returned the ticket issued by event i, in time and outside the backoff window
  ghost predicate Redeems(cfg: BindConfig, run: seq<Event>, i: int, j: int, ep: Endpoint) {
    && 0 <= i < j < |run| && run[i].Issue? && run[j].Request? && run[j].ep == ep
    && run[j].req == BindRequest(run[i].id, run[i].nonce, run[i].now + cfg.ttlMs,
                                 Token(cfg, run[i].id, run[i].nonce, run[i].now + cfg.ttlMs))
    && run[j].now <= run[i].now + cfg.ttlMs
    && run[i].id in SessionsAt(cfg, run, j) && SessionsAt(cfg, run, j)[run[i].id].retryAfter <= run[j].now
  }

  // the event gives the session a new ticket
  predicate Renews(cfg: BindConfig, ss: Sessions, e: Event, id: Bytes) {
    e.Issue? && e.id == id && CanIssue(cfg, ss, id, e.nonce, e.now)
  }

  // the event starts the session's binding afresh
  predicate Resets(cfg: BindConfig, ss: Sessions, e: Event, id: Bytes) {
    Renews(cfg, ss, e, id) || ((e.Open? || e.Shut?) && e.id == id)
  }

  // any other event leaves a held ticket as it was
  lemma TicketKept(cfg: BindConfig, ss: Sessions, e: Event, id: Bytes)
    requires id in Step(cfg, ss, e) && Step(cfg, ss, e)[id].token != [] && !Renews(cfg, ss, e, id)
    ensures id in ss && (e.Open? || e.Shut? ==> e.id != id)
    ensures var s, t := ss[id], Step(cfg, ss, e)[id];
      s.nonce == t.nonce && s.expires == t.expires && s.token == t.token
  {
    hide RetryDelay, Judge, Token;
  }

  /** A ticket held by a session is the one its latest issue event made. */
  lemma {:induction false} TicketWasIssued(cfg: BindConfig, run: seq<Event>, n: nat, id: Bytes) returns (i: int)
    requires n <= |run| && id in SessionsAt(cfg, run, n) && SessionsAt(cfg, run, n)[id].token != []
    ensures HoldsTicketFrom(cfg, run, n, id, i)
    ensures var s := SessionsAt(cfg, run, n)[id];
      s.nonce == run[i].nonce && s.expires == run[i].now + cfg.ttlMs && s.token == Token(cfg, id, s.nonce, s.expires)
    decreases n
  {
    hide ApplyRequest, Token;
    var e, before := run[n - 1], SessionsAt(cfg, run, n - 1);
    if Renews(cfg, before, e, id) {
      i := n - 1;
    } else {
      TicketKept(cfg, before, e, id);
      i := TicketWasIssued(cfg, run, n - 1, id);
    }
  }

  // the request is accepted for the session
  predicate Binds(cfg: BindConfig, ss: Sessions, e: Event, id: Bytes) {
    e.Request? && e.req.session == id && Answer(cfg, ss, e.req, e.ep, e.now) == Bound
  }

  // a session bound after any other event was bound, alike, before it
  lemma BindingKept(cfg: BindConfig, ss: Sessions, e: Event, id: Bytes)
    requires id in Step(cfg, ss, e) && Step(cfg, ss, e)[id].bound && !Binds(cfg, ss, e, id)
    ensures id in ss && ss[id].bound && ss[id].endpoint == Step(cfg, ss, e)[id].endpoint
    ensures !Renews(cfg, ss, e, id) && (e.Open? || e.Shut? ==> e.id != id)
  {
    hide RetryDelay, Judge, Token;
  }

  // an accepted request returns the very ticket the session holds
  lemma BindingReturnsTicket(cfg: BindConfig, ss: Sessions, e: Event, id: Bytes)
    requires Binds(cfg, ss, e, id)
    ensures id in ss && ss[id].token != [] && ss[id].retryAfter <= e.now <= ss[id].expires
    ensures e.req == BindRequest(id, ss[id].nonce, ss[id].expires, ss[id].token)
    ensures id in Step(cfg, ss, e) && Step(cfg, ss, e)[id].endpoint == e.ep
  {
    hide RetryDelay, Token;
  }

  /**
   A bound session got there by a request that returned its latest ticket exactly, before the
   ticket expired and outside the backoff window, from the endpoint it is bound to.
   */
  lemma {:induction false} BoundByTicket(cfg: BindConfig, run: seq<Event>, n: nat, id: Bytes) returns (i: int, j: int)
    requires n <= |run| && id in SessionsAt(cfg, run, n) && SessionsAt(cfg, run, n)[id].bound
    ensures HoldsTicketFrom(cfg, run, n, id, i) && i < j < n
    ensures Redeems(cfg, run, i, j, SessionsAt(cfg, run, n)[id].endpoint)
    decreases n
  {
    hide Step, Token, Answer, CanIssue;
    var e, before := run[n - 1], SessionsAt(cfg, run, n - 1);
    if Binds(cfg, before, e, id) {
      BindingReturnsTicket(cfg, before, e, id);
      i := TicketWasIssued(cfg, run, n - 1, id);
      j := n - 1;
    } else {
      BindingKept(cfg, before, e, id);
      i, j := BoundByTicket(cfg, run, n - 1, id);
    }
  }

  lemma EndpointStep(cfg: BindConfig, ss: Sessions, e: Event, id: Bytes)
    requires id in ss && ss[id].bound && !Resets(cfg, ss, e, id)
    ensures id in Step(cfg, ss, e) && Step(cfg, ss, e)[id].bound
    ensures Step(cfg, ss, e)[id].endpoint == ss[id].endpoint
  {
    hide RetryDelay, Token;
  }

  /** Until a ticket is really issued, or the session is reopened or closed, a bound session keeps its endpoint. */
  lemma {:induction false} EndpointStays(cfg: BindConfig, run: seq<Event>, m: nat, n: nat, id: Bytes)
    requires m <= n <= |run| && id in SessionsAt(cfg, run, m) && SessionsAt(cfg, run, m)[id].bound
    requires forall k :: m <= k < n ==> !Resets(cfg, SessionsAt(cfg, run, k), run[k], id)
    ensures id in SessionsAt(cfg, run, n) && SessionsAt(cfg, run, n)[id].bound
    ensures SessionsAt(cfg, run, n)[id].endpoint == SessionsAt(cfg, run, m)[id].endpoint
    decreases n
  {
    hide RetryDelay, Token, Step, Resets;
    if m < n {
      EndpointStays(cfg, run, m, n - 1, id);
      assert !Resets(cfg, SessionsAt(cfg, run, n - 1), run[n - 1], id);
      EndpointStep(cfg, SessionsAt(cfg, run, n - 1), run[n - 1], id);
    }
  }

  // the latest clock reading so far
  function LatestNow(run: seq<Event>, n: nat): nat
    requires n <= |run|
  {
    if n == 0 then 0
    else
      var t := if run[n - 1].Issue? || run[n - 1].Request? then run[n - 1].now else 0;
      if t > LatestNow(run, n - 1) then t else LatestNow(run, n - 1)
  }

  /** The failure count and the backoff deadline never leave their configured bounds. */
  lemma {:induction false} BackoffBounded(cfg: BindConfig, run: seq<Event>, n: nat, id: Bytes)
    requires n <= |run| && id in SessionsAt(cfg, run, n)
    ensures SessionsAt(cfg, run, n)[id].failAttempts <= cfg.maxAttempts
    ensures SessionsAt(cfg, run, n)[id].retryAfter <= LatestNow(run, n) + cfg.backoffMaxMs
    decreases n
  {
    hide RetryDelay, Token;
    if id in SessionsAt(cfg, run, n - 1) {
      BackoffBounded(cfg, run, n - 1, id);
    }
  }

  // refused after the request was examined
  predicate Refused(code: Code) {
    code == NotIssued || code == Expired || code == Mismatch || code == BadToken || code == AlreadyBound
  }

  /** After a refusal every request for the session is turned away exactly until the backoff has passed. */
  lemma RefusalBacksOff(cfg: BindConfig, ss: Sessions, req: BindRequest, ep: Endpoint, now: nat,
                        again: BindRequest, ep': Endpoint, later: nat)
    requires Refused(Answer(cfg, ss, req, ep, now)) && again.session == req.session && again.token != []
    ensures Answer(cfg, ApplyRequest(cfg, ss, req, ep, now), again, ep', later) == Backoff
      <==> later < now + RetryDelay(cfg, Min(ss[req.session].failAttempts + 1, cfg.maxAttempts))
  {
    hide RetryDelay, Token;
  }

  /** The backoff starts at the configured delay and doubles with each failure, seven times at most, up to the cap. */
  lemma RetryDelayDoubles(cfg: BindConfig, attempt: nat)
    ensures attempt <= 1 ==> RetryDelay(cfg, attempt) == Min(cfg.backoffMs, cfg.backoffMaxMs)
    ensures 1 <= attempt < 8 ==> RetryDelay(cfg, attempt + 1) == Min(2 * RetryDelay(cfg, attempt), cfg.backoffMaxMs)
    ensures attempt >= 8 ==> RetryDelay(cfg, attempt) == RetryDelay(cfg, 8)
  {
    if 1 <= attempt < 8 {
      var factor := Pow2(attempt - 1);
      assert Pow2(attempt) == 2 * factor;
      hide Pow2;
      assert cfg.backoffMs * (2 * factor) == 2 * (cfg.backoffMs * factor);
    }
  }

  /**
   A ticket returned at once binds any endpoint exactly if neither its nonce nor its expiry is
   zero: the gateway reads a zero nonce as no ticket at all.
   */
  lemma FreshTicketBinds(cfg: BindConfig, ss: Sessions, id: Bytes, nonce: nat, now: nat, endpoint: Endpoint)
    requires CanIssue(cfg, ss, id, nonce, now) && id != []
    ensures var ss' := IssueTicket(cfg, ss, id, nonce, now);
      Answer(cfg, ss', BindRequest(id, nonce, now + cfg.ttlMs, ss'[id].token), endpoint, now) == Bound
      <==> nonce != 0 && now + cfg.ttlMs != 0
  {
  }
}
