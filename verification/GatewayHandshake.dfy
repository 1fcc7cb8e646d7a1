/**
 The client side of the gateway before and after login. Bytes arrive in reads of any size;
 until a login frame is complete they are buffered, PING and PONG frames are consumed, and
 from the login frame on everything is passed to the backend untouched. The connection's
 state turns out to depend only on the bytes received, never on how they were cut.
 */
module GatewayHandshake {
  import opened Wrappers
  import opened Utf8
  import opened Packet

  const MSG_PING := 0x0002
  const MSG_PONG := 0x0003
  const MSG_LOGIN_REQ := 0x0010
  const MAX_LOGIN_PAYLOAD := 32 * 1024
  const MAX_HANDSHAKE := 64 * 1024
  const READ_BUFFER := 4096

  predicate IsSystemMessage(msgId: nat) {
    0x0001 <= msgId <= 0x000F
  }

  // a reply with the request's flags, sequence number and timestamp
  function ControlFrame(h: Header, msgId: nat, payload: Bytes): Bytes {
    EncodeHeader(Header(|payload| % 0x10000, msgId, h.flags, h.sequence, h.timestamp)) + payload
  }

  // ---- who is let in -------------------------------------------------------------------------

  datatype AuthResult = AuthResult(success: bool, subject: Bytes)

  datatype Policy = Policy(
    authenticate: (Bytes, Bytes) -> AuthResult,
    allowAnonymous: bool,
    backendFor: Bytes -> bool,
    ticket: Option<Bytes>)

  const ANONYMOUS: Bytes := [97, 110, 111, 110, 121, 109, 111, 117, 115]
  const GUEST: Bytes := [103, 117, 101, 115, 116]

  function RoutingKey(user: Bytes, subject: Bytes): Bytes {
    var key := if user != [] then user else subject;
    if key == [] || key == GUEST then ANONYMOUS else key
  }

  // the client id under which the login is bridged, if it is
  function Admit(policy: Policy, user: Bytes, token: Bytes): (client: Option<Bytes>)
    ensures client.Some? ==> client.value != [] && client.value != GUEST
    ensures client.Some? && !policy.allowAnonymous ==> token != [] && client.value != ANONYMOUS
  {
    var auth := policy.authenticate(user, token);
    var key := RoutingKey(user, auth.subject);
    if !auth.success then None
    else if !policy.allowAnonymous && (token == [] || key == ANONYMOUS) then None
    else if !policy.backendFor(key) then None
    else Some(key)
  }

  // ---- the handshake as a function of the bytes received ----------------------------------------

  datatype Frame =
    | Incomplete                                // not enough bytes to decide
    | Control(size: nat, reply: Option<Bytes>)  // a whole PING (with its reply) or PONG
    | LoginFrame(user: Bytes, token: Bytes)
    | Unacceptable

  // the frame at the front of b
  function FirstFrame(b: Bytes): (f: Frame)
    ensures f.Control? ==> HEADER_BYTES <= f.size <= |b|
  {
    if |b| < HEADER_BYTES then Incomplete else
    var h := DecodeHeader(b);
    if h.length > MAX_LOGIN_PAYLOAD then Unacceptable else
    var size := HEADER_BYTES + h.length;
    if |b| < size then Incomplete else
    var payload := b[HEADER_BYTES..size];
    if IsSystemMessage(h.msgId) then
      if h.msgId == MSG_PING then Control(size, Some(ControlFrame(h, MSG_PONG, payload)))
      else if h.msgId == MSG_PONG then Control(size, None)
      else Unacceptable
    else if h.msgId != MSG_LOGIN_REQ then Unacceptable
    else
      var user := ReadLp(payload);
      if user.Bad? then Unacceptable else
      var token := ReadLp(user.rest);
      if token.Bad? then Unacceptable else LoginFrame(user.value, token.value)
  }

  datatype Verdict = NeedMore | Refused | LoggedIn(user: Bytes, token: Bytes)

  // consumed: the whole control frames in front; rest: what follows them
  datatype Handshake = Handshake(consumed: seq<Bytes>, replies: seq<Bytes>, rest: Bytes, verdict: Verdict)

  function Parse(b: Bytes): Handshake
    decreases |b|
  {
    match FirstFrame(b)
    case Incomplete => Handshake([], [], b, NeedMore)
    case Unacceptable => Handshake([], [], b, Refused)
    case LoginFrame(user, token) => Handshake([], [], b, LoggedIn(user, token))
    case Control(size, reply) => Prepend(b[..size], reply, Parse(b[size..]))
  }

  function Prepend(frame: Bytes, reply: Option<Bytes>, h: Handshake): Handshake {
    h.(consumed := [frame] + h.consumed,
       replies := (if reply.Some? then [reply.value] else []) + h.replies)
  }

  function Join(chunks: seq<Bytes>): Bytes {
    if chunks == [] then [] else chunks[0] + Join(chunks[1..])
  }

  // frames is a sequence of whole PING and PONG frames and replies answers its PINGs in order
  ghost predicate Answers(frames: seq<Bytes>, replies: seq<Bytes>) {
    if frames == [] then replies == []
    else
      && FirstFrame(frames[0]).Control? && FirstFrame(frames[0]).size == |frames[0]|
      && match FirstFrame(frames[0]).reply
         case None => Answers(frames[1..], replies)
         case Some(pong) => replies != [] && replies[0] == pong && Answers(frames[1..], replies[1..])
  }

  // ---- facts about single frames -----------------------------------------------------------------

  lemma DecodeIgnoresTail(b: Bytes, more: Bytes)
    requires |b| >= HEADER_BYTES
    ensures DecodeHeader(b + more) == DecodeHeader(b)
  {
    var c := b + more;
    assert c[0..2] == b[0..2] && c[2..4] == b[2..4] && c[4..6] == b[4..6];
    assert c[6..10] == b[6..10] && c[10..14] == b[10..14];
  }

  // Once a frame has been recognised, more bytes do not change the decision.
  lemma FirstFrameStable(b: Bytes, more: Bytes)
    requires !FirstFrame(b).Incomplete?
    ensures FirstFrame(b + more) == FirstFrame(b)
  {
    hide DecodeHeader, ReadLp, ControlFrame;
    DecodeIgnoresTail(b, more);
    var h := DecodeHeader(b);
    if h.length <= MAX_LOGIN_PAYLOAD {
      var size := HEADER_BYTES + h.length;
      assert (b + more)[HEADER_BYTES..size] == b[HEADER_BYTES..size];
    }
  }

  lemma IncompleteIsShort(b: Bytes)
    requires FirstFrame(b).Incomplete?
    ensures |b| < HEADER_BYTES + MAX_LOGIN_PAYLOAD
  {
  }

  lemma ControlFrameAlone(b: Bytes)
    requires FirstFrame(b).Control?
    ensures FirstFrame(b[..FirstFrame(b).size]) == FirstFrame(b)
  {
    hide DecodeHeader, ReadLp, ControlFrame;
    var size := FirstFrame(b).size;
    var frame := b[..size];
    assert b == frame + b[size..];
    DecodeIgnoresTail(frame, b[size..]);
    assert frame[HEADER_BYTES..size] == b[HEADER_BYTES..size];
  }

  lemma ReplyShape(b: Bytes)
    requires FirstFrame(b).Control? && FirstFrame(b).reply.Some?
    ensures var h := DecodeHeader(b);
      && FirstFrame(b).size == HEADER_BYTES + h.length <= |b| && h.length < 0x10000
      && FirstFrame(b).reply.value == ControlFrame(h, MSG_PONG, b[HEADER_BYTES..HEADER_BYTES + h.length])
  {
    hide DecodeHeader, ReadLp, ControlFrame;
  }

  /** The reply to a PING is a PONG with the same payload, flags, sequence number and timestamp. */
  lemma PongMirrorsPing(b: Bytes)
    requires FirstFrame(b).Control? && FirstFrame(b).reply.Some?
    ensures var (size, pong) := (FirstFrame(b).size, FirstFrame(b).reply.value);
      && |pong| == size
      && DecodeHeader(pong) == DecodeHeader(b).(msgId := MSG_PONG)
      && pong[HEADER_BYTES..] == b[HEADER_BYTES..size]
  {
    EncodeDecodedHeader(b);
    ReplyShape(b);
    hide DecodeHeader, EncodeHeader, FirstFrame;
    var h := DecodeHeader(b);
    var payload := b[HEADER_BYTES..HEADER_BYTES + h.length];
    assert Pow256(2) == 0x10000;
    DecodeEncodedHeader(h.(msgId := MSG_PONG), payload);
  }

  // ---- facts about the whole handshake -------------------------------------------------------------

  // h, then the handshake t on what h left over together with later bytes
  function Continue(h: Handshake, t: Handshake): Handshake {
    Handshake(h.consumed + t.consumed, h.replies + t.replies, t.rest, t.verdict)
  }

  lemma PrependContinue(frame: Bytes, reply: Option<Bytes>, h: Handshake, t: Handshake)
    ensures Prepend(frame, reply, Continue(h, t)) == Continue(Prepend(frame, reply, h), t)
  {
    var front := if reply.Some? then [reply.value] else [];
    assert [frame] + (h.consumed + t.consumed) == [frame] + h.consumed + t.consumed;
    assert front + (h.replies + t.replies) == front + h.replies + t.replies;
  }

  lemma ContinueFromNothing(b: Bytes, t: Handshake)
    ensures Continue(Handshake([], [], b, NeedMore), t) == t
  {
    assert [] + t.consumed == t.consumed && [] + t.replies == t.replies;
  }

  lemma ParseControl(b: Bytes)
    requires FirstFrame(b).Control?
    ensures Parse(b) == Prepend(b[..FirstFrame(b).size], FirstFrame(b).reply, Parse(b[FirstFrame(b).size..]))
  {
  }

  /**
   Cutting the stream anywhere changes nothing: the handshake on a longer stream continues
   from what the handshake on its beginning left over.
   */
  lemma {:induction false} ParseExtends(b: Bytes, more: Bytes)
    ensures Parse(b).verdict.NeedMore? ==> Parse(b + more) == Continue(Parse(b), Parse(Parse(b).rest + more))
    ensures !Parse(b).verdict.NeedMore? ==> Parse(b + more) == Parse(b).(rest := Parse(b).rest + more)
    decreases |b|
  {
    hide FirstFrame;
    match FirstFrame(b)
    case Incomplete =>
      ContinueFromNothing(b, Parse(b + more));
    case Control(size, reply) =>
      FirstFrameStable(b, more);
      assert (b + more)[..size] == b[..size] && (b + more)[size..] == b[size..] + more;
      ParseControl(b);
      ParseControl(b + more);
      ParseExtends(b[size..], more);
      hide Parse, Continue;
      var h := Parse(b[size..]);
      PrependContinue(b[..size], reply, h, Parse(h.rest + more));
    case _ =>
      FirstFrameStable(b, more);
  }

  lemma AnswersPrepend(frame: Bytes, reply: Option<Bytes>, h: Handshake)
    requires FirstFrame(frame).Control? && FirstFrame(frame).size == |frame| && FirstFrame(frame).reply == reply
    requires Answers(h.consumed, h.replies)
    ensures Answers(Prepend(frame, reply, h).consumed, Prepend(frame, reply, h).replies)
    ensures Join(Prepend(frame, reply, h).consumed) == frame + Join(h.consumed)
  {
    hide FirstFrame;
    var p := Prepend(frame, reply, h);
    assert p.consumed[0] == frame && p.consumed[1..] == h.consumed;
    if reply.Some? {
      assert p.replies[0] == reply.value && p.replies[1..] == h.replies;
    } else {
      assert p.replies == h.replies;
    }
  }

  /** What precedes the rest is whole PING and PONG frames, each PING answered once, in order. */
  lemma {:induction false} ParseConsumesControlFrames(b: Bytes)
    ensures Join(Parse(b).consumed) + Parse(b).rest == b
    ensures Answers(Parse(b).consumed, Parse(b).replies)
    decreases |b|
  {
    hide FirstFrame;
    if FirstFrame(b).Control? {
      ParseControl(b);
      ControlFrameAlone(b);
      hide Parse, Answers, Join, Prepend;
      var size := FirstFrame(b).size;
      var t := Parse(b[size..]);
      ParseConsumesControlFrames(b[size..]);
      AnswersPrepend(b[..size], FirstFrame(b).reply, t);
      PrependKeepsRest(b[..size], FirstFrame(b).reply, t);
      assert b == b[..size] + (Join(t.consumed) + t.rest);
    }
  }

  lemma PrependKeepsRest(frame: Bytes, reply: Option<Bytes>, h: Handshake)
    ensures Prepend(frame, reply, h).rest == h.rest && Prepend(frame, reply, h).verdict == h.verdict
  {
  }

  /** Left over between reads is always less than one header and one full login payload. */
  lemma {:induction false} LeftoverIsSmall(b: Bytes)
    requires Parse(b).verdict.NeedMore?
    ensures |Parse(b).rest| < HEADER_BYTES + MAX_LOGIN_PAYLOAD
    ensures FirstFrame(Parse(b).rest).Incomplete? && Parse(Parse(b).rest) == Handshake([], [], Parse(b).rest, NeedMore)
    decreases |b|
  {
    hide FirstFrame;
    match FirstFrame(b)
    case Control(size, _) => LeftoverIsSmall(b[size..]);
    case _ => IncompleteIsShort(b);
  }

  // ---- reads of any size -----------------------------------------------------------------------

  // what one more read does to a handshake in progress or decided
  function Feed(h: Handshake, data: Bytes): Handshake {
    if h.verdict.NeedMore? then Continue(h, Parse(h.rest + data)) else h.(rest := h.rest + data)
  }

  function FeedAll(chunks: seq<Bytes>): Handshake {
    if chunks == [] then Parse([]) else Feed(FeedAll(chunks[..|chunks| - 1]), chunks[|chunks| - 1])
  }

  lemma {:induction false} JoinLast(chunks: seq<Bytes>, last: Bytes)
    ensures Join(chunks + [last]) == Join(chunks) + last
  {
    if chunks == [] {
      assert [last][1..] == [] && ([] + [last])[0] == last;
    } else {
      JoinLast(chunks[1..], last);
      assert (chunks + [last])[0] == chunks[0] && (chunks + [last])[1..] == chunks[1..] + [last];
    }
  }

  lemma {:induction false} FeedAllIsParse(chunks: seq<Bytes>)
    ensures FeedAll(chunks) == Parse(Join(chunks))
  {
    hide Parse, Continue;
    if chunks != [] {
      var init, last := chunks[..|chunks| - 1], chunks[|chunks| - 1];
      FeedAllIsParse(init);
      assert chunks == init + [last];
      JoinLast(init, last);
      ParseExtends(Join(init), last);
    }
  }

  /**
   Two ways of cutting the same bytes into reads give the same verdict, the same consumed
   frames, the same replies and the same bytes for the backend.
   */
  lemma CutsDoNotMatter(chunks: seq<Bytes>, chunks': seq<Bytes>)
    requires Join(chunks) == Join(chunks')
    ensures FeedAll(chunks) == FeedAll(chunks')
  {
    FeedAllIsParse(chunks);
    FeedAllIsParse(chunks');
  }

  // ---- the connection -----------------------------------------------------------------------------------

  datatype Phase = Waiting | Bridging

  class GatewayConnection {
    const policy: Policy
    var phase: Phase
    var stopped: bool
    var expired: bool           // the handshake deadline came before a decision
    var prebuffer: Bytes
    var clientId: Bytes
    var sent: seq<Bytes>        // frames given to the client's send queue, in order
    var forwarded: Bytes        // bytes given to the backend, in order
    ghost var received: Bytes   // every byte read from the client

    constructor (policy: Policy)
      ensures this.policy == policy && received == [] && Valid() && !stopped
    {
      this.policy, expired := policy, false;
      phase, stopped, prebuffer, clientId, sent, forwarded, received := Waiting, false, [], [], [], [], [];
    }

    // The state is a function of the bytes received, and of whether the deadline cut them short.
    ghost predicate Valid()
      reads this
    {
      var h := Parse(received);
      match h.verdict
      case NeedMore =>
        phase == Waiting && stopped == expired && prebuffer == h.rest && sent == h.replies && forwarded == []
      case Refused =>
        phase == Waiting && stopped && !expired && sent == h.replies && forwarded == []
      case LoggedIn(user, token) =>
        match Admit(policy, user, token)
        case None => phase == Waiting && stopped && !expired && sent == h.replies && forwarded == []
        case Some(client) =>
          && phase == Bridging && !stopped && !expired && clientId == client && forwarded == h.rest
          && sent == h.replies + (if policy.ticket.Some? then [policy.ticket.value] else [])
    }

    /** Act on the decoded login: authenticate, open the backend, hand over the buffered bytes. */
    method FinishLogin(user: Bytes, token: Bytes)
      modifies this
      ensures received == old(received) && expired == old(expired)
      ensures match Admit(policy, user, token)
        case None => stopped && phase == old(phase) && sent == old(sent) && forwarded == old(forwarded)
        case Some(client) =>
          && phase == Bridging && stopped == old(stopped) && clientId == client
          && forwarded == old(forwarded) + old(prebuffer)
          && sent == old(sent) + (if policy.ticket.Some? then [policy.ticket.value] else [])
    {
      var auth := policy.authenticate(user, token);
      if !auth.success {
        stopped := true;
        return;
      }
      var key := if user != [] then user else auth.subject;
      if key == [] || key == GUEST {
        key := ANONYMOUS;
      }
      if !policy.allowAnonymous && (token == [] || key == ANONYMOUS) {
        stopped := true;
        return;
      }
      if !policy.backendFor(key) {
        stopped := true;
        return;
      }
      clientId := key;
      if policy.ticket.Some? {
        sent := sent + [policy.ticket.value];
      }
      forwarded := forwarded + prebuffer;
      prebuffer := [];
      phase := Bridging;
    }

    /** Consume complete frames from the buffer until one decides the handshake or bytes run out. */
    method TryFinishHandshake()
      requires phase == Waiting && !stopped && !expired && forwarded == []
      requires var h := Parse(received); var t := Parse(prebuffer);
        h.replies == sent + t.replies && h.rest == t.rest && h.verdict == t.verdict
      modifies this
      ensures received == old(received) && Valid() && !expired
    {
      hide FirstFrame, Admit;
      while phase == Waiting
        invariant phase == Waiting && !stopped && !expired && forwarded == [] && received == old(received)
        invariant var h := Parse(received); var t := Parse(prebuffer);
          h.replies == sent + t.replies && h.rest == t.rest && h.verdict == t.verdict
        decreases |prebuffer|
      {
        var frame := DecideFrame(prebuffer);
        match frame {
          case Incomplete => return;
          case Unacceptable =>
            stopped := true;
            return;
          case Control(size, reply) =>
            ghost var t := Parse(prebuffer[size..]);
            if reply.Some? {
              assert sent + ([reply.value] + t.replies) == sent + [reply.value] + t.replies;
              sent := sent + [reply.value];
            } else {
              assert [] + t.replies == t.replies;
            }
            prebuffer := prebuffer[size..];
          case LoginFrame(user, token) =>
            FinishLogin(user, token);
            return;
        }
      }
    }

    /** One read from the client socket. */
    method OnRead(data: Bytes)
      requires Valid() && !stopped && 0 < |data| <= READ_BUFFER
      modifies this
      ensures Valid() && received == old(received) + data && !expired
      ensures old(phase) == Bridging ==> phase == Bridging && forwarded == old(forwarded) + data && sent == old(sent)
    {
      hide FirstFrame, Admit;
      ParseExtends(received, data);
      if phase == Waiting {
        LeftoverIsSmall(received);
        if |prebuffer| + |data| > MAX_HANDSHAKE {
          assert false;
        }
        prebuffer := prebuffer + data;
        received := received + data;
        TryFinishHandshake();
      } else {
        forwarded := forwarded + data;
        received := received + data;
      }
    }

    /** The handshake deadline: it stops a connection that has not logged in yet, and no other. */
    method OnDeadline()
      requires Valid() && !stopped
      modifies this`stopped, this`expired
      ensures Valid() && expired == stopped && (stopped <==> Parse(received).verdict.NeedMore?)
    {
      hide Parse, Admit;
      if phase != Waiting {
        return;
      }
      stopped := true;
      expired := true;
    }
  }

  // what the event loop may deliver
  datatype Delivery = Chunk(bytes: Bytes) | Deadline

  // the bytes among the first n deliveries
  function Delivered(items: seq<Delivery>, n: nat): Bytes
    requires n <= |items|
  {
    if n == 0 then []
    else if items[n - 1].Chunk? then Delivered(items, n - 1) + items[n - 1].bytes
    else Delivered(items, n - 1)
  }

  /** The events of one connection, in any order, until it stops itself. */
  method ServeReads(c: GatewayConnection, items: seq<Delivery>) returns (n: nat)
    requires c.Valid() && !c.stopped && c.received == []
    requires forall i :: 0 <= i < |items| && items[i].Chunk? ==> 0 < |items[i].bytes| <= READ_BUFFER
    modifies c
    ensures c.Valid() && n <= |items| && c.received == Delivered(items, n)
    ensures n < |items| ==> c.stopped
    ensures c.expired ==> n > 0 && items[n - 1].Deadline? && Parse(c.received).verdict.NeedMore?
  {
    hide Parse, Admit;
    n := 0;
    while n < |items| && !c.stopped
      invariant n <= |items| && c.Valid() && c.received == Delivered(items, n)
      invariant c.expired ==> c.stopped && n > 0 && items[n - 1].Deadline? && Parse(c.received).verdict.NeedMore?
    {
      match items[n] {
        case Chunk(bytes) =>
          c.OnRead(bytes);
        case Deadline =>
          c.OnDeadline();
      }
      n := n + 1;
    }
  }

  /** The checks on the frame at the front of the buffer, in the order they are made. */
  method DecideFrame(b: Bytes) returns (f: Frame)
    ensures f == FirstFrame(b)
  {
    if |b| < HEADER_BYTES {
      return Incomplete;
    }
    var h := DecodeHeader(b);
    if h.length > MAX_LOGIN_PAYLOAD {
      return Unacceptable;
    }
    var size := HEADER_BYTES + h.length;
    if |b| < size {
      return Incomplete;
    }
    var payload := b[HEADER_BYTES..size];
    if IsSystemMessage(h.msgId) {
      if h.msgId == MSG_PING {
        return Control(size, Some(ControlFrame(h, MSG_PONG, payload)));
      }
      if h.msgId == MSG_PONG {
        return Control(size, None);
      }
      return Unacceptable;
    }
    if h.msgId != MSG_LOGIN_REQ {
      return Unacceptable;
    }
    var user := ReadLp(payload);
    if user.Bad? {
      return Unacceptable;
    }
    var token := ReadLp(user.rest);
    if token.Bad? {
      return Unacceptable;
    }
    return LoginFrame(user.value, token.value);
  }
}
