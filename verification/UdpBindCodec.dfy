/**
 The two payloads of the UDP bind exchange. The gateway writes responses and parses
 requests, the client writes requests and parses responses; each parser is the exact
 inverse of the other side's writer. The text that is signed names its triple uniquely.
 */
module UdpBindCodec {
  import opened Wrappers
  import opened Packet
  import Utf8
  import Decimal

  datatype BindRequest = BindRequest(session: Bytes, nonce: nat, expires: nat, token: Bytes)

  datatype BindResponse = BindResponse(
    code: nat, session: Bytes, nonce: nat, expires: nat, token: Bytes, message: Bytes)

  function EncodeRequest(r: BindRequest): Bytes {
    WriteLp(r.session) + (WriteBe(r.nonce, 8) + (WriteBe(r.expires, 8) + WriteLp(r.token)))
  }

  function ParseRequest(payload: Bytes): Option<BindRequest> {
    var session := ReadLp(payload);
    if session.Bad? then None else
    var nonce := ReadBe64(session.rest);
    if nonce.Bad? then None else
    var expires := ReadBe64(nonce.rest);
    if expires.Bad? then None else
    var token := ReadLp(expires.rest);
    if token.Bad? || token.rest != [] then None
    else Some(BindRequest(session.value, nonce.value, expires.value, token.value))
  }

  function EncodeResponse(r: BindResponse): Bytes {
    WriteBe(r.code, 2)
    + (WriteLp(r.session) + (WriteBe(r.nonce, 8) + (WriteBe(r.expires, 8) + (WriteLp(r.token) + WriteLp(r.message)))))
  }

  function ParseResponse(payload: Bytes): Option<BindResponse> {
    if |payload| < 2 then None else
    var code := ReadBe(payload[..2]);
    var session := ReadLp(payload[2..]);
    if session.Bad? then None else
    var nonce := ReadBe64(session.rest);
    if nonce.Bad? then None else
    var expires := ReadBe64(nonce.rest);
    if expires.Bad? then None else
    var token := ReadLp(expires.rest);
    if token.Bad? then None else
    var message := ReadLp(token.rest);
    if message.Bad? || message.rest != [] then None
    else Some(BindResponse(code, session.value, nonce.value, expires.value, token.value, message.value))
  }

  predicate RequestFits(r: BindRequest) {
    LpFits(r.session) && r.nonce < Pow256(8) && r.expires < Pow256(8) && LpFits(r.token)
  }

  predicate ResponseFits(r: BindResponse) {
    && r.code < Pow256(2) && LpFits(r.session) && r.nonce < Pow256(8) && r.expires < Pow256(8)
    && LpFits(r.token) && LpFits(r.message)
  }

  /** Accepted bytes re-encode to themselves, so no two byte strings mean one request. */
  lemma EncodeParsedRequest(payload: Bytes)
    requires ParseRequest(payload).Some?
    ensures RequestFits(ParseRequest(payload).value) && EncodeRequest(ParseRequest(payload).value) == payload
  {
    hide ReadLp, WriteLp, ReadBe64, WriteBe, Pow256, LpFits;
    var session := ReadLp(payload);
    var nonce := ReadBe64(session.rest);
    var expires := ReadBe64(nonce.rest);
    var token := ReadLp(expires.rest);
    WriteReadLp(payload);
    WriteRead64(session.rest);
    WriteRead64(nonce.rest);
    WriteReadLp(expires.rest);
    assert WriteLp(token.value) + [] == WriteLp(token.value);
  }

  /** A request is parsed back exactly when its strings fit the prefix and its numbers 64 bits. */
  lemma ParseEncodedRequest(r: BindRequest)
    ensures ParseRequest(EncodeRequest(r)) == Some(r) <==> RequestFits(r)
  {
    if RequestFits(r) {
      hide ReadLp, WriteLp, ReadBe64, WriteBe, Pow256, LpFits;
      var tail := WriteLp(r.token);
      ReadWrittenLp(r.session, WriteBe(r.nonce, 8) + (WriteBe(r.expires, 8) + tail));
      ReadWritten64(r.nonce, WriteBe(r.expires, 8) + tail);
      ReadWritten64(r.expires, tail);
      ReadWrittenLp(r.token, []);
      assert tail + [] == tail;
    }
    if ParseRequest(EncodeRequest(r)) == Some(r) {
      EncodeParsedRequest(EncodeRequest(r));
    }
  }

  lemma EncodeParsedResponse(payload: Bytes)
    requires ParseResponse(payload).Some?
    ensures ResponseFits(ParseResponse(payload).value) && EncodeResponse(ParseResponse(payload).value) == payload
  {
    hide ReadLp, WriteLp, ReadBe64, WriteBe, ReadBe, Pow256, LpFits;
    var session := ReadLp(payload[2..]);
    var nonce := ReadBe64(session.rest);
    var expires := ReadBe64(nonce.rest);
    var token := ReadLp(expires.rest);
    var message := ReadLp(token.rest);
    WriteRead(payload[..2]);
    WriteReadLp(payload[2..]);
    WriteRead64(session.rest);
    WriteRead64(nonce.rest);
    WriteReadLp(expires.rest);
    WriteReadLp(token.rest);
    assert WriteLp(message.value) + [] == WriteLp(message.value);
    assert payload == payload[..2] + payload[2..];
  }

  lemma ParseEncodedResponse(r: BindResponse)
    ensures ParseResponse(EncodeResponse(r)) == Some(r) <==> ResponseFits(r)
  {
    if ResponseFits(r) {
      hide ReadLp, WriteLp, ReadBe64, WriteBe, ReadBe, Pow256, LpFits;
      var last := WriteLp(r.message);
      var s4 := WriteLp(r.token) + last;
      var s3 := WriteBe(r.expires, 8) + s4;
      var s2 := WriteBe(r.nonce, 8) + s3;
      var s1 := WriteLp(r.session) + s2;
      ReadWritten(r.code, 2);
      ReadWrittenLp(r.session, s2);
      ReadWritten64(r.nonce, s3);
      ReadWritten64(r.expires, s4);
      ReadWrittenLp(r.token, last);
      ReadWrittenLp(r.message, []);
      assert last + [] == last;
      var payload := EncodeResponse(r);
      assert payload == WriteBe(r.code, 2) + s1;
      assert payload[..2] == WriteBe(r.code, 2) && payload[2..] == s1;
    }
    if ParseResponse(EncodeResponse(r)) == Some(r) {
      EncodeParsedResponse(EncodeResponse(r));
    }
  }

  // ---- the signed text ---------------------------------------------------------------------------

  const BAR: Utf8.Byte := 124

  // a number's decimal digits as bytes
  function Digits(n: nat): (d: Bytes)
    ensures forall k :: 0 <= k < |d| ==> d[k] != BAR
  {
    var s := Decimal.ToDecimal(n);
    seq(|s|, k requires 0 <= k < |s| => s[k] as int)
  }

  function SigningInput(session: Bytes, nonce: nat, expires: nat): Bytes {
    session + [BAR] + Digits(nonce) + [BAR] + Digits(expires)
  }

  lemma DigitsInjective(a: nat, b: nat)
    requires Digits(a) == Digits(b)
    ensures a == b
  {
    var s, t := Decimal.ToDecimal(a), Decimal.ToDecimal(b);
    assert |s| == |Digits(a)| == |Digits(b)| == |t|;
    forall k | 0 <= k < |s| ensures s[k] == t[k] {
      assert Digits(a)[k] == s[k] as int && Digits(b)[k] == t[k] as int;
    }
    Decimal.DecimalInjective(a, b);
  }

  lemma LastBarSplits(a: Bytes, d: Bytes, a': Bytes, d': Bytes)
    requires BAR !in d && BAR !in d' && a + [BAR] + d == a' + [BAR] + d'
    ensures a == a' && d == d'
  {
    var s, s' := a + [BAR] + d, a' + [BAR] + d';
    NoLaterBar(a, d);
    NoLaterBar(a', d');
    assert s[|a|] == BAR && s'[|a'|] == BAR;
    assert |a| == |a'|;
    assert a == s[..|a|] && a' == s'[..|a'|];
    assert d == s[|a| + 1..] && d' == s'[|a'| + 1..];
  }

  lemma NoLaterBar(a: Bytes, d: Bytes)
    requires BAR !in d
    ensures forall k :: |a| < k < |a + [BAR] + d| ==> (a + [BAR] + d)[k] != BAR
  {
    forall k | |a| < k < |a + [BAR] + d| ensures (a + [BAR] + d)[k] != BAR {
      assert (a + [BAR] + d)[k] == d[k - |a| - 1];
    }
  }

  /** Different (session, nonce, expiry) triples never sign the same text, even if a session id contains bars. */
  lemma SigningInputInjective(s: Bytes, n: nat, e: nat, s': Bytes, n': nat, e': nat)
    requires SigningInput(s, n, e) == SigningInput(s', n', e')
    ensures s == s' && n == n' && e == e'
  {
    hide Digits;
    LastBarSplits(s + [BAR] + Digits(n), Digits(e), s' + [BAR] + Digits(n'), Digits(e'));
    LastBarSplits(s, Digits(n), s', Digits(n'));
    DigitsInjective(e, e');
    DigitsInjective(n, n');
  }
}
