/**
 The strict UTF-8 test applied to every length-prefixed string. It refuses overlong
 forms, surrogates and code points past U+10FFFF; the main result says that what it lets
 through is exactly the sequences that encode Unicode scalar values (RFC 3629, section 3).
 */
module Utf8 {
  type Byte = b: int | 0 <= b < 256

  // ---- reference: encoding scalar values -----------------------------------------------

  predicate IsScalar(c: int) {
    0 <= c <= 0x10FFFF && !(0xD800 <= c <= 0xDFFF)
  }

  function Encode(c: int): (bytes: seq<Byte>)
    requires IsScalar(c)
    ensures bytes != []
  {
    if c < 0x80 then [c]
    else if c < 0x800 then [0xC0 + c / 64, 0x80 + c % 64]
    else if c < 0x10000 then [0xE0 + c / 64 / 64, 0x80 + c / 64 % 64, 0x80 + c % 64]
    else [0xF0 + c / 64 / 64 / 64, 0x80 + c / 64 / 64 % 64, 0x80 + c / 64 % 64, 0x80 + c % 64]
  }

  ghost predicate AllScalars(cs: seq<int>) {
    forall i :: 0 <= i < |cs| ==> IsScalar(cs[i])
  }

  ghost function EncodeAll(cs: seq<int>): seq<Byte>
    requires AllScalars(cs)
  {
    if cs == [] then [] else Encode(cs[0]) + EncodeAll(cs[1..])
  }

  ghost predicate IsEncoding(s: seq<Byte>) {
    exists cs :: AllScalars(cs) && EncodeAll(cs) == s
  }

  // ---- the test, character by character ---------------------------------------------------

  // Masks are written as ranges: (b & 0xE0) == 0xC0 holds for 0xC0 <= b < 0xE0, and then
  // b & 0x1F is b - 0xC0; likewise for the other leading bytes and for continuation bytes.

  // number of continuation bytes a leading byte announces; 4 stands for no such byte
  function Follow(lead: Byte): nat {
    if lead < 0x80 then 0
    else if 0xC0 <= lead < 0xE0 then 1
    else if 0xE0 <= lead < 0xF0 then 2
    else if 0xF0 <= lead < 0xF8 then 3
    else 4
  }

  function LeadBits(lead: Byte): int {
    match Follow(lead)
    case 0 => lead
    case 1 => lead - 0xC0
    case 2 => lead - 0xE0
    case _ => lead - 0xF0
  }

  function LeastCode(follow: nat): int {
    match follow
    case 0 => 0
    case 1 => 0x80
    case 2 => 0x800
    case _ => 0x10000
  }

  // the code point gathered from the leading byte and the next k bytes
  function Gathered(s: seq<Byte>, k: nat): int
    requires k < |s|
  {
    if k == 0 then LeadBits(s[0]) else Gathered(s, k - 1) * 64 + ContinuationBits(s[k])
  }

  predicate IsContinuation(b: Byte) {
    0x80 <= b < 0xC0
  }

  function ContinuationBits(b: Byte): int {
    b as int - 0x80
  }

  predicate Continues(s: seq<Byte>, k: nat) {
    k < |s| && forall i :: 1 <= i <= k ==> IsContinuation(s[i])
  }

  // length of the well-formed character at the front, 0 if there is none
  function CharLength(s: seq<Byte>): nat
    requires s != []
  {
    var follow := Follow(s[0]);
    if follow < 4 && Continues(s, follow)
       && LeastCode(follow) <= Gathered(s, follow) && IsScalar(Gathered(s, follow))
    then follow + 1
    else 0
  }

  predicate ValidUtf8(s: seq<Byte>)
    decreases |s|
  {
    s == [] || (0 < CharLength(s) <= |s| && ValidUtf8(s[CharLength(s)..]))
  }

  /** The inner loop: gather the announced continuation bytes or refuse. */
  method GatherContinuation(s: seq<Byte>, i: nat, follow: nat, lead: int) returns (ok: bool, codepoint: int)
    requires i + follow < |s| && lead == LeadBits(s[i])
    ensures ok <==> Continues(s[i..], follow)
    ensures ok ==> codepoint == Gathered(s[i..], follow)
  {
    codepoint := lead;
    ghost var rest := s[i..];
    for k := 1 to follow + 1
      invariant codepoint == Gathered(rest, k - 1)
      invariant forall j :: 1 <= j < k ==> IsContinuation(rest[j])
    {
      var cont := s[i + k];
      assert rest[k] == cont;
      if !(0x80 <= cont < 0xC0) {
        return false, codepoint;
      }
      codepoint := codepoint * 64 + ContinuationBits(cont);
    }
    return true, codepoint;
  }

  // the length of the character at position i, 0 if the bytes there are refused
  method ScanChar(s: seq<Byte>, i: nat) returns (length: nat)
    requires i < |s|
    ensures length == CharLength(s[i..])
  {
    var byte0 := s[i];
    if byte0 < 0x80 {
      assert Gathered(s[i..], 0) == byte0;
      return 1;
    }
    hide Gathered;
    var lead: int, follow, least := 0, 0, 0;
    if 0xC0 <= byte0 < 0xE0 {
      follow, lead, least := 1, byte0 as int - 0xC0, 0x80;
    } else if 0xE0 <= byte0 < 0xF0 {
      follow, lead, least := 2, byte0 as int - 0xE0, 0x800;
    } else if 0xF0 <= byte0 < 0xF8 {
      follow, lead, least := 3, byte0 as int - 0xF0, 0x10000;
    } else {
      return 0;
    }
    if i + follow >= |s| {
      return 0;
    }
    var continues, codepoint := GatherContinuation(s, i, follow, lead);
    if !continues || codepoint < least || codepoint > 0x10FFFF || 0xD800 <= codepoint <= 0xDFFF {
      return 0;
    }
    return follow + 1;
  }

  /** The scanning loop, with its early refusals, decides ValidUtf8. */
  method IsValidUtf8(s: seq<Byte>) returns (ok: bool)
    ensures ok <==> ValidUtf8(s)
  {
    var i := 0;
    while i < |s|
      invariant 0 <= i <= |s|
      invariant ValidUtf8(s) <==> ValidUtf8(s[i..])
    {
      var length := ScanChar(s, i);
      CharFits(s[i..]);
      hide CharLength;
      if length == 0 {
        return false;
      }
      assert s[i..][length..] == s[i + length..];
      i := i + length;
    }
    return true;
  }

  lemma CharFits(s: seq<Byte>)
    requires s != []
    ensures CharLength(s) <= |s|
  {
  }

  // ---- the test accepts exactly the encodings ------------------------------------------------

  lemma GatherFour(s: seq<Byte>)
    ensures |s| > 0 ==> Gathered(s, 0) == LeadBits(s[0])
    ensures |s| > 1 ==> Gathered(s, 1) == Gathered(s, 0) * 64 + ContinuationBits(s[1])
    ensures |s| > 2 ==> Gathered(s, 2) == Gathered(s, 1) * 64 + ContinuationBits(s[2])
    ensures |s| > 3 ==> Gathered(s, 3) == Gathered(s, 2) * 64 + ContinuationBits(s[3])
  {
  }

  lemma EncodeMeasures(c: int, rest: seq<Byte>)
    requires IsScalar(c)
    ensures CharLength(Encode(c) + rest) == |Encode(c)|
  {
    var s := Encode(c) + rest;
    var h1 := c / 64;
    var h2 := h1 / 64;
    var h3 := h2 / 64;
    GatherFour(s);
    hide Gathered;
    if c < 0x80 {
    } else if c < 0x800 {
      assert Gathered(s, 1) == c;
    } else if c < 0x10000 {
      assert Gathered(s, 1) == h1;
      assert Gathered(s, 2) == c;
    } else {
      assert Gathered(s, 1) == h2;
      assert Gathered(s, 2) == h1;
      assert Gathered(s, 3) == c;
    }
  }

  // digits in base 64 are recovered by division
  lemma SplitBase64(high: int, low: int)
    requires 0 <= low < 64
    ensures (high * 64 + low) / 64 == high && (high * 64 + low) % 64 == low
  {
  }

  // the code point gathered from k + 1 bytes is encoded by those bytes
  lemma GatheredEncodes2(s: seq<Byte>, c: int)
    requires |s| == 2 && 0xC0 <= s[0] < 0xE0 && IsContinuation(s[1])
    requires c == LeadBits(s[0]) * 64 + ContinuationBits(s[1]) && c >= 0x80
    ensures Encode(c) == s
  {
    SplitBase64(LeadBits(s[0]), ContinuationBits(s[1]));
  }

  lemma GatheredEncodes3(s: seq<Byte>, h: int, c: int)
    requires |s| == 3 && 0xE0 <= s[0] < 0xF0 && IsContinuation(s[1]) && IsContinuation(s[2])
    requires h == LeadBits(s[0]) * 64 + ContinuationBits(s[1])
    requires c == h * 64 + ContinuationBits(s[2]) && c >= 0x800 && IsScalar(c)
    ensures Encode(c) == s
  {
    SplitBase64(LeadBits(s[0]), ContinuationBits(s[1]));
    SplitBase64(h, ContinuationBits(s[2]));
  }

  lemma GatheredEncodes4(s: seq<Byte>, g: int, h: int, c: int)
    requires |s| == 4 && 0xF0 <= s[0] < 0xF8
    requires IsContinuation(s[1]) && IsContinuation(s[2]) && IsContinuation(s[3])
    requires g == LeadBits(s[0]) * 64 + ContinuationBits(s[1])
    requires h == g * 64 + ContinuationBits(s[2])
    requires c == h * 64 + ContinuationBits(s[3]) && c >= 0x10000 && IsScalar(c)
    ensures Encode(c) == s
  {
    SplitBase64(LeadBits(s[0]), ContinuationBits(s[1]));
    SplitBase64(g, ContinuationBits(s[2]));
    SplitBase64(h, ContinuationBits(s[3]));
  }

  lemma CharFacts(s: seq<Byte>)
    requires s != [] && CharLength(s) > 0
    ensures var k := CharLength(s) - 1;
      k == Follow(s[0]) < 4 && Continues(s, k) && LeastCode(k) <= Gathered(s, k) && IsScalar(Gathered(s, k))
  {
    hide Gathered, Continues, LeastCode, Follow;
  }

  lemma CharIsEncoding(s: seq<Byte>)
    requires s != [] && CharLength(s) > 0
    ensures CharLength(s) <= |s|
    ensures IsScalar(Gathered(s, CharLength(s) - 1))
    ensures s[..CharLength(s)] == Encode(Gathered(s, CharLength(s) - 1))
  {
    var k := CharLength(s) - 1;
    GatherFour(s);
    CharFacts(s);
    hide Gathered, Encode, CharLength, LeadBits, ContinuationBits, IsScalar;
    if k == 0 {
      assert Gathered(s, 0) == s[0] by { LeadOfOne(s[0]); }
      SingleByteEncodes(s[0]);
      assert s[..1] == [s[0]];
    } else if k == 1 {
      GatheredEncodes2(s[..2], Gathered(s, 1));
    } else if k == 2 {
      GatheredEncodes3(s[..3], Gathered(s, 1), Gathered(s, 2));
    } else {
      GatheredEncodes4(s[..4], Gathered(s, 1), Gathered(s, 2), Gathered(s, 3));
    }
  }

  lemma LeadOfOne(b: Byte)
    requires Follow(b) == 0
    ensures LeadBits(b) == b < 0x80
  {
  }

  lemma SingleByteEncodes(b: Byte)
    requires b < 0x80
    ensures Encode(b) == [b]
  {
  }

  lemma {:induction false} EncodingsAreValid(cs: seq<int>)
    requires AllScalars(cs)
    ensures ValidUtf8(EncodeAll(cs))
  {
    if cs != [] {
      var rest := EncodeAll(cs[1..]);
      EncodingsAreValid(cs[1..]);
      EncodeMeasures(cs[0], rest);
      assert (Encode(cs[0]) + rest)[|Encode(cs[0])|..] == rest;
    }
  }

  lemma {:induction false} ValidIsEncoding(s: seq<Byte>) returns (cs: seq<int>)
    requires ValidUtf8(s)
    ensures AllScalars(cs) && EncodeAll(cs) == s
    decreases |s|
  {
    if s == [] {
      cs := [];
    } else {
      var k := CharLength(s);
      CharIsEncoding(s);
      var tail := ValidIsEncoding(s[k..]);
      cs := [Gathered(s, k - 1)] + tail;
      assert cs[1..] == tail;
      assert s == s[..k] + s[k..];
    }
  }

  /** A byte string passes the test if and only if it encodes some sequence of scalar values. */
  lemma ValidExactlyEncodings(s: seq<Byte>)
    ensures ValidUtf8(s) <==> IsEncoding(s)
  {
    if ValidUtf8(s) {
      var cs := ValidIsEncoding(s);
    }
    if IsEncoding(s) {
      var cs :| AllScalars(cs) && EncodeAll(cs) == s;
      EncodingsAreValid(cs);
    }
  }
}
