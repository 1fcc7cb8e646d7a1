/**
 Byte-level formats shared by gateway and clients: big-endian integers, the 14-byte frame
 header, and strings with a 2-byte length prefix. Writing and reading are inverse to one
 another in both directions.
 */
module Packet {
  import opened Utf8

  type Bytes = seq<Byte>

  const HEADER_BYTES := 14
  const LP_MAX := 0xFFFF

  // ---- big-endian integers ---------------------------------------------------------------

  function Pow256(n: nat): nat {
    if n == 0 then 1 else 256 * Pow256(n - 1)
  }

  // the n low-order bytes of v, most significant first
  function WriteBe(v: nat, n: nat): (bytes: Bytes)
    ensures |bytes| == n
  {
    if n == 0 then [] else WriteBe(v / 256, n - 1) + [v % 256]
  }

  function ReadBe(s: Bytes): nat {
    if s == [] then 0 else ReadBe(s[..|s| - 1]) * 256 + s[|s| - 1]
  }

  /** Every value that fits in n bytes survives being written and read. */
  lemma {:induction false} ReadWritten(v: nat, n: nat)
    requires v < Pow256(n)
    ensures ReadBe(WriteBe(v, n)) == v
  {
    if n > 0 {
      ReadWritten(v / 256, n - 1);
      var s := WriteBe(v, n);
      assert s[..|s| - 1] == WriteBe(v / 256, n - 1);
    }
  }

  /** Any n bytes are what writing their value gives, and that value fits in n bytes. */
  lemma {:induction false} WriteRead(s: Bytes)
    ensures ReadBe(s) < Pow256(|s|) && WriteBe(ReadBe(s), |s|) == s
  {
    if s != [] {
      WriteRead(s[..|s| - 1]);
      assert s == s[..|s| - 1] + [s[|s| - 1]];
    }
  }

  // ---- frame header ------------------------------------------------------------------------

  datatype Header = Header(length: nat, msgId: nat, flags: nat, sequence: nat, timestamp: nat)

  predicate HeaderFits(h: Header) {
    && h.length < Pow256(2) && h.msgId < Pow256(2) && h.flags < Pow256(2)
    && h.sequence < Pow256(4) && h.timestamp < Pow256(4)
  }

  function EncodeHeader(h: Header): (bytes: Bytes)
    ensures |bytes| == HEADER_BYTES
  {
    WriteBe(h.length, 2) + WriteBe(h.msgId, 2) + WriteBe(h.flags, 2)
    + WriteBe(h.sequence, 4) + WriteBe(h.timestamp, 4)
  }

  function DecodeHeader(s: Bytes): Header
    requires |s| >= HEADER_BYTES
  {
    Header(ReadBe(s[0..2]), ReadBe(s[2..4]), ReadBe(s[4..6]), ReadBe(s[6..10]), ReadBe(s[10..14]))
  }

  lemma DecodeEncodedHeader(h: Header, rest: Bytes)
    requires HeaderFits(h)
    ensures DecodeHeader(EncodeHeader(h) + rest) == h
  {
    hide ReadBe, WriteBe;
    ReadWritten(h.length, 2);
    ReadWritten(h.msgId, 2);
    ReadWritten(h.flags, 2);
    ReadWritten(h.sequence, 4);
    ReadWritten(h.timestamp, 4);
    var s := EncodeHeader(h) + rest;
    assert s[0..2] == WriteBe(h.length, 2);
    assert s[2..4] == WriteBe(h.msgId, 2);
    assert s[4..6] == WriteBe(h.flags, 2);
    assert s[6..10] == WriteBe(h.sequence, 4);
    assert s[10..14] == WriteBe(h.timestamp, 4);
  }

  lemma EncodeDecodedHeader(s: Bytes)
    requires |s| >= HEADER_BYTES
    ensures HeaderFits(DecodeHeader(s)) && EncodeHeader(DecodeHeader(s)) == s[..HEADER_BYTES]
  {
    hide ReadBe, WriteBe;
    WriteRead(s[0..2]);
    WriteRead(s[2..4]);
    WriteRead(s[4..6]);
    WriteRead(s[6..10]);
    WriteRead(s[10..14]);
    assert s[0..2] + s[2..4] + s[4..6] + s[6..10] + s[10..14] == s[..14];
  }

  // ---- length-prefixed strings ----------------------------------------------------------------

  datatype Reading<T> = Bad | Got(value: T, rest: Bytes)

  function WriteLp(s: Bytes): Bytes {
    var t := if |s| > LP_MAX then s[..LP_MAX] else s;
    WriteBe(|t|, 2) + t
  }

  function ReadLp(s: Bytes): Reading<Bytes> {
    if |s| < 2 then Bad
    else
      var len := ReadBe(s[..2]);
      if |s| < 2 + len || !ValidUtf8(s[2..2 + len]) then Bad else Got(s[2..2 + len], s[2 + len..])
  }

  function ReadBe64(s: Bytes): Reading<nat> {
    if |s| < 8 then Bad else Got(ReadBe(s[..8]), s[8..])
  }

  predicate LpFits(s: Bytes) {
    |s| <= LP_MAX && ValidUtf8(s)
  }

  /** A string is read back from its own prefix form exactly when it fits and is valid. */
  lemma ReadWrittenLp(s: Bytes, rest: Bytes)
    ensures ReadLp(WriteLp(s) + rest) == Got(s, rest) <==> LpFits(s)
  {
    hide ReadBe, WriteBe, ValidUtf8;
    var t := if |s| > LP_MAX then s[..LP_MAX] else s;
    var w := WriteLp(s) + rest;
    assert Pow256(2) == 0x10000;
    ReadWritten(|t|, 2);
    assert w[..2] == WriteBe(|t|, 2);
    assert w[2..2 + |t|] == t;
    assert w[2 + |t|..] == rest;
  }

  /** Whatever is read re-encodes to the bytes it was read from. */
  lemma WriteReadLp(s: Bytes)
    requires ReadLp(s).Got?
    ensures LpFits(ReadLp(s).value) && WriteLp(ReadLp(s).value) + ReadLp(s).rest == s
  {
    hide ReadBe, WriteBe, ValidUtf8;
    assert Pow256(2) == 0x10000;
    WriteRead(s[..2]);
    var len := ReadBe(s[..2]);
    assert s == s[..2] + s[2..2 + len] + s[2 + len..];
  }

  lemma ReadWritten64(v: nat, rest: Bytes)
    requires v < Pow256(8)
    ensures ReadBe64(WriteBe(v, 8) + rest) == Got(v, rest)
  {
    hide ReadBe, WriteBe;
    ReadWritten(v, 8);
    assert (WriteBe(v, 8) + rest)[..8] == WriteBe(v, 8);
    assert (WriteBe(v, 8) + rest)[8..] == rest;
  }

  lemma WriteRead64(s: Bytes)
    requires ReadBe64(s).Got?
    ensures ReadBe64(s).value < Pow256(8) && WriteBe(ReadBe64(s).value, 8) + ReadBe64(s).rest == s
  {
    hide ReadBe, WriteBe;
    WriteRead(s[..8]);
    assert s == s[..8] + s[8..];
  }
}
