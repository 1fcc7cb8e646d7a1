/**
 The database row an event becomes. Worker and replayer build it independently, from
 different lookups over different pairs; this module says when the two agree.
 */
module EventRow {
  import opened Wrappers
  import opened EventFields
  import Decimal

  datatype Entry = Entry(id: string, fields: Fields)

  datatype Row = Row(
    kind: string,
    ts: int,
    userId: string,
    sessionId: string,
    roomId: string,
    payload: map<string, string>)

  // The columns both programs fill the same way. The identifier columns differ by design:
  // the worker blanks malformed identifiers, the replayer sends them to the database.
  datatype Core = Core(kind: string, ts: int, payload: map<string, string>)

  function CoreOf(row: Row): Core {
    Core(row.kind, row.ts, row.payload)
  }

  function EventTime(text: string): int {
    match Decimal.ParseBounded(text, Decimal.LLONG_MIN, Decimal.LLONG_MAX)
    case Some(n) => n
    case None => 0
  }

  // ---- identifiers ------------------------------------------------------------------

  predicate IsHex(c: char) {
    '0' <= c <= '9' || 'a' <= c <= 'f' || 'A' <= c <= 'F'
  }

  predicate IsUuid(s: string) {
    && |s| == 36
    && forall i :: 0 <= i < 36 ==> if i in {8, 13, 18, 23} then s[i] == '-' else IsHex(s[i])
  }

  /** The scan that advances over the four dash positions decides IsUuid. */
  method CheckUuid(s: string) returns (ok: bool)
    ensures ok <==> IsUuid(s)
  {
    if |s| != 36 {
      return false;
    }
    var dashes := [8, 13, 18, 23];
    var j := 0;
    for i := 0 to 36
      invariant 0 <= j <= 4
      invariant j > 0 ==> dashes[j - 1] < i
      invariant j < 4 ==> i <= dashes[j]
      invariant forall k :: 0 <= k < i ==> if k in {8, 13, 18, 23} then s[k] == '-' else IsHex(s[k])
    {
      if j < 4 && i == dashes[j] {
        if s[i] != '-' {
          return false;
        }
        j := j + 1;
      } else if !IsHex(s[i]) {
        return false;
      }
    }
    return true;
  }

  function NormalizeUuid(s: string): string {
    if IsUuid(s) then s else ""
  }

  // ---- the two row builders, as specifications --------------------------------------

  function WorkerRow(fs: Fields): Row {
    var m := LastWins(fs);
    Row(Lookup(m, "type", "unknown"),
        EventTime(Lookup(m, "ts_ms", "0")),
        NormalizeUuid(Lookup(m, "user_id", "")),
        NormalizeUuid(Lookup(m, "session_id", "")),
        NormalizeUuid(Lookup(m, "room_id", "")),
        m)
  }

  function ReplayRow(copy: Fields): Row {
    var m := FirstWins(copy);
    Row(Lookup(m, "type", "unknown"),
        EventTime(Lookup(m, "ts_ms", "0")),
        Lookup(m, "user_id", ""),
        Lookup(m, "session_id", ""),
        Lookup(m, "room_id", ""),
        m - {ORIG_ID, ERROR, RETRY_COUNT})
  }

  function CoreOfPayload(payload: map<string, string>): Core {
    Core(Lookup(payload, "type", "unknown"), EventTime(Lookup(payload, "ts_ms", "0")), payload)
  }

  // ---- when they agree ----------------------------------------------------------------

  // The pairs use no metadata name, and a repeated name starts and ends with one value.
  ghost predicate Clean(fs: Fields) {
    && (forall i :: 0 <= i < |fs| ==> !IsMeta(fs[i].0))
    && (forall i, j :: FirstAt(fs, i) && LastAt(fs, j) && fs[i].0 == fs[j].0 ==> fs[i].1 == fs[j].1)
  }

  lemma {:induction false} FirstOccurrence(fs: Fields, k: int) returns (i: int)
    requires 0 <= k < |fs|
    ensures FirstAt(fs, i) && fs[i].0 == fs[k].0
    decreases k
  {
    i := k;
    if j :| 0 <= j < k && fs[j].0 == fs[k].0 {
      i := FirstOccurrence(fs, j);
    }
  }

  lemma {:induction false} LastOccurrence(fs: Fields, k: int) returns (i: int)
    requires 0 <= k < |fs|
    ensures LastAt(fs, i) && fs[i].0 == fs[k].0
    decreases |fs| - k
  {
    i := k;
    if j :| k < j < |fs| && fs[j].0 == fs[k].0 {
      i := LastOccurrence(fs, j);
    }
  }

  lemma ReplayCoreOfCopy(copy: Fields, id: string, fs: Fields)
    requires Carries(copy, id, fs)
    ensures CoreOf(ReplayRow(copy)) == CoreOfPayload(FirstWins(Strip(fs)))
  {
    FirstWinsStrip(copy);
  }

  lemma CleanLookupsAgree(fs: Fields)
    requires Clean(fs)
    ensures FirstWins(Strip(fs)) == LastWins(fs)
  {
    FirstWinsStrip(fs);
    var first, last := FirstWins(Strip(fs)), LastWins(fs);
    forall name
      ensures name in first <==> name in last
      ensures name in first ==> first[name] == last[name]
    {
      FirstWinsNames(fs, name);
      LastWinsNames(fs, name);
      if HasName(fs, name) {
        var k :| 0 <= k < |fs| && fs[k].0 == name;
        var i := FirstOccurrence(fs, k);
        var j := LastOccurrence(fs, k);
        FirstWinsAt(fs, i);
        LastWinsAt(fs, j);
      }
    }
  }

  lemma AgreeingLookupsAreClean(fs: Fields)
    requires FirstWins(Strip(fs)) == LastWins(fs)
    ensures Clean(fs)
  {
    FirstWinsStrip(fs);
    forall i | 0 <= i < |fs|
      ensures !IsMeta(fs[i].0)
    {
      LastWinsNames(fs, fs[i].0);
    }
    forall i, j | FirstAt(fs, i) && LastAt(fs, j) && fs[i].0 == fs[j].0
      ensures fs[i].1 == fs[j].1
    {
      FirstWinsAt(fs, i);
      LastWinsAt(fs, j);
    }
  }

  /**
   The row replayed from any copy of an event shows the event's type, time and payload as
   the worker would have stored them if and only if the event's pairs are clean.
   */
  lemma ReplayAgreesExactlyWhenClean(copy: Fields, id: string, fs: Fields)
    requires Carries(copy, id, fs)
    ensures CoreOf(ReplayRow(copy)) == CoreOf(WorkerRow(fs)) <==> Clean(fs)
  {
    ReplayCoreOfCopy(copy, id, fs);
    if Clean(fs) {
      CleanLookupsAgree(fs);
    }
    if FirstWins(Strip(fs)) == LastWins(fs) {
      AgreeingLookupsAreClean(fs);
    }
  }

  /** A repeated name with two values: the worker stores the last, a replay the first. */
  lemma RepeatedNameDiffers(id: string, error: string)
    ensures var fs := [("a", "1"), ("a", "2")];
      !Clean(fs) && CoreOf(ReplayRow(DlqCopy(id, fs, error))) != CoreOf(WorkerRow(fs))
  {
    var fs := [("a", "1"), ("a", "2")];
    assert FirstAt(fs, 0) && LastAt(fs, 1) && fs[0].0 == fs[1].0 && fs[0].1 != fs[1].1;
    DlqCopyCarries(id, fs, error);
    ReplayAgreesExactlyWhenClean(DlqCopy(id, fs, error), id, fs);
  }
}
