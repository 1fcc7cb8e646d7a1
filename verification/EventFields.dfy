/**
 The name/value pairs of a stream entry, and the two ways the write-behind programs
 turn them into a lookup: the worker assigns pair after pair, so the last value of a
 name wins; the replayer emplaces, so the first value wins. Copies of an event made
 for the dead-letter stream wrap the pairs with three metadata names.
 */
module EventFields {
  import opened Wrappers
  import Decimal

  type Fields = seq<(string, string)>

  const ORIG_ID := "orig_event_id"
  const ERROR := "error"
  const RETRY_COUNT := "retry_count"

  predicate IsMeta(name: string) {
    name == ORIG_ID || name == ERROR || name == RETRY_COUNT
  }

  function LastWins(fs: Fields): map<string, string> {
    if fs == [] then map[]
    else LastWins(fs[..|fs| - 1])[fs[|fs| - 1].0 := fs[|fs| - 1].1]
  }

  function FirstWins(fs: Fields): map<string, string> {
    if fs == [] then map[]
    else
      var m, f := FirstWins(fs[..|fs| - 1]), fs[|fs| - 1];
      if f.0 in m then m else m[f.0 := f.1]
  }

  function Lookup(m: map<string, string>, name: string, default: string): string {
    if name in m then m[name] else default
  }

  // the pairs left when the metadata names are taken out
  function Strip(fs: Fields): Fields {
    if fs == [] then []
    else Strip(fs[..|fs| - 1]) + (if IsMeta(fs[|fs| - 1].0) then [] else [fs[|fs| - 1]])
  }

  function DropRetryCount(fs: Fields): Fields {
    if fs == [] then []
    else DropRetryCount(fs[..|fs| - 1]) + (if fs[|fs| - 1].0 == RETRY_COUNT then [] else [fs[|fs| - 1]])
  }

  predicate FirstAt(fs: Fields, i: int) {
    0 <= i < |fs| && forall k :: 0 <= k < i ==> fs[k].0 != fs[i].0
  }

  predicate LastAt(fs: Fields, i: int) {
    0 <= i < |fs| && forall k :: i < k < |fs| ==> fs[k].0 != fs[i].0
  }

  predicate HasName(fs: Fields, name: string) {
    exists i :: 0 <= i < |fs| && fs[i].0 == name
  }

  lemma {:induction false} FirstWinsNames(fs: Fields, name: string)
    ensures name in FirstWins(fs) <==> HasName(fs, name)
  {
    if fs != [] {
      var init := fs[..|fs| - 1];
      FirstWinsNames(init, name);
      if HasName(init, name) {
        var i :| 0 <= i < |init| && init[i].0 == name;
        assert fs[i].0 == name;
      }
      if HasName(fs, name) && fs[|fs| - 1].0 != name {
        var i :| 0 <= i < |fs| && fs[i].0 == name;
        assert init[i].0 == name;
      }
    }
  }

  lemma {:induction false} LastWinsNames(fs: Fields, name: string)
    ensures name in LastWins(fs) <==> HasName(fs, name)
  {
    if fs != [] {
      var init := fs[..|fs| - 1];
      LastWinsNames(init, name);
      if HasName(init, name) {
        var i :| 0 <= i < |init| && init[i].0 == name;
        assert fs[i].0 == name;
      }
      if HasName(fs, name) && fs[|fs| - 1].0 != name {
        var i :| 0 <= i < |fs| && fs[i].0 == name;
        assert init[i].0 == name;
      }
    }
  }

  /** The value FirstWins keeps for a name is the one at its first occurrence. */
  lemma {:induction false} FirstWinsAt(fs: Fields, i: int)
    requires FirstAt(fs, i)
    ensures fs[i].0 in FirstWins(fs) && FirstWins(fs)[fs[i].0] == fs[i].1
  {
    var init := fs[..|fs| - 1];
    if i < |init| {
      assert FirstAt(init, i);
      FirstWinsAt(init, i);
    } else {
      FirstWinsNames(init, fs[i].0);
      assert !HasName(init, fs[i].0);
    }
  }

  /** The value LastWins keeps for a name is the one at its last occurrence. */
  lemma {:induction false} LastWinsAt(fs: Fields, i: int)
    requires LastAt(fs, i)
    ensures fs[i].0 in LastWins(fs) && LastWins(fs)[fs[i].0] == fs[i].1
  {
    var init := fs[..|fs| - 1];
    if i < |init| {
      assert LastAt(init, i);
      LastWinsAt(init, i);
      assert fs[|init|].0 != fs[i].0;
    }
  }

  lemma {:induction false} FirstWinsConcat(a: Fields, b: Fields)
    ensures FirstWins(a + b) == FirstWins(b) + FirstWins(a)
  {
    if b == [] {
      assert a + b == a;
    } else {
      var init := b[..|b| - 1];
      FirstWinsConcat(a, init);
      assert (a + b)[..|a + b| - 1] == a + init;
    }
  }

  lemma {:induction false} StripConcat(a: Fields, b: Fields)
    ensures Strip(a + b) == Strip(a) + Strip(b)
  {
    if b == [] {
      assert a + b == a;
    } else {
      var init := b[..|b| - 1];
      StripConcat(a, init);
      assert (a + b)[..|a + b| - 1] == a + init;
      assert (a + b)[|a + b| - 1] == b[|b| - 1];
    }
  }

  lemma {:induction false} StripDropRetryCount(fs: Fields)
    ensures Strip(DropRetryCount(fs)) == Strip(fs)
  {
    if fs != [] {
      var init, f := fs[..|fs| - 1], fs[|fs| - 1];
      StripDropRetryCount(init);
      StripConcat(DropRetryCount(init), [f]);
      assert [f][..0] == [];
      assert DropRetryCount(init) + [] == DropRetryCount(init);
    }
  }

  lemma {:induction false} DropRetryCountRemoves(fs: Fields)
    ensures RETRY_COUNT !in FirstWins(DropRetryCount(fs))
  {
    if fs != [] {
      var init, f := fs[..|fs| - 1], fs[|fs| - 1];
      DropRetryCountRemoves(init);
      FirstWinsConcat(DropRetryCount(init), [f]);
      assert [f][..0] == [];
      assert DropRetryCount(init) + [] == DropRetryCount(init);
    }
  }

  /** What survives of an event in a copy: the lookup without the metadata names. */
  lemma {:induction false} FirstWinsStrip(fs: Fields)
    ensures FirstWins(Strip(fs)) == FirstWins(fs) - {ORIG_ID, ERROR, RETRY_COUNT}
  {
    if fs != [] {
      var init, f := fs[..|fs| - 1], fs[|fs| - 1];
      FirstWinsStrip(init);
      if IsMeta(f.0) {
        assert Strip(fs) == Strip(init);
      } else {
        assert Strip(fs)[..|Strip(fs)| - 1] == Strip(init);
      }
    }
  }

  // ---- the copies the two programs append -----------------------------------------

  function DlqCopy(id: string, fs: Fields, error: string): Fields {
    [(ORIG_ID, id)] + fs + [(ERROR, error)]
  }

  function DeadCopy(id: string, fs: Fields, error: string): Fields {
    [(ORIG_ID, id)] + DropRetryCount(fs) + [(ERROR, error)]
  }

  function RetryCopy(id: string, fs: Fields, retries: int, error: string): Fields {
    [(ORIG_ID, id)] + DropRetryCount(fs) + [(RETRY_COUNT, Decimal.ToSigned(retries))] + [(ERROR, error)]
  }

  // the original event id a copy names; an entry without one stands for itself
  function OrigId(fs: Fields, own: string): string {
    Lookup(FirstWins(fs), ORIG_ID, own)
  }

  function RetryCount(fs: Fields): int {
    var m := FirstWins(fs);
    if RETRY_COUNT in m then
      match Decimal.ParseBounded(m[RETRY_COUNT], Decimal.INT_MIN, Decimal.INT_MAX)
      case Some(n) => n
      case None => 0
    else 0
  }

  // copy carries the event (id, fs): it names the id first and keeps every other pair in order
  predicate Carries(copy: Fields, id: string, fs: Fields) {
    copy != [] && copy[0] == (ORIG_ID, id) && Strip(copy) == Strip(fs)
  }

  lemma CarriesNamesOrig(copy: Fields, id: string, fs: Fields, own: string)
    requires Carries(copy, id, fs)
    ensures OrigId(copy, own) == id
  {
    assert FirstAt(copy, 0);
    FirstWinsAt(copy, 0);
  }

  lemma StripWrapped(id: string, mid: Fields, tail: Fields)
    requires Strip(tail) == []
    ensures Strip([(ORIG_ID, id)] + mid + tail) == Strip(mid)
  {
    StripConcat([(ORIG_ID, id)] + mid, tail);
    StripConcat([(ORIG_ID, id)], mid);
    assert [(ORIG_ID, id)][..0] == [];
  }

  /** The worker's dead-letter copy carries the event it was made from. */
  lemma DlqCopyCarries(id: string, fs: Fields, error: string)
    ensures Carries(DlqCopy(id, fs, error), id, fs)
  {
    assert [(ERROR, error)][..0] == [];
    StripWrapped(id, fs, [(ERROR, error)]);
  }

  /** Re-adding or burying a copy that carries an event carries the same event. */
  lemma RecopyCarries(copy: Fields, id: string, fs: Fields, retries: int, error: string)
    requires Carries(copy, id, fs)
    ensures Carries(RetryCopy(id, copy, retries, error), id, fs)
    ensures Carries(DeadCopy(id, copy, error), id, fs)
  {
    StripDropRetryCount(copy);
    var tail := [(RETRY_COUNT, Decimal.ToSigned(retries))] + [(ERROR, error)];
    assert [(ERROR, error)][..0] == [];
    assert tail[..1][..0] == [];
    StripWrapped(id, DropRetryCount(copy), [(ERROR, error)]);
    StripWrapped(id, DropRetryCount(copy), tail);
    assert RetryCopy(id, copy, retries, error) == [(ORIG_ID, id)] + DropRetryCount(copy) + tail;
  }

  /** The retry count a re-added copy reports is the one that was written into it. */
  lemma RetryCopyCounts(id: string, fs: Fields, retries: int, error: string)
    requires Decimal.INT_MIN <= retries <= Decimal.INT_MAX
    ensures RetryCount(RetryCopy(id, fs, retries, error)) == retries
  {
    var kept, count := DropRetryCount(fs), [(RETRY_COUNT, Decimal.ToSigned(retries))];
    DropRetryCountRemoves(fs);
    FirstWinsConcat([(ORIG_ID, id)] + kept + count, [(ERROR, error)]);
    FirstWinsConcat([(ORIG_ID, id)] + kept, count);
    FirstWinsConcat([(ORIG_ID, id)], kept);
    assert count[..0] == [];
    assert [(ORIG_ID, id)][..0] == [];
    assert FirstWins(count) == map[RETRY_COUNT := Decimal.ToSigned(retries)];
    Decimal.ParseOfPrinted(retries, Decimal.INT_MIN, Decimal.INT_MAX);
  }
}
