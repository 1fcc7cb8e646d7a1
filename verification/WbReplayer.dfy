/**
 The dead-letter replayer: it retries the insert of a copy, re-adds the copy with a higher
 retry count when the insert fails, and moves it to the dead stream when the retries are
 used up. A copy is acknowledged only after one of these has been reported done.
 */
module WbReplayer {
  import opened Bounds
  import opened Wrappers
  import opened EventFields
  import opened EventRow
  import opened WbWorkerOps
  import Decimal

  datatype InsertOutcome = Stored | Failed | ConnectionBroken

  // k: position of the copy in the dead-letter stream
  datatype ReplayOp =
    | Insert(k: nat, e: Entry, applied: bool, outcome: InsertOutcome)
    | ReAdd(k: nat, e: Entry, error: string, stored: bool, reply: Reply)
    | Bury(k: nat, e: Entry, error: string, stored: bool, reply: Reply)
    | Done(k: nat, applied: bool, ok: bool)

  datatype ReplayState = ReplayState(failed: set<nat>, settled: set<nat>)

  const FRESH := ReplayState({}, {})

  function Orig(e: Entry): string {
    OrigId(e.fields, e.id)
  }

  predicate RetriesUsedUp(retryMax: nat, e: Entry) {
    RetryCount(e.fields) + 1 >= retryMax
  }

  function ReAddedFields(e: Entry, error: string): Fields {
    RetryCopy(Orig(e), e.fields, RetryCount(e.fields) + 1, error)
  }

  function BuriedFields(e: Entry, error: string): Fields {
    DeadCopy(Orig(e), e.fields, error)
  }

  predicate MayReplay(retryMax: nat, st: ReplayState, op: ReplayOp) {
    match op
    case Insert(_, _, applied, outcome) => outcome == Stored ==> applied
    case ReAdd(k, e, _, stored, reply) =>
      k in st.failed && !RetriesUsedUp(retryMax, e) && (reply == Yes ==> stored)
    case Bury(k, e, _, stored, reply) =>
      k in st.failed && RetriesUsedUp(retryMax, e) && (reply == Yes ==> stored)
    case Done(k, applied, ok) => k in st.settled && (ok ==> applied)
  }

  function NextReplay(st: ReplayState, op: ReplayOp): ReplayState {
    match op
    case Insert(k, _, _, outcome) =>
      (match outcome
       case Stored => st.(settled := st.settled + {k})
       case Failed => st.(failed := st.failed + {k})
       case ConnectionBroken => st)
    case ReAdd(k, _, _, _, reply) => if reply == Yes then st.(settled := st.settled + {k}) else st
    case Bury(k, _, _, _, reply) => if reply == Yes then st.(settled := st.settled + {k}) else st
    case Done(_, _, _) => st
  }

  function ReplayStateAt(st: ReplayState, ops: seq<ReplayOp>, n: nat): ReplayState
    requires n <= |ops|
  {
    if n == 0 then st else NextReplay(ReplayStateAt(st, ops, n - 1), ops[n - 1])
  }

  predicate ReplayAccepted(retryMax: nat, st: ReplayState, ops: seq<ReplayOp>) {
    forall i :: 0 <= i < |ops| ==> MayReplay(retryMax, ReplayStateAt(st, ops, i), ops[i])
  }

  // ---- lookups and backoff -------------------------------------------------------------

  /** Emplacing pair after pair keeps the first value of every name. */
  method ToMap(fs: Fields) returns (m: map<string, string>)
    ensures m == FirstWins(fs)
  {
    m := map[];
    for i := 0 to |fs|
      invariant m == FirstWins(fs[..i])
    {
      assert fs[..i + 1][..i] == fs[..i];
      if fs[i].0 !in m {
        m := m[fs[i].0 := fs[i].1];
      }
    }
    assert fs[..|fs|] == fs;
  }

  /** The payload rebuilt from the lookup, metadata left out, whatever order it is visited in. */
  method BuildReplayRow(fs: Fields) returns (row: Row)
    ensures row == ReplayRow(fs)
  {
    var m := ToMap(fs);
    var payload: map<string, string> := map[];
    var rest := m.Keys;
    while rest != {}
      invariant rest <= m.Keys
      invariant payload == map n | n in m && n !in rest && !IsMeta(n) :: m[n]
      decreases rest
    {
      var n :| n in rest;
      rest := rest - {n};
      if !IsMeta(n) {
        payload := payload[n := m[n]];
      }
    }
    row := Row(Lookup(m, "type", "unknown"), EventTime(Lookup(m, "ts_ms", "0")),
               Lookup(m, "user_id", ""), Lookup(m, "session_id", ""), Lookup(m, "room_id", ""), payload);
  }

  const BACKOFF_CAP := 10000

  // base * 2^n
  function Doubled(base: nat, n: nat): nat {
    if n == 0 then base else 2 * Doubled(base, n - 1)
  }

  /** Doubling up to the cap; a base already at or above the cap is left alone. */
  method RetryDelay(base: nat, retries: int) returns (delay: nat)
    ensures base >= BACKOFF_CAP || retries <= 0 ==> delay == base
    ensures base < BACKOFF_CAP && retries >= 0 ==> delay == Min(BACKOFF_CAP, Doubled(base, retries))
  {
    delay := base;
    var i := 0;
    while i < retries
      invariant 0 <= i && (retries >= 0 ==> i <= retries) && (retries < 0 ==> i == 0)
      invariant base >= BACKOFF_CAP ==> delay == base
      invariant base < BACKOFF_CAP ==> delay == Min(BACKOFF_CAP, Doubled(base, i))
    {
      if delay < BACKOFF_CAP {
        delay := Min(delay * 2, BACKOFF_CAP);
      }
      i := i + 1;
    }
  }

  // ---- one entry -------------------------------------------------------------------------

  // what processing the copy e at position k does, for every answer of the two servers
  predicate EntryTrace(retryMax: nat, k: nat, e: Entry, ops: seq<ReplayOp>) {
    && |ops| > 0 && ops[0].Insert? && ops[0].k == k && ops[0].e == e
    && match ops[0].outcome
       case Stored => |ops| == 2 && DoneOp(k, ops[1])
       case ConnectionBroken => |ops| == 1
       case Failed =>
         && |ops| > 1
         && (if RetriesUsedUp(retryMax, e) then ops[1].Bury? && ops[1].k == k && ops[1].e == e && Acked(k, ops[1].reply, ops[2..])
             else ops[1].ReAdd? && ops[1].k == k && ops[1].e == e && Acked(k, ops[1].reply, ops[2..]))
  }

  predicate DoneOp(k: nat, op: ReplayOp) {
    op.Done? && op.k == k
  }

  predicate Acked(k: nat, reply: Reply, tail: seq<ReplayOp>) {
    if reply == Yes then |tail| == 1 && DoneOp(k, tail[0]) else tail == []
  }

  /** Every trace the replayer can leave obeys the discipline, whatever it processed before. */
  lemma EntryTraceAccepted(retryMax: nat, st: ReplayState, k: nat, e: Entry, ops: seq<ReplayOp>)
    requires EntryTrace(retryMax, k, e, ops)
    requires forall i :: 0 <= i < |ops| ==> Truthful(ops[i])
    ensures ReplayAccepted(retryMax, st, ops)
  {
    var s1 := NextReplay(st, ops[0]);
    assert ReplayStateAt(st, ops, 1) == s1;
    if |ops| > 1 {
      assert ReplayStateAt(st, ops, 2) == NextReplay(s1, ops[1]);
    }
    forall i | 0 <= i < |ops|
      ensures MayReplay(retryMax, ReplayStateAt(st, ops, i), ops[i])
    {
      if ops[0].outcome == Failed && |ops| > 2 {
        assert ops[2..][0] == ops[2];
      }
      assert i == 0 || i == 1 || i == 2;
    }
  }

  // the operation is about a copy the dead-letter stream holds
  predicate OfStream(dlq: seq<Entry>, op: ReplayOp) {
    op.k < |dlq| && (!op.Done? ==> dlq[op.k] == op.e)
  }

  /** Processing a copy of the stream leaves a trace about that copy only. */
  lemma EntryTraceOfStream(retryMax: nat, dlq: seq<Entry>, k: nat, ops: seq<ReplayOp>)
    requires k < |dlq| && EntryTrace(retryMax, k, dlq[k], ops)
    ensures forall i :: 0 <= i < |ops| ==> OfStream(dlq, ops[i])
  {
    if ops[0].outcome == Failed && |ops| > 2 {
      assert ops[2..][0] == ops[2];
    }
  }

  // a positive report is never false
  predicate Truthful(op: ReplayOp) {
    match op
    case Insert(_, _, applied, outcome) => outcome == Stored ==> applied
    case ReAdd(_, _, _, stored, reply) => reply == Yes ==> stored
    case Bury(_, _, _, stored, reply) => reply == Yes ==> stored
    case Done(_, applied, ok) => ok ==> applied
  }

  lemma {:induction false} ReplayStateOfPrefix(st: ReplayState, ops: seq<ReplayOp>, more: seq<ReplayOp>, n: nat)
    requires n <= |ops| && ops <= more
    ensures ReplayStateAt(st, ops, n) == ReplayStateAt(st, more, n)
    decreases n
  {
    hide NextReplay;
    if n > 0 {
      ReplayStateOfPrefix(st, ops, more, n - 1);
    }
  }

  lemma {:induction false} ReplayStateOfRest(st: ReplayState, log: seq<ReplayOp>, ops: seq<ReplayOp>, n: nat)
    requires n <= |ops|
    ensures ReplayStateAt(st, log + ops, |log| + n) == ReplayStateAt(ReplayStateAt(st, log, |log|), ops, n)
    decreases n
  {
    hide NextReplay;
    if n == 0 {
      ReplayStateOfPrefix(st, log, log + ops, |log|);
    } else {
      ReplayStateOfRest(st, log, ops, n - 1);
      assert (log + ops)[|log| + n - 1] == ops[n - 1];
    }
  }

  /** So does its whole log, copy after copy. */
  lemma LogAccepted(retryMax: nat, log: seq<ReplayOp>, k: nat, e: Entry, ops: seq<ReplayOp>)
    requires ReplayAccepted(retryMax, FRESH, log)
    requires EntryTrace(retryMax, k, e, ops) && forall i :: 0 <= i < |ops| ==> Truthful(ops[i])
    ensures ReplayAccepted(retryMax, FRESH, log + ops)
  {
    var st := ReplayStateAt(FRESH, log, |log|);
    EntryTraceAccepted(retryMax, st, k, e, ops);
    hide MayReplay, NextReplay, EntryTrace, Truthful, ReplayStateAt;
    var all := log + ops;
    forall i | 0 <= i < |all| ensures MayReplay(retryMax, ReplayStateAt(FRESH, all, i), all[i]) {
      if i < |log| {
        ReplayStateOfPrefix(FRESH, log, all, i);
      } else {
        ReplayStateOfRest(FRESH, log, ops, i - |log|);
      }
    }
  }

  class Replayer {
    const retryMax: nat
    const backoffMs: nat
    var connected: bool
    var log: seq<ReplayOp>

    constructor (retryMax: nat, backoffMs: nat)
      requires retryMax > 0
      ensures this.retryMax == retryMax && this.backoffMs == backoffMs && log == []
    {
      this.retryMax, this.backoffMs, connected, log := retryMax, backoffMs, false, [];
    }

    method Acknowledge(k: nat) returns (op: ReplayOp)
      modifies this`log
      ensures DoneOp(k, op) && Truthful(op) && log == old(log) + [op]
    {
      var applied: bool, ok: bool := *, *;
      op := Done(k, applied || ok, ok);
      log := log + [op];
    }

    /** Bury the copy when its retries are used up, otherwise wait and re-add it. */
    method HandleFailure(k: nat, e: Entry, error: string) returns (ops: seq<ReplayOp>)
      modifies this`log
      ensures log == old(log) + ops && |ops| > 0 && forall i :: 0 <= i < |ops| ==> Truthful(ops[i])
      ensures ops[0].k == k && (if RetriesUsedUp(retryMax, e) then ops[0].Bury? else ops[0].ReAdd?)
      ensures ops[0].e == e && Acked(k, ops[0].reply, ops[1..])
    {
      var retries := RetryCount(e.fields);
      var stored: bool, reply: Reply := *, *;
      var move;
      if retries + 1 >= retryMax {
        move := Bury(k, e, error, stored || reply == Yes, reply);
      } else {
        var _ := RetryDelay(backoffMs, retries);
        move := ReAdd(k, e, error, stored || reply == Yes, reply);
      }
      log := log + [move];
      ops := [move];
      if reply == Yes {
        var done := Acknowledge(k);
        ops := [move, done];
      }
    }

    /** One copy: insert it, or pass the failure on; a broken connection leaves it pending. */
    method ProcessEntry(k: nat, e: Entry) returns (ops: seq<ReplayOp>)
      modifies this
      ensures log == old(log) + ops && EntryTrace(retryMax, k, e, ops)
      ensures forall i :: 0 <= i < |ops| ==> Truthful(ops[i])
      ensures !old(connected) ==> ops[0].outcome == Failed && !ops[0].applied
      ensures connected == (old(connected) && ops[0].outcome != ConnectionBroken)
      ensures ReplayAccepted(retryMax, FRESH, old(log)) ==> ReplayAccepted(retryMax, FRESH, log)
    {
      hide MayReplay, NextReplay, ReplayAccepted;
      var applied: bool, outcome: InsertOutcome := *, *;
      if !connected {
        applied, outcome := false, Failed;
      }
      var insert := Insert(k, e, applied || outcome == Stored, outcome);
      log := log + [insert];
      match outcome {
        case Stored =>
          var done := Acknowledge(k);
          ops := [insert, done];
        case ConnectionBroken =>
          connected := false;
          ops := [insert];
        case Failed =>
          var error: string := *;
          var tail := HandleFailure(k, e, error);
          ops := [insert] + tail;
          assert ops[2..] == tail[1..];
          assert ops[1] == tail[0];
      }
      if ReplayAccepted(retryMax, FRESH, old(log)) {
        LogAccepted(retryMax, old(log), k, e, ops);
      }
    }

    method EnsureDbConnection() returns (ready: bool)
      modifies this`connected
      ensures ready == connected && (old(connected) ==> connected)
    {
      var opens: bool := *;
      if !connected && opens {
        connected := true;
      }
      return connected;
    }

    // everything logged since then is reported truthfully and about copies of the stream
    ghost predicate Genuine(before: seq<ReplayOp>, dlq: seq<Entry>)
      reads this
    {
      before <= log && forall i :: |before| <= i < |log| ==> Truthful(log[i]) && OfStream(dlq, log[i])
    }

    /** The copies of one read, one after the other. */
    method ProcessBatch(dlq: seq<Entry>, read: seq<nat>)
      requires forall i :: 0 <= i < |read| ==> read[i] < |dlq|
      modifies this
      ensures Genuine(old(log), dlq)
      ensures ReplayAccepted(retryMax, FRESH, old(log)) ==> ReplayAccepted(retryMax, FRESH, log)
    {
      hide ReplayAccepted, EntryTrace, Truthful, OfStream;
      for i := 0 to |read|
        invariant Genuine(old(log), dlq)
        invariant ReplayAccepted(retryMax, FRESH, old(log)) ==> ReplayAccepted(retryMax, FRESH, log)
      {
        var ops := ProcessEntry(read[i], dlq[read[i]]);
        EntryTraceOfStream(retryMax, dlq, read[i], ops);
      }
    }

    /**
     The main loop over any reads: without a connection nothing is read. `dlq` is the stream as it
     has become by the end, `polls` the positions each read hands out, None where it times out.
     */
    method Loop(dlq: seq<Entry>, polls: seq<Option<seq<nat>>>)
      requires forall i :: 0 <= i < |polls| && polls[i].Some? ==>
        forall j :: 0 <= j < |polls[i].value| ==> polls[i].value[j] < |dlq|
      modifies this
      ensures Genuine(old(log), dlq)
      ensures ReplayAccepted(retryMax, FRESH, old(log)) ==> ReplayAccepted(retryMax, FRESH, log)
    {
      hide ReplayAccepted, Truthful, OfStream;
      for i := 0 to |polls|
        invariant Genuine(old(log), dlq)
        invariant ReplayAccepted(retryMax, FRESH, old(log)) ==> ReplayAccepted(retryMax, FRESH, log)
      {
        var ready := EnsureDbConnection();
        if ready && polls[i].Some? {
          ProcessBatch(dlq, polls[i].value);
        }
      }
    }
  }

  // ---- the chain of re-adds ----------------------------------------------------------------

  // chain[i + 1] was re-added while handling a failed insert of chain[i]
  ghost predicate ReAddChain(retryMax: nat, chain: seq<Entry>) {
    forall i :: 0 <= i < |chain| - 1 ==> ReAddedFrom(retryMax, chain[i], chain[i + 1])
  }

  ghost predicate ReAddedFrom(retryMax: nat, e: Entry, next: Entry) {
    !RetriesUsedUp(retryMax, e) && exists error :: next.fields == ReAddedFields(e, error)
  }

  /** Along re-adds the original id never changes and the retry count rises by exactly one. */
  lemma {:induction false} ReAddChainCounts(retryMax: nat, chain: seq<Entry>, i: nat)
    requires retryMax < 1000 && ReAddChain(retryMax, chain) && i < |chain|
    ensures RetryCount(chain[i].fields) == RetryCount(chain[0].fields) + i
    ensures Orig(chain[i]) == Orig(chain[0])
  {
    if i > 0 {
      ReAddChainCounts(retryMax, chain, i - 1);
      var e, next := chain[i - 1], chain[i];
      assert ReAddedFrom(retryMax, e, chain[i - 1 + 1]);
      var error :| next.fields == ReAddedFields(e, error);
      RetryCountInRange(e.fields);
      RetryCopyCounts(Orig(e), e.fields, RetryCount(e.fields) + 1, error);
      assert FirstAt(next.fields, 0);
      FirstWinsAt(next.fields, 0);
    }
  }

  lemma RetryCountInRange(fs: Fields)
    ensures Decimal.INT_MIN <= RetryCount(fs) <= Decimal.INT_MAX
  {
  }

  /**
   A copy is re-added at most retryMax - 1 times beyond the count it came with, and the
   copy that has been re-added that often goes to the dead stream when its insert fails.
   */
  lemma ReAddsBounded(retryMax: nat, chain: seq<Entry>)
    requires 0 < retryMax < 1000 && ReAddChain(retryMax, chain) && |chain| > 0
    ensures |chain| > 1 ==> |chain| - 1 <= retryMax - 1 - RetryCount(chain[0].fields)
    ensures RetriesUsedUp(retryMax, chain[|chain| - 1])
      <==> |chain| - 1 >= retryMax - 1 - RetryCount(chain[0].fields)
  {
    ReAddChainCounts(retryMax, chain, |chain| - 1);
    if |chain| > 1 {
      ReAddChainCounts(retryMax, chain, |chain| - 2);
      assert ReAddedFrom(retryMax, chain[|chain| - 2], chain[|chain| - 2 + 1]);
    }
  }
}
