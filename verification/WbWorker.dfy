/**
 The write-behind worker as a program: it batches stream entries, stores a batch in one
 transaction with a subtransaction per entry, retries the whole transaction, and
 acknowledges. Every answer of Redis and of the database is arbitrary, so each contract
 holds for every behaviour of the two servers.
 */
module WbWorker {
  import opened Wrappers
  import opened EventFields
  import opened EventRow
  import opened WbWorkerOps

  // ---- what one flush may look like --------------------------------------------------

  datatype Ending =
    | NotReady                                    // no usable connection: nothing was begun
    | Broken                                      // the connection broke at the next entry
    | CommitFailed(applied: bool, broken: bool)   // commit raised; the server may still have applied it
    | Committed(acks: seq<Op>)

  // segments[k]: the operations caused by the k-th entry of the batch
  datatype Attempt = Attempt(segments: seq<seq<Op>>, ending: Ending)

  predicate FailureTail(cfg: WorkerConfig, e: Entry, tail: seq<Op>) {
    if cfg.UsesDlq() then
      && |tail| > 0 && tail[0].DlqAdd? && tail[0].e == e
      && if tail[0].reply != Threw then |tail| == 2 && tail[1].Ack? && tail[1].id == e.id
         else DropTail(cfg, e, tail[1..])
    else DropTail(cfg, e, tail)
  }

  predicate DropTail(cfg: WorkerConfig, e: Entry, tail: seq<Op>) {
    if cfg.ackOnError then |tail| == 1 && tail[0].DropAck? && tail[0].id == e.id else tail == []
  }

  predicate Segment(cfg: WorkerConfig, e: Entry, seg: seq<Op>) {
    || seg == [Stage(e)]
    || (|seg| > 0 && seg[0] == Reject(e) && FailureTail(cfg, e, seg[1..]))
  }

  function StagedIds(batch: seq<Entry>, segments: seq<seq<Op>>): (ids: seq<string>)
    requires |segments| <= |batch|
  {
    if segments == [] then []
    else
      var k := |segments| - 1;
      StagedIds(batch, segments[..k]) + (if segments[k] == [Stage(batch[k])] then [batch[k].id] else [])
  }

  predicate AcksOf(ids: seq<string>, acks: seq<Op>) {
    && |acks| == |ids|
    && forall i :: 0 <= i < |acks| ==> acks[i].Ack? && acks[i].id == ids[i]
  }

  predicate DeletionAcks(ops: seq<Op>, ids: seq<string>) {
    && |ops| == |ids|
    && forall i :: 0 <= i < |ops| ==> ops[i].AckDeleted? && ops[i].id == ids[i]
  }

  predicate WellFormed(cfg: WorkerConfig, batch: seq<Entry>, a: Attempt) {
    && |a.segments| <= |batch|
    && (forall k :: 0 <= k < |a.segments| ==> Segment(cfg, batch[k], a.segments[k]))
    && match a.ending
       case NotReady => a.segments == []
       case Broken => |a.segments| < |batch|
       case CommitFailed(_, _) => |a.segments| == |batch|
       case Committed(acks) => |a.segments| == |batch| && AcksOf(StagedIds(batch, a.segments), acks)
  }

  predicate BreaksConnection(a: Attempt) {
    a.ending.Broken? || (a.ending.CommitFailed? && a.ending.broken)
  }

  function Flat(segments: seq<seq<Op>>): seq<Op> {
    if segments == [] then [] else Flat(segments[..|segments| - 1]) + segments[|segments| - 1]
  }

  function EndingOps(ending: Ending): seq<Op> {
    match ending
    case NotReady => []
    case Broken => [Abort]
    case CommitFailed(applied, _) => [Commit(applied, false)]
    case Committed(acks) => [Commit(true, true)] + acks
  }

  function AttemptOps(a: Attempt): seq<Op> {
    if a.ending.NotReady? then [] else [Begin] + Flat(a.segments) + EndingOps(a.ending)
  }

  lemma AttemptAssembled(before: seq<Op>, a: Attempt)
    requires !a.ending.NotReady?
    ensures before + [Begin] + Flat(a.segments) + EndingOps(a.ending) == before + AttemptOps(a)
  {
  }

  function AllOps(attempts: seq<Attempt>): seq<Op> {
    if attempts == [] then []
    else AllOps(attempts[..|attempts| - 1]) + AttemptOps(attempts[|attempts| - 1])
  }

  // The whole flush: attempts follow one another until one commits or the budget is spent,
  // and a broken connection is not reopened within the flush.
  predicate FlushShape(cfg: WorkerConfig, batch: seq<Entry>, attempts: seq<Attempt>) {
    && |attempts| <= cfg.retryMax + 1
    && (forall i :: 0 <= i < |attempts| ==> WellFormed(cfg, batch, attempts[i]))
    && (forall i :: 0 <= i < |attempts| - 1 ==> !attempts[i].ending.Committed?)
    && (forall i, j :: 0 <= i < j < |attempts| && BreaksConnection(attempts[i]) ==> attempts[j].ending.NotReady?)
  }

  predicate Committing(attempts: seq<Attempt>) {
    attempts != [] && attempts[|attempts| - 1].ending.Committed?
  }

  lemma SegmentSpeaks(cfg: WorkerConfig, e: Entry, seg: seq<Op>, batch: seq<Entry>)
    requires Segment(cfg, e, seg) && e in batch
    ensures forall i :: 0 <= i < |seg| ==> Speaks(seg[i], batch, [])
  {
    if seg[0] == Reject(e) {
      var tail := seg[1..];
      assert seg == [seg[0]] + tail;
      if cfg.UsesDlq() {
        assert tail == [tail[0]] + tail[1..];
      }
    }
  }

  lemma {:induction false} FlatSpeaks(cfg: WorkerConfig, batch: seq<Entry>, segments: seq<seq<Op>>)
    requires |segments| <= |batch| && forall k :: 0 <= k < |segments| ==> Segment(cfg, batch[k], segments[k])
    ensures forall i :: 0 <= i < |Flat(segments)| ==> Speaks(Flat(segments)[i], batch, [])
    decreases |segments|
  {
    hide Segment, Speaks;
    if segments != [] {
      var k := |segments| - 1;
      FlatSpeaks(cfg, batch, segments[..k]);
      SegmentSpeaks(cfg, batch[k], segments[k], batch);
    }
  }

  lemma AttemptSpeaks(cfg: WorkerConfig, batch: seq<Entry>, a: Attempt)
    requires WellFormed(cfg, batch, a)
    ensures forall i :: 0 <= i < |AttemptOps(a)| ==> Speaks(AttemptOps(a)[i], batch, [])
  {
    hide Segment, Flat, StagedIds;
    FlatSpeaks(cfg, batch, a.segments);
  }

  /** A flush logs nothing that is not about its batch. */
  lemma {:induction false} FlushSpeaks(cfg: WorkerConfig, batch: seq<Entry>, attempts: seq<Attempt>)
    requires forall i :: 0 <= i < |attempts| ==> WellFormed(cfg, batch, attempts[i])
    ensures forall i :: 0 <= i < |AllOps(attempts)| ==> Speaks(AllOps(attempts)[i], batch, [])
    decreases |attempts|
  {
    hide WellFormed, AttemptOps, Speaks;
    if attempts != [] {
      FlushSpeaks(cfg, batch, attempts[..|attempts| - 1]);
      AttemptSpeaks(cfg, batch, attempts[|attempts| - 1]);
    }
  }

  function CountDrops(log: seq<Op>): nat {
    if log == [] then 0
    else CountDrops(log[..|log| - 1]) + (if log[|log| - 1].DropAck? && log[|log| - 1].ok then 1 else 0)
  }

  function EntryBytes(e: Entry): nat {
    |e.id| + FieldBytes(e.fields)
  }

  function FieldBytes(fs: Fields): nat {
    if fs == [] then 0
    else FieldBytes(fs[..|fs| - 1]) + |fs[|fs| - 1].0| + |fs[|fs| - 1].1| + 4
  }

  function TotalBytes(es: seq<Entry>): nat {
    if es == [] then 0 else TotalBytes(es[..|es| - 1]) + EntryBytes(es[|es| - 1])
  }

  /** The running estimate of an entry's size. */
  method EstimateEntryBytes(e: Entry) returns (est: nat)
    ensures est == EntryBytes(e)
  {
    est := |e.id|;
    for i := 0 to |e.fields|
      invariant est == |e.id| + FieldBytes(e.fields[..i])
    {
      assert e.fields[..i + 1][..i] == e.fields[..i];
      est := est + |e.fields[i].0| + |e.fields[i].1| + 4;
    }
    assert e.fields[..|e.fields|] == e.fields;
  }

  /** The worker's pass over the pairs, assigning as it goes, computes the last-wins row. */
  method BuildRow(fs: Fields) returns (row: Row)
    ensures row == WorkerRow(fs)
  {
    var kind, ts := "unknown", "0";
    var userId, sessionId, roomId := None, None, None;
    var j: map<string, string> := map[];
    for i := 0 to |fs|
      invariant j == LastWins(fs[..i])
      invariant kind == Lookup(j, "type", "unknown") && ts == Lookup(j, "ts_ms", "0")
      invariant userId == (if "user_id" in j then Some(j["user_id"]) else None)
      invariant sessionId == (if "session_id" in j then Some(j["session_id"]) else None)
      invariant roomId == (if "room_id" in j then Some(j["room_id"]) else None)
    {
      var (name, value) := fs[i];
      if name == "type" {
        kind := value;
      } else if name == "ts_ms" {
        ts := value;
      } else if name == "user_id" {
        userId := Some(value);
      } else if name == "session_id" {
        sessionId := Some(value);
      } else if name == "room_id" {
        roomId := Some(value);
      }
      assert fs[..i + 1][..i] == fs[..i];
      j := j[name := value];
    }
    assert fs[..|fs|] == fs;
    var uid := Normalize(userId);
    var sid := Normalize(sessionId);
    var rid := Normalize(roomId);
    row := Row(kind, EventTime(ts), uid, sid, rid, j);
  }

  method Normalize(id: Option<string>) returns (s: string)
    ensures s == if id.Some? then NormalizeUuid(id.value) else ""
  {
    if id.None? || id.value == "" {
      return "";
    }
    var ok := CheckUuid(id.value);
    return if ok then id.value else "";
  }

  class Worker {
    const cfg: WorkerConfig
    var buf: seq<Entry>
    var bufBytes: nat
    var connected: bool
    var dropTotal: nat
    var log: seq<Op>

    constructor (cfg: WorkerConfig)
      requires cfg.batchMaxEvents > 0 && cfg.batchMaxBytes > 0
      ensures this.cfg == cfg && Valid() && buf == [] && log == []
    {
      this.cfg := cfg;
      buf, bufBytes, connected, dropTotal, log := [], 0, false, 0, [];
    }

    ghost function State(): WorkerState
      reads this
    {
      After(IDLE, log)
    }

    // the log obeys the discipline, and the drop counter counts it
    ghost predicate Disciplined()
      reads this
    {
      Accepted(cfg, IDLE, log) && dropTotal == CountDrops(log)
    }

    // between calls no transaction is open and the batch is below both thresholds
    ghost predicate Valid()
      reads this
    {
      && Disciplined() && State().tx.None?
      && bufBytes == TotalBytes(buf)
      && |buf| < cfg.batchMaxEvents && bufBytes < cfg.batchMaxBytes
    }

    method Emit(op: Op)
      requires Disciplined() && Permitted(cfg, State(), op)
      modifies this`log, this`dropTotal
      ensures Disciplined()
      ensures log == old(log) + [op] && State() == Next(old(State()), op)
    {
      AcceptedAppend(cfg, IDLE, log, op);
      assert (log + [op])[..|log|] == log;
      log := log + [op];
      if op.DropAck? && op.ok {
        dropTotal := dropTotal + 1;
      }
    }

    method Acknowledge(id: string) returns (op: Op)
      requires Disciplined() && id in State().settled
      modifies this`log, this`dropTotal
      ensures Disciplined() && State() == old(State())
      ensures op.Ack? && op.id == id && log == old(log) + [op]
    {
      hide Accepted, StateAt, After, CountDrops;
      var applied: bool, ok: bool := *, *;
      op := Ack(id, applied || ok, ok);
      Emit(op);
    }

    /** The last resort for a failed entry: acknowledge and count it, if configured. */
    method DropIfConfigured(e: Entry) returns (tail: seq<Op>)
      requires Disciplined() && e.id in State().failed
      requires cfg.UsesDlq() ==> e.id in State().threw
      modifies this`log, this`dropTotal
      ensures Disciplined() && State() == old(State())
      ensures log == old(log) + tail && DropTail(cfg, e, tail)
    {
      hide Accepted, StateAt, After, CountDrops;
      tail := [];
      if cfg.ackOnError {
        var applied: bool, ok: bool := *, *;
        var drop := DropAck(e.id, applied || ok, ok);
        Emit(drop);
        tail := [drop];
      }
    }

    /** The catch branch for an entry whose insert failed. */
    method HandleFailure(e: Entry) returns (tail: seq<Op>)
      requires Disciplined() && State().tx.Some? && e.id in State().failed
      modifies this`log, this`dropTotal
      ensures Disciplined() && State().tx == old(State().tx)
      ensures log == old(log) + tail && FailureTail(cfg, e, tail)
    {
      hide Accepted, StateAt, After, CountDrops;
      if cfg.dlqOnError && cfg.dlqStream != "" {
        var error: string, stored: bool, reply: Reply := *, *, *;
        var add := DlqAdd(e, error, stored || reply == Yes, reply);
        Emit(add);
        if reply != Threw {
          var ack := Acknowledge(e.id);
          tail := [add, ack];
        } else {
          var drop := DropIfConfigured(e);
          tail := [add] + drop;
          assert tail[1..] == drop;
        }
      } else {
        tail := DropIfConfigured(e);
      }
    }

    /** One entry of the batch, inside the open transaction. */
    method ProcessEntry(e: Entry) returns (broken: bool, seg: seq<Op>)
      requires Disciplined() && State().tx.Some?
      modifies this`log, this`dropTotal
      ensures Disciplined() && State().tx.Some?
      ensures log == old(log) + seg
      ensures if broken then seg == [] else Segment(cfg, e, seg)
      ensures old(State().tx).value.Keys <= State().tx.value.Keys
      ensures seg == [Stage(e)] ==> e.id in State().tx.value
    {
      hide Accepted, StateAt, After, CountDrops;
      broken := *;
      seg := [];
      if broken {
        return;
      }
      var inserted: bool := *;
      if inserted {
        Emit(Stage(e));
        seg := [Stage(e)];
      } else {
        Emit(Reject(e));
        var tail := HandleFailure(e);
        seg := [Reject(e)] + tail;
        assert seg[0] == Reject(e) && seg[1..] == tail;
      }
    }

    /** The acknowledgements after a successful commit. */
    method AcknowledgeAll(ids: seq<string>) returns (acks: seq<Op>)
      requires Disciplined() && State().tx.None?
      requires forall i :: 0 <= i < |ids| ==> ids[i] in State().settled
      modifies this`log, this`dropTotal
      ensures Disciplined() && State() == old(State())
      ensures log == old(log) + acks && AcksOf(ids, acks)
    {
      hide Accepted, StateAt, After, CountDrops;
      acks := [];
      for i := 0 to |ids|
        invariant Disciplined() && State() == old(State())
        invariant log == old(log) + acks && AcksOf(ids[..i], acks)
      {
        var ack := Acknowledge(ids[i]);
        acks := acks + [ack];
      }
    }

    /** The subtransactions of one attempt, up to the entry at which the connection breaks. */
    method StageBatch(batch: seq<Entry>) returns (broken: bool, segments: seq<seq<Op>>, ackIds: seq<string>)
      requires Disciplined() && State().tx.Some?
      modifies this`log, this`dropTotal
      ensures Disciplined() && State().tx.Some?
      ensures |segments| <= |batch| && (broken <==> |segments| < |batch|)
      ensures log == old(log) + Flat(segments)
      ensures forall k :: 0 <= k < |segments| ==> Segment(cfg, batch[k], segments[k])
      ensures ackIds == StagedIds(batch, segments)
      ensures forall i :: 0 <= i < |ackIds| ==> ackIds[i] in State().tx.value
    {
      hide Accepted, StateAt, After, CountDrops;
      broken, segments, ackIds := false, [], [];
      for k := 0 to |batch|
        invariant Disciplined() && State().tx.Some?
        invariant !broken && |segments| == k
        invariant log == old(log) + Flat(segments)
        invariant forall i :: 0 <= i < k ==> Segment(cfg, batch[i], segments[i])
        invariant ackIds == StagedIds(batch, segments)
        invariant forall i :: 0 <= i < |ackIds| ==> ackIds[i] in State().tx.value
      {
        var seg;
        broken, seg := ProcessEntry(batch[k]);
        if broken {
          return;
        }
        ghost var before := segments;
        segments := segments + [seg];
        assert segments[..k] == before;
        if seg == [Stage(batch[k])] {
          ackIds := ackIds + [batch[k].id];
        }
      }
    }

    /** Commit the open transaction and, if that is reported successful, acknowledge its rows. */
    method Finish(ackIds: seq<string>) returns (ending: Ending)
      requires Disciplined() && State().tx.Some? && connected
      requires forall i :: 0 <= i < |ackIds| ==> ackIds[i] in State().tx.value
      modifies this`log, this`dropTotal, this`connected
      ensures Disciplined() && State().tx.None?
      ensures ending.Committed? || ending.CommitFailed?
      ensures log == old(log) + EndingOps(ending)
      ensures ending.Committed? ==> connected && AcksOf(ackIds, ending.acks)
      ensures ending.CommitFailed? ==> connected == !ending.broken
    {
      hide Accepted, StateAt, After, CountDrops;
      var committed: bool := *;
      if committed {
        Emit(Commit(true, true));
        var acks := AcknowledgeAll(ackIds);
        ending := Committed(acks);
      } else {
        var applied: bool, broken: bool := *, *;
        Emit(Commit(applied, false));
        connected := connected && !broken;
        ending := CommitFailed(applied, broken);
      }
    }

    /** The transaction of one attempt, on a usable connection. */
    method RunTransaction(batch: seq<Entry>) returns (a: Attempt)
      requires Disciplined() && State().tx.None? && connected
      modifies this`log, this`dropTotal, this`connected
      ensures Disciplined() && State().tx.None? && !a.ending.NotReady?
      ensures log == old(log) + AttemptOps(a) && WellFormed(cfg, batch, a)
      ensures connected == !BreaksConnection(a)
    {
      hide Accepted, StateAt, After, CountDrops, Flat, StagedIds, Segment, WorkerRow, AcksOf, AttemptOps;
      Emit(Begin);
      var broken, segments, ackIds := StageBatch(batch);
      var ending := Broken;
      if broken {
        Emit(Abort);
        connected := false;
      } else {
        ending := Finish(ackIds);
      }
      a := Attempt(segments, ending);
      AttemptAssembled(old(log), a);
    }

    /** One attempt to store the batch in a single transaction. */
    method TryStore(batch: seq<Entry>) returns (a: Attempt)
      requires Disciplined() && State().tx.None?
      modifies this`log, this`dropTotal, this`connected
      ensures Disciplined() && State().tx.None?
      ensures log == old(log) + AttemptOps(a) && WellFormed(cfg, batch, a)
      ensures !old(connected) ==> a.ending.NotReady?
      ensures connected == (old(connected) && !BreaksConnection(a))
    {
      hide Accepted, StateAt, After, CountDrops;
      var prepared: bool := *;
      if !connected || !prepared {
        a := Attempt([], NotReady);
      } else {
        a := RunTransaction(batch);
      }
    }

    /** Store the buffered batch, retrying the transaction, and forget the batch. */
    method Flush() returns (attempts: seq<Attempt>)
      requires Disciplined() && State().tx.None?
      modifies this`buf, this`log, this`dropTotal, this`connected
      ensures Disciplined() && State().tx.None? && buf == []
      ensures log == old(log) + AllOps(attempts) && FlushShape(cfg, old(buf), attempts)
      ensures old(buf) == [] <==> attempts == []
      ensures old(buf) != [] && !Committing(attempts) ==> |attempts| == cfg.retryMax + 1
      ensures SpeaksSince(old(log), log, old(buf), [])
    {
      hide Accepted, StateAt, After, CountDrops, AttemptOps, WellFormed;
      attempts := [];
      if buf == [] {
        return;
      }
      var committed := false;
      var attempt := 0;
      while attempt <= cfg.retryMax && !committed
        invariant 0 <= attempt == |attempts| <= cfg.retryMax + 1
        invariant Disciplined() && State().tx.None? && buf == old(buf)
        invariant log == old(log) + AllOps(attempts) && FlushShape(cfg, buf, attempts)
        invariant committed <==> Committing(attempts)
        invariant forall i :: 0 <= i < |attempts| ==> attempts[i].ending.Committed? ==> committed
        invariant forall i :: 0 <= i < |attempts| && BreaksConnection(attempts[i]) ==> !connected
      {
        var a := TryStore(buf);
        ghost var before := attempts;
        attempts := attempts + [a];
        assert attempts[..|before|] == before;
        committed := a.ending.Committed?;
        attempt := attempt + 1;
      }
      FlushSpeaks(cfg, buf, attempts);
      buf := [];
    }

    /** Take one entry into the batch and flush the batch if that reaches a threshold. */
    method Add(e: Entry) returns (flushed: Option<seq<Entry>>)
      requires Valid()
      modifies this
      ensures Valid() && SpeaksSince(old(log), log, old(buf) + [e], [])
      ensures flushed.None? ==> buf == old(buf) + [e]
      ensures flushed.Some? ==> buf == [] && flushed.value == old(buf) + [e] && ReachedThreshold(flushed.value)
    {
      hide Accepted, StateAt, After, CountDrops, AllOps, FlushShape, Speaks;
      var est := EstimateEntryBytes(e);
      assert (buf + [e])[..|buf|] == buf;
      bufBytes := bufBytes + est;
      buf := buf + [e];
      flushed := None;
      if |buf| >= cfg.batchMaxEvents || bufBytes >= cfg.batchMaxBytes {
        flushed := Some(buf);
        var _ := Flush();
        bufBytes := 0;
      }
    }

    /**
     Take entries into the batch, flushing whenever a threshold is reached. Flushed batches
     followed by what remains buffered are exactly the entries that were waiting, in order.
     */
    method Absorb(entries: seq<Entry>) returns (flushed: seq<seq<Entry>>)
      requires Valid()
      modifies this
      ensures Valid() && SpeaksSince(old(log), log, old(buf) + entries, [])
      ensures Joined(flushed) + buf == old(buf) + entries
      ensures forall i :: 0 <= i < |flushed| ==> ReachedThreshold(flushed[i])
    {
      hide Accepted, StateAt, After, CountDrops, TotalBytes, SpeaksSince, Within;
      flushed := [];
      WithinItself(buf + entries);
      WithinItself<string>([]);
      NothingSaid(log, buf + entries, []);
      for i := 0 to |entries|
        invariant Valid() && SpeaksSince(old(log), log, old(buf) + entries, [])
        invariant Joined(flushed) + buf == old(buf) + entries[..i]
        invariant forall k :: 0 <= k < |flushed| ==> ReachedThreshold(flushed[k])
      {
        var e := entries[i];
        ghost var before, waiting, logged := flushed, buf, log;
        assert entries[..i + 1] == entries[..i] + [e];
        assert Joined(before) + (waiting + [e]) == (Joined(before) + waiting) + [e];
        RestWithin(Joined(before), waiting, old(buf) + entries[..i], [e]);
        TakenSoFar(old(buf), entries, i);
        var batch := Add(e);
        WithinOn(waiting + [e], old(buf) + entries[..i] + [e], old(buf) + entries);
        SpeaksOn(old(log), logged, log, old(buf) + entries, [], waiting + [e], [], old(buf) + entries, []);
        if batch.Some? {
          flushed := flushed + [batch.value];
          assert flushed[..|before|] == before;
          assert Joined(flushed) == Joined(before) + (waiting + [e]);
        }
      }
      assert entries[..|entries|] == entries;
    }

    // a batch is flushed as soon as it reaches a threshold, not later
    predicate ReachedThreshold(batch: seq<Entry>) {
      && batch != []
      && (|batch| >= cfg.batchMaxEvents || TotalBytes(batch) >= cfg.batchMaxBytes)
      && |batch| - 1 < cfg.batchMaxEvents && TotalBytes(batch[..|batch| - 1]) < cfg.batchMaxBytes
    }

    /** Claim idle entries: acknowledge those Redis reports deleted, batch the rest. */
    method ReclaimPending(deleted: seq<string>, entries: seq<Entry>) returns (flushed: seq<seq<Entry>>)
      requires Valid()
      modifies this
      ensures Valid() && SpeaksSince(old(log), log, old(buf) + entries, deleted)
      ensures Joined(flushed) + buf == old(buf) + entries
      ensures forall i :: 0 <= i < |flushed| ==> ReachedThreshold(flushed[i])
      ensures |log| >= |old(log)| + |deleted|
      ensures DeletionAcks(log[|old(log)|..|old(log)| + |deleted|], deleted)
    {
      hide Accepted, StateAt, After, CountDrops;
      for i := 0 to |deleted|
        invariant Valid() && buf == old(buf) && |log| == |old(log)| + i && old(log) <= log
        invariant DeletionAcks(log[|old(log)|..], deleted[..i])
        invariant SpeaksSince(old(log), log, [], deleted)
      {
        var applied: bool, ok: bool := *, *;
        ghost var before := log[|old(log)|..];
        var ack := AckDeleted(deleted[i], applied || ok, ok);
        Emit(ack);
        assert log[|old(log)|..] == before + [ack];
      }
      ghost var acked := log;
      flushed := Absorb(entries);
      WithinItself(old(buf) + entries);
      WithinItself(deleted);
      SpeaksOn(old(log), acked, log, [], deleted, old(buf) + entries, [], old(buf) + entries, deleted);
      assert log[|old(log)|..|old(log)| + |deleted|] == acked[|old(log)|..];
      assert deleted[..|deleted|] == deleted;
    }

    /** Make sure of a usable connection: open one if there is none, and prepare the statement. */
    method EnsureDbConnection() returns (ready: bool)
      modifies this`connected
      ensures (ready ==> connected) && (old(connected) ==> connected)
    {
      var opens: bool, prepared: bool := *, *;
      if connected {
        return prepared;
      }
      if opens {
        connected := true;
        return prepared;
      }
      return false;
    }

    /** A flush because enough time has passed. */
    method FlushInTime()
      requires Valid()
      modifies this
      ensures Valid() && buf == [] && SpeaksSince(old(log), log, old(buf), [])
    {
      hide Accepted, StateAt, After, CountDrops, AllOps, FlushShape, Speaks;
      var _ := Flush();
      bufBytes := 0;
    }

    // the reading half of a turn: batch what was read, and flush if enough time has passed
    method TakeRead(entries: seq<Entry>, flushDue: bool) returns (flushed: seq<seq<Entry>>)
      requires Valid()
      modifies this
      ensures Valid() && Joined(flushed) + buf == old(buf) + entries
      ensures SpeaksSince(old(log), log, old(buf) + entries, [])
    {
      hide Accepted, StateAt, After, CountDrops, TotalBytes, SpeaksSince, Within, Valid;
      flushed := Absorb(entries);
      if buf != [] && flushDue {
        ghost var before, logged := flushed, log;
        var batch := buf;
        RestWithin(Joined(flushed), buf, old(buf) + entries, []);
        FlushInTime();
        assert old(buf) + entries + [] == old(buf) + entries;
        WithinItself(old(buf) + entries);
        WithinItself<string>([]);
        SpeaksOn(old(log), logged, log, old(buf) + entries, [], batch, [], old(buf) + entries, []);
        flushed := flushed + [batch];
        assert flushed[..|before|] == before;
      }
    }

    /**
     One turn of the main loop: nothing without a connection; else a reclaim if one is due, a read,
     and a flush if enough time has passed.
     */
    method TakeTurn(t: Turn) returns (ready: bool, flushed: seq<seq<Entry>>)
      requires Valid()
      modifies this
      ensures Valid() && Joined(flushed) + buf == old(buf) + TakenIn(t, ready)
      ensures SpeaksSince(old(log), log, old(buf) + TakenIn(t, ready), DeletedIn(t, ready))
    {
      hide Accepted, StateAt, After, CountDrops, TotalBytes, SpeaksSince, Within;
      flushed := [];
      ready := EnsureDbConnection();
      NothingSaid(log, buf, []);
      assert buf + [] == buf;
      if !ready {
        return;
      }
      hide Valid;
      var claimed: seq<Entry>, deleted := [], [];
      if t.reclaim.Some? {
        deleted, claimed := t.reclaim.value.0, t.reclaim.value.1;
        flushed := ReclaimPending(deleted, claimed);
      }
      if t.read.None? {
        assert claimed + [] == claimed;
        return;
      }
      ghost var before, waiting, logged := flushed, buf, log;
      var more := TakeRead(t.read.value, t.flushDue);
      flushed := flushed + more;
      assert old(buf) + claimed + t.read.value == old(buf) + (claimed + t.read.value) && deleted + [] == deleted;
      JoinedOn(before, waiting, more, buf, old(buf) + claimed, t.read.value);
      SpeaksFurther(old(log), logged, log, Joined(before), waiting, old(buf) + claimed, deleted, t.read.value, []);
    }

    /**
     The main loop: whatever the order of reconnects, reclaims, reads and flushes, the flushed batches
     followed by the buffer are everything taken in, in order, and the log is about nothing else.
     */
    method Loop(turns: seq<Turn>) returns (ready: seq<bool>, flushed: seq<seq<Entry>>)
      requires Valid() && buf == []
      modifies this
      ensures Valid() && |ready| == |turns| && Joined(flushed) + buf == Taken(turns, ready, |turns|)
      ensures SpeaksSince(old(log), log, Taken(turns, ready, |turns|), Deleted(turns, ready, |turns|))
    {
      hide Accepted, StateAt, After, CountDrops, TotalBytes, SpeaksSince, Within, Speaks, TakenIn, DeletedIn, Joined, Valid;
      ready, flushed := [], [];
      NothingSaid(log, [], []);
      NothingFlushed();
      for n := 0 to |turns|
        invariant Valid() && |ready| == n && Joined(flushed) + buf == Taken(turns, ready, n)
        invariant SpeaksSince(old(log), log, Taken(turns, ready, n), Deleted(turns, ready, n))
      {
        ghost var waiting, logged := buf, log;
        var r, more := TakeTurn(turns[n]);
        TakenMore(turns, ready, r, n);
        hide Taken, Deleted;
        JoinedOn(flushed, waiting, more, buf, Taken(turns, ready, n), TakenIn(turns[n], r));
        SpeaksFurther(old(log), logged, log, Joined(flushed), waiting, Taken(turns, ready, n), Deleted(turns, ready, n),
                      TakenIn(turns[n], r), DeletedIn(turns[n], r));
        ready := ready + [r];
        flushed := flushed + more;
      }
    }
  }

  // what one turn of the loop meets: a due reclaim with its deleted ids and claimed entries, a read
  // unless it times out, and whether enough time has passed for a flush
  datatype Turn = Turn(reclaim: Option<(seq<string>, seq<Entry>)>, read: Option<seq<Entry>>, flushDue: bool)

  function TakenIn(t: Turn, ready: bool): seq<Entry> {
    if !ready then []
    else (if t.reclaim.Some? then t.reclaim.value.1 else []) + (if t.read.Some? then t.read.value else [])
  }

  function DeletedIn(t: Turn, ready: bool): seq<string> {
    if ready && t.reclaim.Some? then t.reclaim.value.0 else []
  }

  function Taken(turns: seq<Turn>, ready: seq<bool>, n: nat): seq<Entry>
    requires n <= |turns| && n <= |ready|
  {
    if n == 0 then [] else Taken(turns, ready, n - 1) + TakenIn(turns[n - 1], ready[n - 1])
  }

  function Deleted(turns: seq<Turn>, ready: seq<bool>, n: nat): seq<string>
    requires n <= |turns| && n <= |ready|
  {
    if n == 0 then [] else Deleted(turns, ready, n - 1) + DeletedIn(turns[n - 1], ready[n - 1])
  }

  lemma {:induction false} TakenPrefix(turns: seq<Turn>, ready: seq<bool>, turns': seq<Turn>, ready': seq<bool>, n: nat)
    requires turns <= turns' && ready <= ready' && n <= |turns| && n <= |ready|
    ensures Taken(turns, ready, n) == Taken(turns', ready', n) && Deleted(turns, ready, n) == Deleted(turns', ready', n)
    decreases n
  {
    hide TakenIn, DeletedIn;
    if n > 0 {
      TakenPrefix(turns, ready, turns', ready', n - 1);
    }
  }

  lemma TakenMore(turns: seq<Turn>, ready: seq<bool>, r: bool, n: nat)
    requires n < |turns| && |ready| == n
    ensures Taken(turns, ready + [r], n + 1) == Taken(turns, ready, n) + TakenIn(turns[n], r)
    ensures Deleted(turns, ready + [r], n + 1) == Deleted(turns, ready, n) + DeletedIn(turns[n], r)
  {
    hide TakenIn, DeletedIn;
    TakenPrefix(turns, ready, turns, ready + [r], n);
  }

  lemma NothingFlushed()
    ensures Joined([]) == []
  {
  }

  lemma JoinedOn(flushed: seq<seq<Entry>>, waiting: seq<Entry>, more: seq<seq<Entry>>, left: seq<Entry>,
                 taken: seq<Entry>, x: seq<Entry>)
    requires Joined(flushed) + waiting == taken && Joined(more) + left == waiting + x
    ensures Joined(flushed + more) + left == taken + x
  {
    JoinedConcat(flushed, more);
    hide Joined;
    calc {
      Joined(flushed) + Joined(more) + left;
      Joined(flushed) + (Joined(more) + left);
      Joined(flushed) + (waiting + x);
      Joined(flushed) + waiting + x;
    }
  }

  lemma SpeaksFurther(a: seq<Op>, b: seq<Op>, c: seq<Op>, gone: seq<Entry>, waiting: seq<Entry>, taken: seq<Entry>,
                      deleted: seq<string>, x: seq<Entry>, ds: seq<string>)
    requires gone + waiting == taken && SpeaksSince(a, b, taken, deleted) && SpeaksSince(b, c, waiting + x, ds)
    ensures SpeaksSince(a, c, taken + x, deleted + ds)
  {
    hide SpeaksSince, Within;
    RestWithin(gone, waiting, taken, x);
    RestWithin([], deleted, deleted, ds);
    LastWithin(deleted, ds);
    SpeaksOn(a, b, c, taken, deleted, waiting + x, ds, taken + x, deleted + ds);
  }

  lemma WithinItself<T>(all: seq<T>)
    ensures Within(all, all) && Within([], all)
  {
  }

  lemma LastWithin<T>(a: seq<T>, b: seq<T>)
    ensures Within(b, a + b)
  {
  }

  lemma WithinOn<T>(a: seq<T>, b: seq<T>, c: seq<T>)
    requires Within(a, b) && Within(b, c)
    ensures Within(a, c)
  {
  }

  lemma TakenSoFar(before: seq<Entry>, entries: seq<Entry>, i: nat)
    requires i < |entries|
    ensures Within(before + entries[..i] + [entries[i]], before + entries)
  {
  }

  lemma NothingSaid(log: seq<Op>, entries: seq<Entry>, deleted: seq<string>)
    ensures SpeaksSince(log, log, entries, deleted)
  {
  }

  function Joined(batches: seq<seq<Entry>>): seq<Entry> {
    if batches == [] then [] else Joined(batches[..|batches| - 1]) + batches[|batches| - 1]
  }

  lemma {:induction false} JoinedConcat(a: seq<seq<Entry>>, b: seq<seq<Entry>>)
    ensures Joined(a + b) == Joined(a) + Joined(b)
    decreases |b|
  {
    if b == [] {
      assert a + b == a;
    } else {
      var k := |b| - 1;
      JoinedConcat(a, b[..k]);
      assert (a + b)[..|a + b| - 1] == a + b[..k];
    }
  }
}
