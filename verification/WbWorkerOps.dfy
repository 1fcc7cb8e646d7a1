/**
 What the write-behind worker does to Redis and the database, operation by operation,
 and the discipline its acknowledgements follow. A log of operations is judged by a
 small automaton: it remembers the open transaction, the entries that failed in it,
 and the ids the worker has settled, that is, stored in a committed transaction or
 handed to the dead-letter stream without an exception.
 */
module WbWorkerOps {
  import opened Wrappers
  import opened EventFields
  import opened EventRow

  datatype WorkerConfig = WorkerConfig(
    dlqOnError: bool,
    dlqStream: string,
    ackOnError: bool,
    retryMax: nat,
    batchMaxEvents: nat,
    batchMaxBytes: nat)
  {
    predicate UsesDlq() {
      dlqOnError && dlqStream != ""
    }
  }

  // what a client call reports: true, false, or an exception
  datatype Reply = Yes | No | Threw

  // stored/applied: whether the server performed the operation; it may have even when
  // the report is lost, but a positive report is truthful.
  datatype Op =
    | Begin
    | Stage(e: Entry)
    | Reject(e: Entry)
    | DlqAdd(e: Entry, error: string, stored: bool, reply: Reply)
    | Ack(id: string, applied: bool, ok: bool)
    | DropAck(id: string, applied: bool, ok: bool)
    | AckDeleted(id: string, applied: bool, ok: bool)
    | Commit(applied: bool, ok: bool)
    | Abort

  datatype WorkerState = WorkerState(
    tx: Option<map<string, Row>>,
    failed: set<string>,
    threw: set<string>,
    settled: set<string>)

  const IDLE := WorkerState(None, {}, {}, {})

  // insert ... on conflict do nothing
  function InsertIfAbsent(rows: map<string, Row>, id: string, row: Row): map<string, Row> {
    if id in rows then rows else rows[id := row]
  }

  predicate Permitted(cfg: WorkerConfig, st: WorkerState, op: Op) {
    match op
    case Begin => st.tx.None?
    case Stage(e) => st.tx.Some?
    case Reject(e) => st.tx.Some?
    case DlqAdd(e, _, stored, reply) =>
      cfg.UsesDlq() && st.tx.Some? && e.id in st.failed && (reply == Yes ==> stored)
    case Ack(id, applied, ok) => id in st.settled && (ok ==> applied)
    case DropAck(id, applied, ok) =>
      cfg.ackOnError && id in st.failed && (cfg.UsesDlq() ==> id in st.threw) && (ok ==> applied)
    case AckDeleted(id, applied, ok) => ok ==> applied
    case Commit(applied, ok) => st.tx.Some? && (ok ==> applied)
    case Abort => st.tx.Some?
  }

  function Next(st: WorkerState, op: Op): WorkerState {
    match op
    case Begin => st.(tx := Some(map[]), failed := {}, threw := {})
    case Stage(e) =>
      if st.tx.Some? then st.(tx := Some(InsertIfAbsent(st.tx.value, e.id, WorkerRow(e.fields)))) else st
    case Reject(e) => st.(failed := st.failed + {e.id})
    case DlqAdd(e, _, _, reply) =>
      if reply == Threw then st.(threw := st.threw + {e.id}) else st.(settled := st.settled + {e.id})
    case Ack(_, _, _) => st
    case DropAck(_, _, _) => st
    case AckDeleted(_, _, _) => st
    case Commit(_, ok) =>
      WorkerState(None, {}, {}, if ok && st.tx.Some? then st.settled + st.tx.value.Keys else st.settled)
    case Abort => WorkerState(None, {}, {}, st.settled)
  }

  // the automaton's state after the first n operations
  function StateAt(st: WorkerState, ops: seq<Op>, n: nat): WorkerState
    requires n <= |ops|
  {
    if n == 0 then st else Next(StateAt(st, ops, n - 1), ops[n - 1])
  }

  function After(st: WorkerState, ops: seq<Op>): WorkerState {
    StateAt(st, ops, |ops|)
  }

  predicate Accepted(cfg: WorkerConfig, st: WorkerState, ops: seq<Op>) {
    forall i :: 0 <= i < |ops| ==> Permitted(cfg, StateAt(st, ops, i), ops[i])
  }

  lemma {:induction false} StateOfPrefix(st: WorkerState, ops: seq<Op>, more: seq<Op>, n: nat)
    requires n <= |ops| && ops <= more
    ensures StateAt(st, ops, n) == StateAt(st, more, n)
  {
    if n > 0 {
      StateOfPrefix(st, ops, more, n - 1);
    }
  }

  lemma AcceptedAppend(cfg: WorkerConfig, st: WorkerState, ops: seq<Op>, op: Op)
    requires Accepted(cfg, st, ops) && Permitted(cfg, After(st, ops), op)
    ensures Accepted(cfg, st, ops + [op])
    ensures After(st, ops + [op]) == Next(After(st, ops), op)
  {
    hide Next;
    hide Permitted;
    var all := ops + [op];
    forall i | 0 <= i < |all|
      ensures Permitted(cfg, StateAt(st, all, i), all[i])
    {
      StateOfPrefix(st, ops, all, i);
    }
    StateOfPrefix(st, ops, all, |ops|);
  }

  // ---- what a log is about -------------------------------------------------------------

  // the operation concerns one of these entries, or reports one of these ids as deleted
  predicate Speaks(op: Op, entries: seq<Entry>, deleted: seq<string>) {
    match op
    case Stage(e) => e in entries
    case Reject(e) => e in entries
    case DlqAdd(e, _, _, _) => e in entries
    case AckDeleted(id, _, _) => id in deleted
    case _ => true
  }

  // everything logged since then does
  predicate SpeaksSince(before: seq<Op>, log: seq<Op>, entries: seq<Entry>, deleted: seq<string>) {
    before <= log && forall i :: |before| <= i < |log| ==> Speaks(log[i], entries, deleted)
  }

  predicate Within<T(==)>(some: seq<T>, all: seq<T>) {
    forall x :: x in some ==> x in all
  }

  // what is left of what was there, and what came on top, lies within the whole
  lemma RestWithin<T>(gone: seq<T>, left: seq<T>, there: seq<T>, more: seq<T>)
    requires gone + left == there
    ensures Within(left + more, there + more) && Within(there, there + more) && Within(left, there + more)
  {
    forall x | x in left + more ensures x in there + more {
      if x in left {
        assert x in gone + left;
      }
    }
    forall x | x in left ensures x in there + more {
      assert x in gone + left;
    }
  }

  lemma SpeaksOn(a: seq<Op>, b: seq<Op>, c: seq<Op>, es: seq<Entry>, ds: seq<string>, es': seq<Entry>, ds': seq<string>,
                 all: seq<Entry>, allDeleted: seq<string>)
    requires SpeaksSince(a, b, es, ds) && SpeaksSince(b, c, es', ds')
    requires Within(es, all) && Within(es', all) && Within(ds, allDeleted) && Within(ds', allDeleted)
    ensures SpeaksSince(a, c, all, allDeleted)
  {
    forall i | |a| <= i < |c| ensures Speaks(c[i], all, allDeleted) {
      if i < |b| {
        assert c[i] == b[i] && Speaks(b[i], es, ds);
      } else {
        assert Speaks(c[i], es', ds');
      }
    }
  }

  // ---- every acknowledgement is accounted for ----------------------------------------

  predicate EndsTransaction(op: Op) {
    op.Begin? || op.Commit? || op.Abort?
  }

  // log[j] staged id and the transaction it went into was still the open one at n
  predicate StagedSince(log: seq<Op>, j: int, n: int, id: string) {
    && 0 <= j < n <= |log|
    && log[j].Stage? && log[j].e.id == id
    && forall k :: j < k < n ==> !EndsTransaction(log[k])
  }

  // id was staged into a transaction whose commit at k was reported successful
  predicate CommittedAt(log: seq<Op>, j: int, k: int, id: string) {
    0 <= k < |log| && StagedSince(log, j, k, id) && log[k] == Commit(true, true)
  }

  predicate HandedToDlqAt(log: seq<Op>, k: int, id: string) {
    0 <= k < |log| && log[k].DlqAdd? && log[k].e.id == id && log[k].reply != Threw
  }

  ghost predicate Accounted(log: seq<Op>, n: int, id: string) {
    || (exists j, k :: k < n && CommittedAt(log, j, k, id))
    || (exists k :: k < n && HandedToDlqAt(log, k, id))
  }

  lemma {:induction false} StagedWasLogged(log: seq<Op>, n: nat, id: string) returns (j: int)
    requires n <= |log|
    requires StateAt(IDLE, log, n).tx.Some? && id in StateAt(IDLE, log, n).tx.value
    ensures StagedSince(log, j, n, id)
    decreases n
  {
    hide WorkerRow;
    j := n - 1;
    if !(log[j].Stage? && log[j].e.id == id) {
      j := StagedWasLogged(log, n - 1, id);
    }
  }

  lemma {:induction false} SettledIsAccounted(cfg: WorkerConfig, log: seq<Op>, n: nat, id: string)
    requires n <= |log| && Accepted(cfg, IDLE, log)
    requires id in StateAt(IDLE, log, n).settled
    ensures Accounted(log, n, id)
    decreases n
  {
    var op := log[n - 1];
    assert Permitted(cfg, StateAt(IDLE, log, n - 1), op);
    if id in StateAt(IDLE, log, n - 1).settled {
      SettledIsAccounted(cfg, log, n - 1, id);
    } else if op.DlqAdd? {
      assert HandedToDlqAt(log, n - 1, id);
    } else {
      var j := StagedWasLogged(log, n - 1, id);
      assert CommittedAt(log, j, n - 1, id);
    }
  }

  /**
   In every configuration, an id is acknowledged as done only after its row was in a
   transaction reported committed, or after a dead-letter add for it came back without an
   exception. Rows of an aborted or failed transaction never justify an acknowledgement.
   The other two acknowledgements are the counted drop and the reported deletion.
   */
  lemma AckAccounting(cfg: WorkerConfig, log: seq<Op>, i: nat)
    requires i < |log| && Accepted(cfg, IDLE, log)
    requires log[i].Ack?
    ensures Accounted(log, i, log[i].id)
  {
    assert Permitted(cfg, StateAt(IDLE, log, i), log[i]);
    SettledIsAccounted(cfg, log, i, log[i].id);
  }

  predicate RejectedSince(log: seq<Op>, j: int, n: int, id: string) {
    && 0 <= j < n <= |log|
    && log[j].Reject? && log[j].e.id == id
    && forall k :: j < k < n ==> !EndsTransaction(log[k])
  }

  predicate AddThrewSince(log: seq<Op>, j: int, n: int, id: string) {
    && 0 <= j < n <= |log|
    && log[j].DlqAdd? && log[j].e.id == id && log[j].reply == Threw
    && forall k :: j < k < n ==> !EndsTransaction(log[k])
  }

  lemma {:induction false} FailedWasLogged(log: seq<Op>, n: nat, id: string) returns (j: int)
    requires n <= |log| && id in StateAt(IDLE, log, n).failed
    ensures RejectedSince(log, j, n, id)
  {
    j := n - 1;
    if !(log[j].Reject? && log[j].e.id == id) {
      j := FailedWasLogged(log, n - 1, id);
    }
  }

  lemma {:induction false} ThrewWasLogged(log: seq<Op>, n: nat, id: string) returns (j: int)
    requires n <= |log| && id in StateAt(IDLE, log, n).threw
    ensures AddThrewSince(log, j, n, id)
  {
    j := n - 1;
    if !(log[j].DlqAdd? && log[j].e.id == id && log[j].reply == Threw) {
      j := ThrewWasLogged(log, n - 1, id);
    }
  }

  /**
   An event is dropped only where the configuration allows it, after its insert failed in
   the transaction still open, and, if there is a dead-letter stream, after adding it there
   raised an exception in that same transaction.
   */
  lemma DropAccounting(cfg: WorkerConfig, log: seq<Op>, i: nat) returns (rejected: int, threw: int)
    requires i < |log| && Accepted(cfg, IDLE, log)
    requires log[i].DropAck?
    ensures cfg.ackOnError && RejectedSince(log, rejected, i, log[i].id)
    ensures cfg.UsesDlq() ==> AddThrewSince(log, threw, i, log[i].id)
  {
    assert Permitted(cfg, StateAt(IDLE, log, i), log[i]);
    rejected := FailedWasLogged(log, i, log[i].id);
    threw := -1;
    if cfg.UsesDlq() {
      threw := ThrewWasLogged(log, i, log[i].id);
    }
  }
}
