/**
 Any number of workers and replayers, any interleaving, any crashes: the write-behind
 pipeline as one state machine over Redis and the database. Programs take part only
 through the operations their own disciplines allow.
 */
module WbPipeline {
  import opened Wrappers
  import opened EventFields
  import opened EventRow
  import opened WbWorkerOps
  import opened WbReplayer

  datatype Setup = Setup(worker: WorkerConfig, replayRetryMax: nat)

  datatype World = World(
    events: map<string, Fields>,       // every event ever added to the main stream
    deleted: set<string>,              // trimmed or deleted there from outside
    acked: set<string>,
    db: map<string, Row>,
    dlq: seq<Entry>,
    dlqAcked: set<nat>,
    dead: seq<Fields>,
    workers: map<nat, WorkerState>,
    replayers: map<nat, ReplayState>)

  const EMPTY := World(map[], {}, {}, map[], [], {}, [], map[], map[])

  datatype Step =
    | Produce(id: string, fields: Fields)
    | Delete(id: string)
    | Work(w: nat, op: Op, newId: string)             // newId: the id Redis gives an added copy
    | Replay(r: nat, rop: ReplayOp, newId: string)
    | WorkerCrash(w: nat)
    | ReplayerCrash(r: nat)

  function WorkerOf(s: World, w: nat): WorkerState {
    if w in s.workers then s.workers[w] else IDLE
  }

  function ReplayerOf(s: World, r: nat): ReplayState {
    if r in s.replayers then s.replayers[r] else FRESH
  }

  // The operation names what is really there: a worker processes entries of the main
  // stream, a replayer entries of the dead-letter stream, and only deleted ids are
  // reported as deleted.
  predicate Present(s: World, op: Op) {
    match op
    case Stage(e) => e.id in s.events && s.events[e.id] == e.fields
    case Reject(e) => e.id in s.events && s.events[e.id] == e.fields
    case DlqAdd(e, _, _, _) => e.id in s.events && s.events[e.id] == e.fields
    case AckDeleted(id, _, _) => id in s.deleted
    case _ => true
  }

  predicate PresentCopy(s: World, op: ReplayOp) {
    OfStream(s.dlq, op)
  }

  predicate Enabled(c: Setup, s: World, step: Step) {
    match step
    case Produce(id, _) => id !in s.events
    case Delete(id) => id in s.events
    case Work(w, op, _) => Permitted(c.worker, WorkerOf(s, w), op) && Present(s, op)
    case Replay(r, op, _) => MayReplay(c.replayRetryMax, ReplayerOf(s, r), op) && PresentCopy(s, op)
    case WorkerCrash(_) => true
    case ReplayerCrash(_) => true
  }

  // rows of a committed transaction, each inserted on conflict do nothing
  function InsertAll(db: map<string, Row>, rows: map<string, Row>): map<string, Row> {
    rows + db
  }

  // what a worker's operation does outside the worker
  function WorkEffect(s: World, st: WorkerState, op: Op, newId: string): World {
    match op
    case DlqAdd(e, error, stored, _) =>
      if stored then s.(dlq := s.dlq + [Entry(newId, DlqCopy(e.id, e.fields, error))]) else s
    case Ack(id, applied, _) => if applied then s.(acked := s.acked + {id}) else s
    case DropAck(id, applied, _) => if applied then s.(acked := s.acked + {id}) else s
    case AckDeleted(id, applied, _) => if applied then s.(acked := s.acked + {id}) else s
    case Commit(applied, _) =>
      if applied && st.tx.Some? then s.(db := InsertAll(s.db, st.tx.value)) else s
    case _ => s
  }

  function ReplayEffect(s: World, op: ReplayOp, newId: string): World {
    match op
    case Insert(_, e, applied, _) =>
      if applied then s.(db := InsertIfAbsent(s.db, Orig(e), ReplayRow(e.fields))) else s
    case ReAdd(_, e, error, stored, _) =>
      if stored then s.(dlq := s.dlq + [Entry(newId, ReAddedFields(e, error))]) else s
    case Bury(_, e, error, stored, _) =>
      if stored then s.(dead := s.dead + [BuriedFields(e, error)]) else s
    case Done(k, applied, _) => if applied then s.(dlqAcked := s.dlqAcked + {k}) else s
  }

  function Do(s: World, step: Step): World {
    match step
    case Produce(id, fields) => s.(events := s.events[id := fields])
    case Delete(id) => s.(deleted := s.deleted + {id})
    case Work(w, op, newId) =>
      var st := WorkerOf(s, w);
      WorkEffect(s, st, op, newId).(workers := s.workers[w := Next(st, op)])
    case Replay(r, op, newId) =>
      ReplayEffect(s, op, newId).(replayers := s.replayers[r := NextReplay(ReplayerOf(s, r), op)])
    case WorkerCrash(w) => s.(workers := s.workers[w := IDLE])
    case ReplayerCrash(r) => s.(replayers := s.replayers[r := FRESH])
  }

  function WorldAt(s: World, run: seq<Step>, n: nat): World
    requires n <= |run|
  {
    if n == 0 then s else Do(WorldAt(s, run, n - 1), run[n - 1])
  }

  predicate Legal(c: Setup, s: World, run: seq<Step>) {
    forall i :: 0 <= i < |run| ==> Enabled(c, WorldAt(s, run, i), run[i])
  }

  lemma RunStep(c: Setup, run: seq<Step>, n: nat)
    requires Legal(c, EMPTY, run) && n < |run|
    ensures Enabled(c, WorldAt(EMPTY, run, n), run[n])
    ensures WorldAt(EMPTY, run, n + 1) == Do(WorldAt(EMPTY, run, n), run[n])
  {
  }

  // ---- where an event is safe ---------------------------------------------------------

  // in the database, buried, or in an unacknowledged copy beyond position m
  ghost predicate SafeBeyond(s: World, id: string, m: int) {
    || id in s.db
    || (exists i :: 0 <= i < |s.dead| && OrigId(s.dead[i], "") == id)
    || (exists j :: m < j < |s.dlq| && j >= 0 && j !in s.dlqAcked && Orig(s.dlq[j]) == id)
  }

  ghost predicate Safe(s: World, id: string) {
    SafeBeyond(s, id, -1)
  }

  // The ids a step gives up on: a dead-letter add came back without an exception although
  // nothing was stored, or the event was dropped.
  function GivesUp(step: Step): set<string> {
    if step.Work? && step.op.DlqAdd? && step.op.reply == No && !step.op.stored then {step.op.e.id}
    else if step.Work? && step.op.DropAck? then {step.op.id}
    else {}
  }

  function GivenUp(run: seq<Step>, n: nat): set<string>
    requires n <= |run|
  {
    if n == 0 then {} else GivenUp(run, n - 1) + GivesUp(run[n - 1])
  }

  // ---- content: copies and rows are faithful -----------------------------------------

  predicate IsCopy(events: map<string, Fields>, fs: Fields) {
    fs != [] && fs[0].1 in events && Carries(fs, fs[0].1, events[fs[0].1])
  }

  function ReplayCore(fs: Fields): Core {
    CoreOfPayload(FirstWins(Strip(fs)))
  }

  predicate FaithfulRow(events: map<string, Fields>, id: string, row: Row) {
    && id in events
    && (CoreOf(row) == CoreOf(WorkerRow(events[id])) || CoreOf(row) == ReplayCore(events[id]))
  }

  ghost predicate Faithful(s: World) {
    && (forall k :: 0 <= k < |s.dlq| ==> IsCopy(s.events, s.dlq[k].fields))
    && (forall k :: 0 <= k < |s.dead| ==> IsCopy(s.events, s.dead[k]))
    && (forall id :: id in s.db ==> FaithfulRow(s.events, id, s.db[id]))
    && (forall w :: w in s.workers ==> FaithfulTx(s.events, s.workers[w]))
  }

  ghost predicate FaithfulTx(events: map<string, Fields>, st: WorkerState) {
    st.tx.Some? ==> forall id :: id in st.tx.value ==> FaithfulRow(events, id, st.tx.value[id])
  }

  lemma CopyNamesOrig(events: map<string, Fields>, e: Entry)
    requires IsCopy(events, e.fields)
    ensures Orig(e) == e.fields[0].1 && OrigId(e.fields, "") == Orig(e)
  {
    CarriesNamesOrig(e.fields, e.fields[0].1, events[e.fields[0].1], e.id);
    CarriesNamesOrig(e.fields, e.fields[0].1, events[e.fields[0].1], "");
  }

  lemma FaithfulWork(c: Setup, s: World, w: nat, op: Op, newId: string)
    requires Faithful(s) && Enabled(c, s, Work(w, op, newId))
    ensures Faithful(Do(s, Work(w, op, newId)))
  {
    hide Carries, WorkerRow, ReplayCore, CoreOf;
    var s' := Do(s, Work(w, op, newId));
    assert FaithfulTx(s.events, WorkerOf(s, w));
    if op.DlqAdd? {
      DlqCopyCarries(op.e.id, op.e.fields, op.error);
      assert DlqCopy(op.e.id, op.e.fields, op.error)[0] == (ORIG_ID, op.e.id);
    }
    assert FaithfulTx(s.events, s'.workers[w]);
  }

  lemma RecopyIsCopy(events: map<string, Fields>, e: Entry, error: string)
    requires IsCopy(events, e.fields)
    ensures IsCopy(events, ReAddedFields(e, error)) && IsCopy(events, BuriedFields(e, error))
    ensures OrigId(ReAddedFields(e, error), "") == OrigId(BuriedFields(e, error), "") == Orig(e)
  {
    hide Carries, RetryCount, DropRetryCount, OrigId;
    CopyNamesOrig(events, e);
    RecopyCarries(e.fields, Orig(e), events[Orig(e)], RetryCount(e.fields) + 1, error);
    assert ReAddedFields(e, error)[0] == BuriedFields(e, error)[0] == (ORIG_ID, Orig(e));
    CopyNamesOrig(events, Entry("", ReAddedFields(e, error)));
    CopyNamesOrig(events, Entry("", BuriedFields(e, error)));
  }

  lemma ReplayRowFaithful(events: map<string, Fields>, e: Entry)
    requires IsCopy(events, e.fields)
    ensures FaithfulRow(events, Orig(e), ReplayRow(e.fields))
  {
    CopyNamesOrig(events, e);
    ReplayCoreOfCopy(e.fields, Orig(e), events[Orig(e)]);
  }

  lemma FaithfulInsert(c: Setup, s: World, r: nat, op: ReplayOp, newId: string)
    requires op.Insert? && Faithful(s) && Enabled(c, s, Replay(r, op, newId))
    ensures Faithful(Do(s, Replay(r, op, newId)))
  {
    hide IsCopy, FaithfulRow, FaithfulTx, ReplayRow, ReAddedFields, BuriedFields, Orig, MayReplay, NextReplay, OrigId;
    ReplayRowFaithful(s.events, op.e);
  }

  lemma FaithfulReAdd(c: Setup, s: World, r: nat, op: ReplayOp, newId: string)
    requires op.ReAdd? && Faithful(s) && Enabled(c, s, Replay(r, op, newId))
    ensures Faithful(Do(s, Replay(r, op, newId)))
  {
    hide IsCopy, FaithfulRow, FaithfulTx, ReplayRow, ReAddedFields, BuriedFields, Orig, MayReplay, NextReplay, OrigId;
    RecopyIsCopy(s.events, op.e, op.error);
  }

  lemma FaithfulBury(c: Setup, s: World, r: nat, op: ReplayOp, newId: string)
    requires op.Bury? && Faithful(s) && Enabled(c, s, Replay(r, op, newId))
    ensures Faithful(Do(s, Replay(r, op, newId)))
  {
    hide IsCopy, FaithfulRow, FaithfulTx, ReplayRow, ReAddedFields, BuriedFields, Orig, MayReplay, NextReplay, OrigId;
    RecopyIsCopy(s.events, op.e, op.error);
  }

  lemma FaithfulReplay(c: Setup, s: World, r: nat, op: ReplayOp, newId: string)
    requires Faithful(s) && Enabled(c, s, Replay(r, op, newId))
    ensures Faithful(Do(s, Replay(r, op, newId)))
  {
    match op
    case Insert(_, _, _, _) => FaithfulInsert(c, s, r, op, newId);
    case ReAdd(_, _, _, _, _) => FaithfulReAdd(c, s, r, op, newId);
    case Bury(_, _, _, _, _) => FaithfulBury(c, s, r, op, newId);
    case Done(_, _, _) =>
      hide IsCopy, FaithfulRow, FaithfulTx, MayReplay, NextReplay;
  }

  lemma FaithfulProduce(s: World, id: string, fields: Fields)
    requires Faithful(s) && id !in s.events
    ensures Faithful(Do(s, Produce(id, fields)))
  {
    hide Carries, WorkerRow, ReplayCore, CoreOf;
  }

  lemma FaithfulStep(c: Setup, s: World, step: Step)
    requires Faithful(s) && Enabled(c, s, step)
    ensures Faithful(Do(s, step))
  {
    match step
    case Work(w, op, newId) => FaithfulWork(c, s, w, op, newId);
    case Replay(r, op, newId) => FaithfulReplay(c, s, r, op, newId);
    case Produce(id, fields) => FaithfulProduce(s, id, fields);
    case _ =>
      hide IsCopy, FaithfulRow;
  }

  lemma FaithfulInitially(run: seq<Step>)
    ensures Faithful(WorldAt(EMPTY, run, 0))
  {
    assert WorldAt(EMPTY, run, 0) == EMPTY;
  }

  lemma {:induction false} FaithfulRun(c: Setup, run: seq<Step>, n: nat)
    requires Legal(c, EMPTY, run) && n <= |run|
    ensures Faithful(WorldAt(EMPTY, run, n))
    decreases n
  {
    hide *;
    if n == 0 {
      FaithfulInitially(run);
    } else {
      FaithfulRun(c, run, n - 1);
      RunStep(c, run, n - 1);
      FaithfulStep(c, WorldAt(EMPTY, run, n - 1), run[n - 1]);
    }
  }

  // ---- safety: nothing acknowledged is lost ------------------------------------------

  ghost predicate Kept(s: World, lost: set<string>, id: string) {
    Safe(s, id) || id in lost
  }

  ghost predicate Conserved(s: World, lost: set<string>) {
    && (forall id :: id in s.acked ==> Kept(s, lost, id) || id in s.deleted)
    && (forall w, id :: w in s.workers && id in s.workers[w].settled ==> Kept(s, lost, id))
    && (forall k :: k in s.dlqAcked ==> Superseded(s, k))
    && (forall r, k :: r in s.replayers && k in s.replayers[r].settled ==> Superseded(s, k))
  }

  // copy k is no longer needed: its event is in the database, buried, or in a later copy
  ghost predicate Superseded(s: World, k: nat) {
    k < |s.dlq| && SafeBeyond(s, Orig(s.dlq[k]), k)
  }

  predicate Grows(s: World, s': World) {
    && s.db.Keys <= s'.db.Keys && s.dead <= s'.dead && s.dlq <= s'.dlq && s.dlqAcked == s'.dlqAcked
  }

  lemma SafeGrows(s: World, s': World, id: string, m: int)
    requires SafeBeyond(s, id, m) && Grows(s, s')
    ensures SafeBeyond(s', id, m)
  {
    hide Orig;
    if id !in s.db {
      if i :| 0 <= i < |s.dead| && OrigId(s.dead[i], "") == id {
        assert s'.dead[i] == s.dead[i];
      } else {
        var j :| m < j < |s.dlq| && j >= 0 && j !in s.dlqAcked && Orig(s.dlq[j]) == id;
        assert s'.dlq[j] == s.dlq[j];
      }
    }
  }

  // Acknowledging a superseded copy endangers nothing: an event resting on it rests on a
  // later copy as well.
  lemma SafeAcknowledged(s: World, s': World, id: string, m: int, k: nat)
    requires SafeBeyond(s, id, m) && Superseded(s, k)
    requires s' == s.(dlqAcked := s.dlqAcked + {k}, replayers := s'.replayers)
    ensures SafeBeyond(s', id, m)
  {
    hide Orig, OrigId;
    if id !in s.db && !(exists i :: 0 <= i < |s.dead| && OrigId(s.dead[i], "") == id) {
      var j :| m < j < |s.dlq| && j >= 0 && j !in s.dlqAcked && Orig(s.dlq[j]) == id;
      if j == k {
        var j' :| k < j' < |s.dlq| && j' >= 0 && j' !in s.dlqAcked && Orig(s.dlq[j']) == id;
        assert j' !in s'.dlqAcked;
      } else {
        assert j !in s'.dlqAcked;
      }
    }
  }

  lemma KeptGrows(s: World, s': World, lost: set<string>, lost': set<string>)
    requires Grows(s, s') && lost <= lost'
    ensures forall id :: Kept(s, lost, id) ==> Kept(s', lost', id)
    ensures forall k :: Superseded(s, k) ==> Superseded(s', k)
  {
    hide Orig, SafeBeyond;
    forall id | Kept(s, lost, id)
      ensures Kept(s', lost', id)
    {
      if Safe(s, id) {
        SafeGrows(s, s', id, -1);
      }
    }
    forall k: nat | Superseded(s, k)
      ensures Superseded(s', k)
    {
      SafeGrows(s, s', Orig(s.dlq[k]), k);
    }
  }

  lemma NewCopyIsSafe(s: World, e: Entry, m: int)
    requires (forall k :: k in s.dlqAcked ==> k < |s.dlq|) && m < |s.dlq|
    ensures SafeBeyond(s.(dlq := s.dlq + [e]), Orig(e), m)
  {
    hide Orig;
    var s' := s.(dlq := s.dlq + [e]);
    assert s'.dlq[|s.dlq|] == e && |s.dlq| !in s'.dlqAcked;
  }

  lemma SafeIgnoresPrograms(s: World, s': World, id: string, m: int)
    requires s.db == s'.db && s.dlq == s'.dlq && s.dead == s'.dead && s.dlqAcked == s'.dlqAcked
    ensures SafeBeyond(s, id, m) <==> SafeBeyond(s', id, m)
  {
  }

  lemma DlqAddKeeps(s: World, lost: set<string>, w: nat, op: Op, newId: string)
    requires Conserved(s, lost) && op.DlqAdd? && op.reply != Threw && (op.reply == Yes ==> op.stored)
    ensures Kept(Do(s, Work(w, op, newId)), lost + GivesUp(Work(w, op, newId)), op.e.id)
  {
    hide SafeBeyond;
    if op.stored {
      var copy := Entry(newId, DlqCopy(op.e.id, op.e.fields, op.error));
      assert forall k :: k in s.dlqAcked ==> Superseded(s, k);
      NewCopyIsSafe(s, copy, -1);
      DlqCopyCarries(op.e.id, op.e.fields, op.error);
      CarriesNamesOrig(copy.fields, op.e.id, op.e.fields, newId);
      SafeIgnoresPrograms(s.(dlq := s.dlq + [copy]), Do(s, Work(w, op, newId)), op.e.id, -1);
    }
  }

  lemma ConservedWork(c: Setup, s: World, lost: set<string>, w: nat, op: Op, newId: string)
    requires Conserved(s, lost) && Enabled(c, s, Work(w, op, newId))
    ensures Conserved(Do(s, Work(w, op, newId)), lost + GivesUp(Work(w, op, newId)))
  {
    hide SafeBeyond, Orig, DlqCopy, WorkerRow;
    var s', lost' := Do(s, Work(w, op, newId)), lost + GivesUp(Work(w, op, newId));
    var st := WorkerOf(s, w);
    KeptGrows(s, s', lost, lost');
    forall id | id in s'.acked
      ensures Kept(s', lost', id) || id in s'.deleted
    {
      if id !in s.acked && op.Ack? {
        assert Kept(s, lost, id);
      }
    }
    forall v, id | v in s'.workers && id in s'.workers[v].settled
      ensures Kept(s', lost', id)
    {
      if v != w || id in st.settled {
        assert Kept(s, lost, id);
      } else if op.DlqAdd? {
        DlqAddKeeps(s, lost, w, op, newId);
      } else {
        assert id in s'.db;
        InDatabaseIsSafe(s', id, -1);
      }
    }
  }

  lemma InDatabaseIsSafe(s: World, id: string, m: int)
    requires id in s.db
    ensures SafeBeyond(s, id, m)
  {
  }

  lemma BuriedIsSafe(s: World, fs: Fields, m: int)
    ensures SafeBeyond(s.(dead := s.dead + [fs]), OrigId(fs, ""), m)
  {
    hide OrigId;
    assert s.(dead := s.dead + [fs]).dead[|s.dead|] == fs;
  }

  // a copy whose re-add has just been stored is superseded by it
  lemma ReAddSupersedes(s: World, s': World, e: Entry, copy: Entry, k: nat)
    requires k < |s.dlq| && s.dlq[k] == e && Orig(copy) == Orig(e)
    requires forall i :: i in s.dlqAcked ==> i < |s.dlq|
    requires s'.db == s.db && s'.dead == s.dead && s'.dlqAcked == s.dlqAcked && s'.dlq == s.dlq + [copy]
    ensures Superseded(s', k)
  {
    hide Orig, SafeBeyond;
    NewCopyIsSafe(s, copy, k);
    SafeIgnoresPrograms(s.(dlq := s.dlq + [copy]), s', Orig(e), k);
  }

  lemma BurySupersedes(s: World, s': World, e: Entry, buried: Fields, k: nat)
    requires k < |s.dlq| && s.dlq[k] == e && OrigId(buried, "") == Orig(e)
    requires s'.db == s.db && s'.dlq == s.dlq && s'.dlqAcked == s.dlqAcked && s'.dead == s.dead + [buried]
    ensures Superseded(s', k)
  {
    hide Orig, OrigId, SafeBeyond;
    BuriedIsSafe(s, buried, k);
    SafeIgnoresPrograms(s.(dead := s.dead + [buried]), s', Orig(e), k);
  }

  // a copy the replayer has just settled is superseded
  lemma ReplaySettles(c: Setup, s: World, lost: set<string>, r: nat, op: ReplayOp, newId: string)
    requires Faithful(s) && Conserved(s, lost) && Enabled(c, s, Replay(r, op, newId))
    requires op.k in NextReplay(ReplayerOf(s, r), op).settled && op.k !in ReplayerOf(s, r).settled
    ensures Superseded(Do(s, Replay(r, op, newId)), op.k)
  {
    hide Kept, SafeBeyond, Orig, IsCopy, FaithfulRow, FaithfulTx, ReplayRow, ReAddedFields, BuriedFields, OrigId;
    var s' := Do(s, Replay(r, op, newId));
    var e := op.e;
    assert forall k :: k in s.dlqAcked ==> Superseded(s, k);
    if op.Insert? {
      InDatabaseIsSafe(s', Orig(e), op.k);
    } else {
      RecopyIsCopy(s.events, e, op.error);
      if op.ReAdd? {
        var copy := Entry(newId, ReAddedFields(e, op.error));
        CopyNamesOrig(s.events, copy);
        ReAddSupersedes(s, s', e, copy, op.k);
      } else {
        BurySupersedes(s, s', e, BuriedFields(e, op.error), op.k);
      }
    }
  }

  lemma ConservedDone(c: Setup, s: World, lost: set<string>, r: nat, op: ReplayOp, newId: string)
    requires Conserved(s, lost) && Enabled(c, s, Replay(r, op, newId)) && op.Done? && op.applied
    ensures Conserved(Do(s, Replay(r, op, newId)), lost)
  {
    hide SafeBeyond, Orig;
    var s' := Do(s, Replay(r, op, newId));
    assert Superseded(s, op.k);
    assert s' == s.(dlqAcked := s.dlqAcked + {op.k}, replayers := s'.replayers);
    forall id | Kept(s, lost, id)
      ensures Kept(s', lost, id)
    {
      if Safe(s, id) {
        SafeAcknowledged(s, s', id, -1, op.k);
      }
    }
    forall k: nat | Superseded(s, k)
      ensures Superseded(s', k)
    {
      SafeAcknowledged(s, s', Orig(s.dlq[k]), k, op.k);
    }
  }

  lemma ReplayGrows(s: World, r: nat, op: ReplayOp, newId: string)
    requires !(op.Done? && op.applied)
    ensures var s' := Do(s, Replay(r, op, newId));
      Grows(s, s') && s'.acked == s.acked && s'.deleted == s.deleted && s'.workers == s.workers
  {
    hide Orig, ReplayRow, ReAddedFields, BuriedFields, NextReplay;
  }

  lemma ReplaySettledOnly(st: ReplayState, op: ReplayOp)
    ensures NextReplay(st, op).settled <= st.settled + {op.k}
  {
  }

  lemma ConservedReplay(c: Setup, s: World, lost: set<string>, r: nat, op: ReplayOp, newId: string)
    requires Faithful(s) && Conserved(s, lost) && Enabled(c, s, Replay(r, op, newId))
    ensures Conserved(Do(s, Replay(r, op, newId)), lost)
  {
    if op.Done? && op.applied {
      ConservedDone(c, s, lost, r, op, newId);
    } else {
      ReplayGrows(s, r, op, newId);
      ReplaySettledOnly(ReplayerOf(s, r), op);
      var s' := Do(s, Replay(r, op, newId));
      assert s'.replayers == s.replayers[r := NextReplay(ReplayerOf(s, r), op)];
      KeptGrows(s, s', lost, lost);
      forall v, k | v in s'.replayers && k in s'.replayers[v].settled
        ensures Superseded(s', k)
      {
        hide Kept, Superseded, Faithful, Enabled, Do, Grows, NextReplay;
        if v != r || k in ReplayerOf(s, r).settled {
          assert Superseded(s, k);
        } else {
          ReplaySettles(c, s, lost, r, op, newId);
        }
      }
      hide Kept, Superseded, Faithful, Enabled, Do, Grows, NextReplay;
    }
  }

  lemma ConservedStep(c: Setup, s: World, lost: set<string>, step: Step)
    requires Faithful(s) && Conserved(s, lost) && Enabled(c, s, step)
    ensures Conserved(Do(s, step), lost + GivesUp(step))
  {
    match step
    case Work(w, op, newId) => ConservedWork(c, s, lost, w, op, newId);
    case Replay(r, op, newId) =>
      ConservedReplay(c, s, lost, r, op, newId);
      assert lost + GivesUp(step) == lost;
    case _ =>
      hide SafeBeyond, Orig;
      KeptGrows(s, Do(s, step), lost, lost + GivesUp(step));
  }

  lemma ConservedInitially(run: seq<Step>)
    ensures Conserved(WorldAt(EMPTY, run, 0), GivenUp(run, 0))
  {
    assert WorldAt(EMPTY, run, 0) == EMPTY;
  }

  lemma GivenUpStep(run: seq<Step>, n: nat)
    requires n < |run|
    ensures GivenUp(run, n + 1) == GivenUp(run, n) + GivesUp(run[n])
  {
  }

  lemma {:induction false} ConservedRun(c: Setup, run: seq<Step>, n: nat)
    requires Legal(c, EMPTY, run) && n <= |run|
    ensures Conserved(WorldAt(EMPTY, run, n), GivenUp(run, n))
    decreases n
  {
    hide *;
    if n == 0 {
      ConservedInitially(run);
    } else {
      ConservedRun(c, run, n - 1);
      FaithfulRun(c, run, n - 1);
      RunStep(c, run, n - 1);
      GivenUpStep(run, n - 1);
      ConservedStep(c, WorldAt(EMPTY, run, n - 1), GivenUp(run, n - 1), run[n - 1]);
    }
  }

  // ---- main results ---------------------------------------------------------------------

  // the event's content can still be had: stored, buried, or in a pending copy
  ghost predicate Recoverable(s: World, id: string)
    requires id in s.events
  {
    || id in s.db
    || (exists i :: 0 <= i < |s.dead| && Carries(s.dead[i], id, s.events[id]))
    || (exists j :: 0 <= j < |s.dlq| && j !in s.dlqAcked && Carries(s.dlq[j].fields, id, s.events[id]))
  }

  lemma SafeIsRecoverable(s: World, id: string)
    requires Faithful(s) && Safe(s, id) && id in s.events
    ensures Recoverable(s, id)
  {
    hide Carries, OrigId;
    if id !in s.db {
      if i :| 0 <= i < |s.dead| && OrigId(s.dead[i], "") == id {
        CopyNamesOrig(s.events, Entry("", s.dead[i]));
      } else {
        var j :| -1 < j < |s.dlq| && j >= 0 && j !in s.dlqAcked && Orig(s.dlq[j]) == id;
        CopyNamesOrig(s.events, s.dlq[j]);
      }
    }
  }

  /**
   No loss. In every interleaving of any number of workers and replayers with crashes,
   lost replies and doubtful commits, an event is still unacknowledged in the main stream,
   stored, buried, or held by a pending dead-letter copy; the only exceptions are events
   deleted from outside and events the worker gave up on.
   */
  lemma NoLoss(c: Setup, run: seq<Step>, id: string)
    requires Legal(c, EMPTY, run) && id in WorldAt(EMPTY, run, |run|).events
    ensures var s := WorldAt(EMPTY, run, |run|);
      id !in s.acked || Recoverable(s, id) || id in s.deleted || id in GivenUp(run, |run|)
  {
    hide Legal, WorldAt, GivenUp, SafeBeyond, Faithful, Recoverable;
    ConservedRun(c, run, |run|);
    FaithfulRun(c, run, |run|);
    var s := WorldAt(EMPTY, run, |run|);
    if id in s.acked && Safe(s, id) {
      SafeIsRecoverable(s, id);
    }
  }

  lemma RowsPersistStep(c: Setup, s: World, step: Step, id: string)
    requires Enabled(c, s, step)
    ensures id in s.db ==> id in Do(s, step).db && Do(s, step).db[id] == s.db[id]
    ensures id in s.events ==> id in Do(s, step).events && Do(s, step).events[id] == s.events[id]
  {
    hide WorkerRow, ReplayRow, ReAddedFields, BuriedFields, DlqCopy, Orig;
  }

  /** A stored row is never changed again, and neither is a published event. */
  lemma {:induction false} RowsPersist(c: Setup, run: seq<Step>, m: nat, n: nat, id: string)
    requires Legal(c, EMPTY, run) && m <= n <= |run|
    ensures id in WorldAt(EMPTY, run, m).db ==>
      id in WorldAt(EMPTY, run, n).db && WorldAt(EMPTY, run, n).db[id] == WorldAt(EMPTY, run, m).db[id]
    ensures id in WorldAt(EMPTY, run, m).events ==>
      id in WorldAt(EMPTY, run, n).events && WorldAt(EMPTY, run, n).events[id] == WorldAt(EMPTY, run, m).events[id]
    decreases n
  {
    hide *;
    if m < n {
      RowsPersist(c, run, m, n - 1, id);
      RunStep(c, run, n - 1);
      RowsPersistStep(c, WorldAt(EMPTY, run, n - 1), run[n - 1], id);
    }
  }

  /**
   Exactly-once effect. Whichever programs inserted it, after whatever retries, reclaims and
   re-adds, the row of a clean event shows that event's type, time and payload.
   */
  lemma StoredOnceFaithfully(c: Setup, run: seq<Step>, id: string)
    requires Legal(c, EMPTY, run) && id in WorldAt(EMPTY, run, |run|).db
    ensures var s := WorldAt(EMPTY, run, |run|);
      id in s.events && FaithfulRow(s.events, id, s.db[id])
      && (Clean(s.events[id]) ==> CoreOf(s.db[id]) == CoreOf(WorkerRow(s.events[id])))
  {
    hide Legal, WorldAt;
    FaithfulRun(c, run, |run|);
    var s := WorldAt(EMPTY, run, |run|);
    assert FaithfulRow(s.events, id, s.db[id]);
    if Clean(s.events[id]) {
      CleanLookupsAgree(s.events[id]);
    }
  }

  // ---- exactly which environments are safe ---------------------------------------------

  datatype Environment = Environment(insertsFail: bool, addsVanish: bool, addsThrow: bool)

  predicate Within(env: Environment, step: Step) {
    step.Work? ==>
      && (step.op.Reject? ==> env.insertsFail)
      && (step.op.DlqAdd? && step.op.reply == No && !step.op.stored ==> env.addsVanish)
      && (step.op.DlqAdd? && step.op.reply == Threw ==> env.addsThrow)
  }

  predicate LegalWithin(c: Setup, env: Environment, run: seq<Step>) {
    Legal(c, EMPTY, run) && forall i :: 0 <= i < |run| ==> Within(env, run[i])
  }

  ghost predicate KeepsAll(s: World) {
    forall id :: id in s.events && id in s.acked ==> Recoverable(s, id) || id in s.deleted
  }

  ghost predicate NeverLoses(c: Setup, env: Environment) {
    forall run :: LegalWithin(c, env, run) ==> KeepsAll(WorldAt(EMPTY, run, |run|))
  }

  predicate AtRisk(c: Setup, env: Environment) {
    && env.insertsFail
    && ((c.worker.UsesDlq() && env.addsVanish)
        || (c.worker.ackOnError && (c.worker.UsesDlq() ==> env.addsThrow)))
  }

  ghost predicate Unfailed(s: World, env: Environment) {
    forall w :: w in s.workers ==>
      && (s.workers[w].failed != {} ==> env.insertsFail)
      && (s.workers[w].threw != {} ==> env.addsThrow)
  }

  lemma UnfailedStep(c: Setup, env: Environment, s: World, step: Step)
    requires Unfailed(s, env) && Enabled(c, s, step) && Within(env, step)
    ensures Unfailed(Do(s, step), env)
    ensures !AtRisk(c, env) ==> GivesUp(step) == {}
  {
    hide WorkerRow, ReplayRow, ReAddedFields, BuriedFields, DlqCopy, Orig;
  }

  lemma UnfailedInitially(run: seq<Step>, env: Environment)
    ensures Unfailed(WorldAt(EMPTY, run, 0), env) && GivenUp(run, 0) == {}
  {
    assert WorldAt(EMPTY, run, 0) == EMPTY;
  }

  lemma {:induction false} NothingGivenUp(c: Setup, env: Environment, run: seq<Step>, n: nat)
    requires LegalWithin(c, env, run) && n <= |run| && !AtRisk(c, env)
    ensures Unfailed(WorldAt(EMPTY, run, n), env) && GivenUp(run, n) == {}
    decreases n
  {
    hide Legal, Within, WorldAt, GivenUp, Unfailed, AtRisk, Enabled, Do;
    if n == 0 {
      UnfailedInitially(run, env);
    } else {
      NothingGivenUp(c, env, run, n - 1);
      RunStep(c, run, n - 1);
      GivenUpStep(run, n - 1);
      UnfailedStep(c, env, WorldAt(EMPTY, run, n - 1), run[n - 1]);
    }
  }

  // ---- runs that do lose an event ---------------------------------------------------------

  const VICTIM := Entry("1-0", [("type", "session_login")])

  function LosingPrefix(): seq<Step> {
    [Produce(VICTIM.id, VICTIM.fields), Work(0, Begin, ""), Work(0, Reject(VICTIM), "")]
  }

  function FailedAdd(reply: Reply): Step {
    Work(0, DlqAdd(VICTIM, "invalid", false, reply), "")
  }

  function FinalAck(reply: Reply): Step {
    Work(0, if reply == Threw then DropAck(VICTIM.id, true, true) else Ack(VICTIM.id, true, true), "")
  }

  function LosingRun(c: Setup, env: Environment): seq<Step> {
    var reply := if env.addsVanish then No else Threw;
    if c.worker.UsesDlq() then LosingPrefix() + [FailedAdd(reply), FinalAck(reply)]
    else LosingPrefix() + [FinalAck(Threw)]
  }

  // the insert of the only event has just been rejected
  predicate Rejected(s: World) {
    && s.events == map[VICTIM.id := VICTIM.fields]
    && s.deleted == {} && s.db == map[] && s.dlq == [] && s.dead == []
    && WorkerOf(s, 0) == WorkerState(Some(map[]), {VICTIM.id}, {}, {})
  }

  // the event is acknowledged and nowhere to be found
  predicate Gone(s: World) {
    && s.events == map[VICTIM.id := VICTIM.fields] && VICTIM.id in s.acked
    && s.deleted == {} && s.db == map[] && s.dlq == [] && s.dead == []
  }

  lemma GoneIsLost(s: World)
    requires Gone(s)
    ensures !KeepsAll(s)
  {
    assert !Recoverable(s, VICTIM.id);
  }

  // up to the rejected insert every losing run is the same
  lemma LosingPrefixState(c: Setup, run: seq<Step>)
    requires LosingPrefix() <= run
    ensures Enabled(c, WorldAt(EMPTY, run, 0), run[0])
    ensures Enabled(c, WorldAt(EMPTY, run, 1), run[1])
    ensures Enabled(c, WorldAt(EMPTY, run, 2), run[2])
    ensures Rejected(WorldAt(EMPTY, run, 3))
  {
    assert run[0] == LosingPrefix()[0] && run[1] == LosingPrefix()[1] && run[2] == LosingPrefix()[2];
    var s0, s1, s2 := WorldAt(EMPTY, run, 0), WorldAt(EMPTY, run, 1), WorldAt(EMPTY, run, 2);
    assert s1 == Do(s0, run[0]) && s2 == Do(s1, run[1]) && WorldAt(EMPTY, run, 3) == Do(s2, run[2]);
  }

  // a failed add, reported or thrown, followed by the acknowledgement it leads to
  lemma FailedAddLoses(c: Setup, s: World, reply: Reply)
    requires Rejected(s) && c.worker.UsesDlq() && reply != Yes && (reply == Threw ==> c.worker.ackOnError)
    ensures var add, ack := FailedAdd(reply), FinalAck(reply);
      Enabled(c, s, add) && Enabled(c, Do(s, add), ack) && Gone(Do(Do(s, add), ack))
  {
    hide WorkerRow, DlqCopy;
    var add, ack := FailedAdd(reply), FinalAck(reply);
    var s' := Do(s, add);
    assert WorkerOf(s', 0) == Next(WorkerOf(s, 0), add.op);
    assert s'.events == s.events && s'.db == s.db && s'.dlq == s.dlq && s'.dead == s.dead && s'.deleted == s.deleted;
  }

  lemma DropLoses(c: Setup, s: World)
    requires Rejected(s) && !c.worker.UsesDlq() && c.worker.ackOnError
    ensures Enabled(c, s, FinalAck(Threw)) && Gone(Do(s, FinalAck(Threw)))
  {
  }

  lemma LosingRunLoses(c: Setup, env: Environment)
    requires AtRisk(c, env)
    ensures LegalWithin(c, env, LosingRun(c, env))
    ensures !KeepsAll(WorldAt(EMPTY, LosingRun(c, env), |LosingRun(c, env)|))
  {
    hide Do, Enabled, Gone, Rejected, KeepsAll;
    var run := LosingRun(c, env);
    assert run[0] == LosingPrefix()[0] && run[1] == LosingPrefix()[1] && run[2] == LosingPrefix()[2];
    LosingPrefixState(c, run);
    var s := WorldAt(EMPTY, run, 3);
    assert WorldAt(EMPTY, run, 4) == Do(s, run[3]);
    if c.worker.UsesDlq() {
      FailedAddLoses(c, s, if env.addsVanish then No else Threw);
      assert WorldAt(EMPTY, run, 5) == Do(Do(s, run[3]), run[4]);
    } else {
      DropLoses(c, s);
    }
    hide WorldAt;
    GoneIsLost(WorldAt(EMPTY, run, |run|));
    forall i | 0 <= i < |run|
      ensures Enabled(c, WorldAt(EMPTY, run, i), run[i])
    {
      assert i == 0 || i == 1 || i == 2 || i == 3 || i == 4;
    }
  }

  /**
   The environments in which no event is ever lost are exactly those in which no insert is
   refused, or in which neither escape exists: a dead-letter add that vanishes without an
   exception, and a drop, which needs the acknowledge-on-error setting and either no
   dead-letter stream or one whose adds can throw.
   */
  lemma NeverLosesExactly(c: Setup, env: Environment)
    ensures NeverLoses(c, env) <==> !AtRisk(c, env)
  {
    if AtRisk(c, env) {
      LosingRunLoses(c, env);
    } else {
      hide Legal, WorldAt, GivenUp, Recoverable, AtRisk;
      forall run | LegalWithin(c, env, run)
        ensures KeepsAll(WorldAt(EMPTY, run, |run|))
      {
        NothingGivenUp(c, env, run, |run|);
        var s := WorldAt(EMPTY, run, |run|);
        forall id | id in s.events && id in s.acked
          ensures Recoverable(s, id) || id in s.deleted
        {
          NoLoss(c, run, id);
        }
      }
    }
  }

  // ---- the runs are the interleavings of what the programs do --------------------------------------

  // what worker w has logged in the first n steps, since its last crash
  function WorkerLog(run: seq<Step>, n: nat, w: nat): seq<Op>
    requires n <= |run|
  {
    if n == 0 then []
    else
      var log := WorkerLog(run, n - 1, w);
      match run[n - 1]
      case Work(w', op, _) => if w' == w then log + [op] else log
      case WorkerCrash(w') => if w' == w then [] else log
      case _ => log
  }

  function ReplayLog(run: seq<Step>, n: nat, r: nat): seq<ReplayOp>
    requires n <= |run|
  {
    if n == 0 then []
    else
      var log := ReplayLog(run, n - 1, r);
      match run[n - 1]
      case Replay(r', op, _) => if r' == r then log + [op] else log
      case ReplayerCrash(r') => if r' == r then [] else log
      case _ => log
  }

  lemma AfterMore(st: WorkerState, ops: seq<Op>, op: Op)
    ensures After(st, ops + [op]) == Next(After(st, ops), op)
  {
    hide Next;
    StateOfPrefix(st, ops, ops + [op], |ops|);
  }

  // one step's effect on one worker
  lemma WorkerStepState(s: World, step: Step, w: nat)
    ensures WorkerOf(Do(s, step), w) ==
      if step.Work? && step.w == w then Next(WorkerOf(s, w), step.op)
      else if step == WorkerCrash(w) then IDLE
      else WorkerOf(s, w)
  {
    hide Next, NextReplay, WorkerRow, DlqCopy, InsertAll, ReplayRow, ReAddedFields, BuriedFields, Orig;
  }

  lemma ReplayerStepState(s: World, step: Step, r: nat)
    ensures ReplayerOf(Do(s, step), r) ==
      if step.Replay? && step.r == r then NextReplay(ReplayerOf(s, r), step.rop)
      else if step == ReplayerCrash(r) then FRESH
      else ReplayerOf(s, r)
  {
    hide Next, NextReplay, WorkerRow, DlqCopy, InsertAll, ReplayRow, ReAddedFields, BuriedFields, Orig;
  }

  lemma {:induction false} WorkerOfRun(run: seq<Step>, n: nat, w: nat)
    requires n <= |run|
    ensures WorkerOf(WorldAt(EMPTY, run, n), w) == After(IDLE, WorkerLog(run, n, w))
    decreases n
  {
    hide Next, Do, WorkerOf, StateAt;
    if n == 0 {
      NobodyYet(run, w);
    } else {
      WorkerOfRun(run, n - 1, w);
      WorkerStepState(WorldAt(EMPTY, run, n - 1), run[n - 1], w);
      if run[n - 1].Work? {
        AfterMore(IDLE, WorkerLog(run, n - 1, w), run[n - 1].op);
      }
      NothingDone();
    }
  }

  lemma NobodyYet(run: seq<Step>, w: nat)
    ensures WorkerOf(WorldAt(EMPTY, run, 0), w) == IDLE == After(IDLE, [])
    ensures ReplayerOf(WorldAt(EMPTY, run, 0), w) == FRESH == ReplayStateAt(FRESH, [], 0)
  {
  }

  lemma NothingDone()
    ensures After(IDLE, []) == IDLE && ReplayStateAt(FRESH, [], 0) == FRESH
  {
  }

  lemma {:induction false} ReplayerOfRun(run: seq<Step>, n: nat, r: nat)
    requires n <= |run|
    ensures ReplayerOf(WorldAt(EMPTY, run, n), r) == ReplayStateAt(FRESH, ReplayLog(run, n, r), |ReplayLog(run, n, r)|)
    decreases n
  {
    hide NextReplay, Do, ReplayerOf;
    if n == 0 {
      NobodyYet(run, r);
    } else {
      ReplayerOfRun(run, n - 1, r);
      ReplayerStepState(WorldAt(EMPTY, run, n - 1), run[n - 1], r);
      var log := ReplayLog(run, n - 1, r);
      if run[n - 1].Replay? {
        ReplayStateOfPrefix(FRESH, log, log + [run[n - 1].rop], |log|);
      }
    }
  }

  // the step speaks of what is really there
  predicate Genuine(s: World, step: Step) {
    match step
    case Produce(id, _) => id !in s.events
    case Delete(id) => id in s.events
    case Work(_, op, _) => Present(s, op)
    case Replay(_, op, _) => PresentCopy(s, op)
    case _ => true
  }

  // at every moment every program's log is one its discipline accepts
  ghost predicate Disciplined(c: Setup, run: seq<Step>) {
    && (forall n: nat, w: nat :: n <= |run| ==> Accepted(c.worker, IDLE, WorkerLog(run, n, w)))
    && (forall n: nat, r: nat :: n <= |run| ==> ReplayAccepted(c.replayRetryMax, FRESH, ReplayLog(run, n, r)))
  }

  ghost predicate AllGenuine(run: seq<Step>) {
    forall i :: 0 <= i < |run| ==> Genuine(WorldAt(EMPTY, run, i), run[i])
  }

  lemma StepLegal(c: Setup, run: seq<Step>, i: nat)
    requires Disciplined(c, run) && i < |run| && Genuine(WorldAt(EMPTY, run, i), run[i])
    ensures Enabled(c, WorldAt(EMPTY, run, i), run[i])
  {
    hide WorldAt, Permitted, MayReplay, Present, PresentCopy;
    match run[i]
    case Work(w, op, _) =>
      WorkerOfRun(run, i, w);
      var log, more := WorkerLog(run, i, w), WorkerLog(run, i + 1, w);
      assert more == log + [op] && Accepted(c.worker, IDLE, more);
      StateOfPrefix(IDLE, log, more, |log|);
      assert more[|log|] == op;
    case Replay(r, op, _) =>
      ReplayerOfRun(run, i, r);
      var log, more := ReplayLog(run, i, r), ReplayLog(run, i + 1, r);
      assert more == log + [op] && ReplayAccepted(c.replayRetryMax, FRESH, more);
      ReplayStateOfPrefix(FRESH, log, more, |log|);
      assert more[|log|] == op;
    case _ =>
  }

  lemma {:induction false} WorkerLogAccepted(c: Setup, run: seq<Step>, n: nat, w: nat)
    requires Legal(c, EMPTY, run) && n <= |run|
    ensures Accepted(c.worker, IDLE, WorkerLog(run, n, w))
    decreases n
  {
    hide Permitted, WorldAt, Accepted, StateAt, Present;
    if n == 0 {
      NothingAccepted(c);
    } else {
      WorkerLogAccepted(c, run, n - 1, w);
      WorkerOfRun(run, n - 1, w);
      assert Enabled(c, WorldAt(EMPTY, run, n - 1), run[n - 1]);
      if run[n - 1].Work? && run[n - 1].w == w {
        AcceptedAppend(c.worker, IDLE, WorkerLog(run, n - 1, w), run[n - 1].op);
      }
      NothingAccepted(c);
    }
  }

  lemma NothingAccepted(c: Setup)
    ensures Accepted(c.worker, IDLE, []) && ReplayAccepted(c.replayRetryMax, FRESH, [])
  {
  }

  lemma ReplayAcceptedMore(retryMax: nat, st: ReplayState, ops: seq<ReplayOp>, op: ReplayOp)
    requires ReplayAccepted(retryMax, st, ops) && MayReplay(retryMax, ReplayStateAt(st, ops, |ops|), op)
    ensures ReplayAccepted(retryMax, st, ops + [op])
  {
    hide MayReplay, NextReplay;
    var all := ops + [op];
    forall i | 0 <= i < |all| ensures MayReplay(retryMax, ReplayStateAt(st, all, i), all[i]) {
      ReplayStateOfPrefix(st, ops, all, i);
    }
  }

  lemma {:induction false} ReplayLogAccepted(c: Setup, run: seq<Step>, n: nat, r: nat)
    requires Legal(c, EMPTY, run) && n <= |run|
    ensures ReplayAccepted(c.replayRetryMax, FRESH, ReplayLog(run, n, r))
    decreases n
  {
    hide MayReplay, WorldAt, ReplayAccepted, ReplayStateAt, PresentCopy;
    if n == 0 {
      NothingAccepted(c);
    } else {
      ReplayLogAccepted(c, run, n - 1, r);
      ReplayerOfRun(run, n - 1, r);
      assert Enabled(c, WorldAt(EMPTY, run, n - 1), run[n - 1]);
      if run[n - 1].Replay? && run[n - 1].r == r {
        ReplayAcceptedMore(c.replayRetryMax, FRESH, ReplayLog(run, n - 1, r), run[n - 1].rop);
      }
      NothingAccepted(c);
    }
  }

  /**
   The runs of the pipeline are exactly the interleavings, in any order and with crashes anywhere,
   of logs that the worker's and the replayer's disciplines accept, over entries that exist.
   */
  lemma RunsAreInterleavings(c: Setup, run: seq<Step>)
    ensures Legal(c, EMPTY, run) <==> Disciplined(c, run) && AllGenuine(run)
  {
    hide Accepted, ReplayAccepted, WorkerLog, ReplayLog, WorldAt, Permitted, MayReplay, Present, PresentCopy;
    if Legal(c, EMPTY, run) {
      forall n: nat, w: nat | n <= |run| ensures Accepted(c.worker, IDLE, WorkerLog(run, n, w)) {
        WorkerLogAccepted(c, run, n, w);
      }
      forall n: nat, r: nat | n <= |run| ensures ReplayAccepted(c.replayRetryMax, FRESH, ReplayLog(run, n, r)) {
        ReplayLogAccepted(c, run, n, r);
      }
    }
    if Disciplined(c, run) && AllGenuine(run) {
      hide Enabled, Genuine, Disciplined;
      forall i | 0 <= i < |run| ensures Enabled(c, WorldAt(EMPTY, run, i), run[i]) {
        StepLegal(c, run, i);
      }
    }
  }
}
