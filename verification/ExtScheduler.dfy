/**
 The deployment scheduler as a state machine: submissions over HTTP, a single poll thread that
 executes what is due, a store file written after every change and read at start. One step
 per critical section, so submissions interleave freely with an execution; a restart may
 happen anywhere and forgets everything that is not in the file.
 */
module ExtScheduler {
  import opened Bounds
  import opened Wrappers
  import opened JsonText
  import opened ExtRollout
  import opened ExtStore
  import opened ExtDeployments

  // ---- one record's life -------------------------------------------------------------------------

  function NewRecord(cmd: Command, a: Artifact, actor: string, targets: nat, now: nat): Record {
    Record(cmd.id, cmd.artifactId, actor, PENDING, "", cmd.selection, cmd.selectionSpecified, cmd.runAt, cmd.rollout,
           a.kind, a.hookScope, a.stage, a.priority, a.exclusiveGroup, targets, 0, [], now, now)
  }

  predicate Waiting(d: Record) {
    d.status == PENDING || d.status == PRECHECK_PASSED
  }

  predicate Due(d: Record, now: nat) {
    Waiting(d) && (d.runAt.None? || d.runAt.value <= now)
  }

  // 64-bit addition wraps
  predicate TooLate(skew: nat, d: Record, now: nat) {
    d.runAt.Some? && now > (d.runAt.value + skew) % TWO_POW_64
  }

  const CLOCK_SKEW := Issue("clock_skew", "run_at_utc exceeded max_clock_skew_ms")
  const TARGET_EMPTY := Issue("target_empty", "selector does not match any live server instance")

  function FailedWith(d: Record, issue: Issue, now: nat): Record {
    d.(status := FAILED, statusReason := issue.code, updatedAt := now, issues := d.issues + [issue])
  }

  function Started(skew: nat, d: Record, now: nat): Record {
    if TooLate(skew, d, now) then FailedWith(d, CLOCK_SKEW, now) else d.(status := EXECUTING, updatedAt := now)
  }

  datatype Outcome =
    | NoTargets
    | Stopped(total: nat, applied: nat, issue: Issue)
    | Done(total: nat, applied: nat)

  function Finished(d: Record, outcome: Outcome, now: nat): Record {
    match outcome
    case NoTargets => FailedWith(d, TARGET_EMPTY, now)
    case Stopped(total, applied, issue) => FailedWith(d, issue, now).(targetCount := total, appliedTargets := applied)
    case Done(total, applied) =>
      d.(status := COMPLETED, statusReason := "", updatedAt := now, targetCount := total, appliedTargets := applied)
  }

  // ---- the machine -------------------------------------------------------------------------------

  datatype World = World(
    mem: Store,                   // deployments in memory
    doc: Option<Json>,            // the store file
    due: set<string>,             // commands the current poll still has to execute
    pollNow: nat,                 // the clock reading of that poll
    running: Option<string>)      // the command the poll thread is executing

  const FIRST_START := World(map[], None, {}, 0, None)

  // `doc` is the document the step writes, or None if writing fails
  datatype Event =
    | Submit(cmd: Command, artifact: Option<Artifact>, targets: nat, actor: string, now: nat, doc: Option<Json>)
    | Poll(now: nat)
    | Begin(id: string, doc: Option<Json>)
    | Finish(outcome: Outcome, now: nat, doc: Option<Json>)
    | Restart(readable: bool)

  predicate Accepts(m: Store, e: Event)
    requires e.Submit?
  {
    e.cmd.id !in m && Passes(m, e.cmd, e.artifact, e.targets)
  }

  function DueIds(m: Store, now: nat): set<string> {
    set id | id in m && Due(m[id], now)
  }

  function Reread(doc: Option<Json>, readable: bool): Store {
    if readable && ReadStore(doc).Some? then ReadStore(doc).value else map[]
  }

  // the step changes a deployment, and so writes the store
  predicate Changes(w: World, e: Event) {
    match e
    case Submit(_, _, _, _, _, _) => Accepts(w.mem, e)
    case Begin(id, _) => id in w.mem && Waiting(w.mem[id])
    case Finish(_, _, _) => w.running.Some? && w.running.value in w.mem
    case _ => false
  }

  // the deployments in memory after the step
  function NextMem(skew: nat, w: World, e: Event): Store {
    if e.Restart? then Reread(w.doc, e.readable)
    else if !Changes(w, e) then w.mem
    else
      match e
      case Submit(cmd, artifact, targets, actor, now, _) =>
        w.mem[cmd.id := NewRecord(cmd, artifact.value, actor, targets, now)]
      case Begin(id, _) => w.mem[id := Started(skew, w.mem[id], w.pollNow)]
      case Finish(outcome, now, _) => w.mem[w.running.value := Finished(w.mem[w.running.value], outcome, now)]
  }

  function NextDoc(w: World, e: Event): Option<Json> {
    if Changes(w, e) && e.doc.Some? then e.doc else w.doc
  }

  // the command starts executing in this step
  predicate Starts(skew: nat, w: World, e: Event, id: string) {
    e.Begin? && e.id == id && Changes(w, e) && !TooLate(skew, w.mem[id], w.pollNow)
  }

  function Next(skew: nat, w: World, e: Event): World {
    var m, doc := NextMem(skew, w, e), NextDoc(w, e);
    match e
    case Submit(_, _, _, _, _, _) => w.(mem := m, doc := doc)
    case Poll(now) => w.(due := DueIds(m, now), pollNow := now)
    case Begin(id, _) =>
      World(m, doc, w.due - {id}, w.pollNow, if Starts(skew, w, e, id) then Some(id) else None)
    case Finish(_, _, _) => w.(mem := m, doc := doc, running := None)
    case Restart(_) => World(m, w.doc, {}, 0, None)
  }

  // commands and artifacts as the request and manifest parsers leave them
  predicate TidyCommand(cmd: Command) {
    cmd.id != "" && Trimmed(cmd.id) && Trimmed(cmd.artifactId) && TidySelection(cmd.selection) && GoodRollout(cmd.rollout)
  }

  predicate TidyArtifact(a: Artifact) {
    Trimmed(a.kind) && Tidy(a.hookScope) && Trimmed(a.stage) && Trimmed(a.exclusiveGroup) && a.priority < TWO_POW_32
  }

  ghost predicate Enabled(skew: nat, w: World, e: Event) {
    && (match e
        case Submit(cmd, artifact, _, actor, _, _) =>
          TidyCommand(cmd) && (artifact.Some? ==> TidyArtifact(artifact.value)) && Trimmed(actor)
        case Poll(_) => w.due == {} && w.running.None?
        case Begin(id, _) => id in w.due && w.running.None?
        case Finish(outcome, _, _) =>
          w.running.Some? && (outcome.Stopped? ==> outcome.issue.code != "" && Trimmed(outcome.issue.code))
        case Restart(_) => true)
    && (Changes(w, e) && e.doc.Some? ==> SavedAs(e.doc.value, NextMem(skew, w, e)))
  }

  ghost predicate Run(skew: nat, run: seq<Event>, ws: seq<World>) {
    && |ws| == |run| + 1 && ws[0] == FIRST_START
    && forall k :: 0 <= k < |run| ==> Enabled(skew, ws[k], run[k]) && ws[k + 1] == Next(skew, ws[k], run[k])
  }

  // ---- exclusive groups: in every run, whatever is lost ------------------------------------------

  // two deployments of different artifacts both own a hook of the same stage and group
  predicate Clash(d: Record, e: Record) {
    && Live(d) && Live(e) && d.artifactId != e.artifactId
    && d.stage == e.stage && d.exclusiveGroup == e.exclusiveGroup && Overlap(d.hookScope, e.hookScope)
  }

  ghost predicate Exclusive(m: Store) {
    forall i, j :: i in m && j in m && i != j ==> !Clash(m[i], m[j])
  }

  predicate Sound(m: Store) {
    TidyStore(m) && forall id :: id in m ==> GoodRollout(m[id].rollout)
  }

  ghost predicate Proper(m: Store) {
    Sound(m) && Exclusive(m)
  }

  // the poll thread's list holds only what its clock says is due, and it executes one command at a time
  predicate PollSteady(w: World) {
    && (forall id :: id in w.due ==> id in w.mem && (w.mem[id].runAt.Some? ==> w.mem[id].runAt.value <= w.pollNow))
    && (w.running.Some? ==> w.running.value in w.mem && w.mem[w.running.value].status == EXECUTING)
    && (w.running.Some? ==> w.running.value !in w.due)
  }

  ghost predicate ProperWorld(w: World) {
    && Proper(w.mem) && (ReadStore(w.doc).Some? ==> Proper(ReadStore(w.doc).value))
    && PollSteady(w)
  }

  lemma OverlapSymmetric(a: seq<string>, b: seq<string>)
    ensures Overlap(a, b) <==> Overlap(b, a)
  {
    if Overlap(a, b) {
      var k :| 0 <= k < |a| && a[k] in b;
      var j :| 0 <= j < |b| && b[j] == a[k];
      assert b[j] in a;
    }
    if Overlap(b, a) {
      var k :| 0 <= k < |b| && b[k] in a;
      var j :| 0 <= j < |a| && a[j] == b[k];
      assert a[j] in b;
    }
  }

  lemma SubmitExclusive(m: Store, e: Event)
    requires Exclusive(m) && e.Submit? && Accepts(m, e)
    ensures Exclusive(m[e.cmd.id := NewRecord(e.cmd, e.artifact.value, e.actor, e.targets, e.now)])
  {
    hide FitToDeploy, Overlap;
    var d := NewRecord(e.cmd, e.artifact.value, e.actor, e.targets, e.now);
    forall id | id in m ensures !Clash(d, m[id]) && !Clash(m[id], d) {
      assert !Conflicts(m[id], e.cmd.artifactId, e.artifact.value);
      OverlapSymmetric(d.hookScope, m[id].hookScope);
    }
  }

  // changing a record without making it live again, nor what it claims, clashes with nothing new
  lemma ChangeExclusive(m: Store, id: string, d: Record)
    requires Exclusive(m) && id in m && (Live(d) ==> Live(m[id]))
    requires d.artifactId == m[id].artifactId && d.stage == m[id].stage
    requires d.exclusiveGroup == m[id].exclusiveGroup && d.hookScope == m[id].hookScope
    ensures Exclusive(m[id := d])
  {
    hide Overlap, Live;
    forall j | j in m && j != id ensures !Clash(d, m[j]) && !Clash(m[j], d) {
      assert !Clash(m[id], m[j]) && !Clash(m[j], m[id]);
    }
  }

  lemma NewRecordTidy(cmd: Command, a: Artifact, actor: string, targets: nat, now: nat)
    requires TidyCommand(cmd) && TidyArtifact(a) && Trimmed(actor)
    ensures TidyRecord(NewRecord(cmd, a, actor, targets, now))
  {
    hide TidySelection, Tidy;
    assert TidyRollout(cmd.rollout);
  }

  lemma StartedTidy(skew: nat, d: Record, now: nat)
    requires TidyRecord(d)
    ensures TidyRecord(Started(skew, d, now)) && Started(skew, d, now).rollout == d.rollout
  {
    hide TidySelection, Tidy, TidyRollout, TooLate;
  }

  lemma FinishedTidy(d: Record, outcome: Outcome, now: nat)
    requires TidyRecord(d) && (outcome.Stopped? ==> outcome.issue.code != "" && Trimmed(outcome.issue.code))
    ensures TidyRecord(Finished(d, outcome, now)) && Finished(d, outcome, now).rollout == d.rollout
  {
    hide TidySelection, Tidy, TidyRollout;
  }

  lemma SubmitProper(m: Store, e: Event)
    requires Proper(m) && e.Submit? && Accepts(m, e)
    requires TidyCommand(e.cmd) && TidyArtifact(e.artifact.value) && Trimmed(e.actor)
    ensures Proper(m[e.cmd.id := NewRecord(e.cmd, e.artifact.value, e.actor, e.targets, e.now)])
  {
    hide TidyRecord, Exclusive, GoodRollout, TidyArtifact, FitToDeploy, Conflicts;
    NewRecordTidy(e.cmd, e.artifact.value, e.actor, e.targets, e.now);
    SubmitExclusive(m, e);
  }

  lemma ChangeProper(m: Store, id: string, d: Record)
    requires Proper(m) && id in m && (Live(d) ==> Live(m[id])) && TidyRecord(d) && d.commandId == m[id].commandId
    requires d.artifactId == m[id].artifactId && d.stage == m[id].stage && d.rollout == m[id].rollout
    requires d.exclusiveGroup == m[id].exclusiveGroup && d.hookScope == m[id].hookScope
    ensures Proper(m[id := d])
  {
    hide TidyRecord, Exclusive, GoodRollout;
    ChangeExclusive(m, id, d);
  }

  lemma ProperEmpty()
    ensures Proper(map[])
  {
  }

  lemma NextMemProper(skew: nat, w: World, e: Event)
    requires ProperWorld(w) && Enabled(skew, w, e)
    ensures Proper(NextMem(skew, w, e))
  {
    hide TidyRecord, ReadStore, Exclusive, SavedAs, GoodRollout, TidyArtifact, TidyCommand, Conflicts, TooLate;
    ProperEmpty();
    if Changes(w, e) {
      match e
      case Submit(cmd, artifact, targets, actor, now, _) =>
        SubmitProper(w.mem, e);
      case Begin(id, _) =>
        StartedTidy(skew, w.mem[id], w.pollNow);
        ChangeProper(w.mem, id, Started(skew, w.mem[id], w.pollNow));
      case Finish(outcome, now, _) =>
        var id := w.running.value;
        FinishedTidy(w.mem[id], outcome, now);
        ChangeProper(w.mem, id, Finished(w.mem[id], outcome, now));
    }
  }

  lemma PollSteadyStep(skew: nat, w: World, e: Event)
    requires PollSteady(w) && Enabled(skew, w, e)
    ensures PollSteady(Next(skew, w, e))
  {
    hide ReadStore, SavedAs, Passes, TidyCommand, TidyArtifact;
  }

  lemma ProperStep(skew: nat, w: World, e: Event)
    requires ProperWorld(w) && Enabled(skew, w, e)
    ensures ProperWorld(Next(skew, w, e))
  {
    hide NextMem, TidyStore, Exclusive, ReadStore, SavedAs, PollSteady;
    NextMemProper(skew, w, e);
    PollSteadyStep(skew, w, e);
    if Changes(w, e) && e.doc.Some? {
      LoadSavedExactly(e.doc.value, NextMem(skew, w, e));
    }
  }

  /** In every run the stores in memory and on disk are tidy and no two live deployments clash. */
  lemma {:induction false} ProperRun(skew: nat, run: seq<Event>, ws: seq<World>, n: nat)
    requires Run(skew, run, ws) && n <= |run|
    ensures ProperWorld(ws[n])
    decreases n
  {
    hide Enabled, Next, ProperWorld;
    if n == 0 {
      ProperFirst();
    } else {
      ProperRun(skew, run, ws, n - 1);
      ProperStep(skew, ws[n - 1], run[n - 1]);
    }
  }

  lemma ProperFirst()
    ensures ProperWorld(FIRST_START)
  {
  }
}
