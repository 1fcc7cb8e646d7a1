/** What happens to one command over a whole run of the scheduler, restarts included. */
module ExtLifecycle {
  import opened Bounds
  import opened Wrappers
  import opened JsonText
  import opened ExtRollout
  import opened ExtStore
  import opened ExtDeployments
  import opened ExtScheduler

  // the step's store write, or the reading of the store at a start, succeeds
  predicate Reliable(e: Event) {
    match e
    case Submit(_, _, _, _, _, doc) => doc.Some?
    case Begin(_, doc) => doc.Some?
    case Finish(_, _, doc) => doc.Some?
    case Poll(_) => true
    case Restart(readable) => readable
  }

  ghost predicate ReliableRun(run: seq<Event>) {
    forall k :: 0 <= k < |run| ==> Reliable(run[k])
  }

  // a restart now would lose nothing
  predicate Synced(w: World) {
    Reread(w.doc, true) == w.mem
  }

  lemma SyncedStep(skew: nat, w: World, e: Event)
    requires ProperWorld(w) && Enabled(skew, w, e) && Reliable(e) && Synced(w)
    ensures Synced(Next(skew, w, e))
  {
    hide ReadStore, SavedAs, Exclusive, TidyStore, Started, Finished, NewRecord, Accepts;
    NextMemProper(skew, w, e);
    if Changes(w, e) {
      LoadSavedExactly(e.doc.value, NextMem(skew, w, e));
    }
  }

  lemma {:induction false} SyncedRun(skew: nat, run: seq<Event>, ws: seq<World>, n: nat)
    requires Run(skew, run, ws) && ReliableRun(run) && n <= |run|
    ensures Synced(ws[n])
    decreases n
  {
    hide Enabled, Next, ProperWorld, Reliable;
    if n > 0 {
      SyncedRun(skew, run, ws, n - 1);
      ProperRun(skew, run, ws, n - 1);
      SyncedStep(skew, ws[n - 1], run[n - 1]);
    }
  }

  // how far a command has come: unknown, waiting, executing, ended
  function Progress(m: Store, id: string): nat {
    if id !in m then 0 else if Waiting(m[id]) then 1 else if m[id].status == EXECUTING then 2 else 3
  }

  // the command has not fallen back, and if it had ended its record is the same
  predicate Kept(m: Store, m': Store, id: string) {
    && Progress(m', id) >= Progress(m, id)
    && (Progress(m, id) == 3 ==> id in m' && m'[id] == m[id])
  }

  lemma ProgressStep(skew: nat, w: World, e: Event, id: string)
    requires PollSteady(w) && Enabled(skew, w, e) && !e.Restart?
    ensures Kept(w.mem, Next(skew, w, e).mem, id)
    ensures Starts(skew, w, e, id) ==> Progress(w.mem, id) == 1 && Progress(Next(skew, w, e).mem, id) == 2
    ensures e.Submit? && e.cmd.id == id && Accepts(w.mem, e) ==>
      Progress(w.mem, id) == 0 && Progress(Next(skew, w, e).mem, id) == 1
  {
    hide ReadStore, SavedAs, Passes, TidyCommand, TidyArtifact, TooLate;
  }

  // a restart that finds everything leaves everything
  lemma SyncedRestart(skew: nat, w: World, e: Event)
    requires Synced(w) && e == Restart(true)
    ensures Next(skew, w, e).mem == w.mem
  {
    hide ReadStore;
  }

  lemma KeptSame(m: Store, id: string)
    ensures Kept(m, m, id)
  {
  }

  lemma KeptTransitive(m: Store, m': Store, m'': Store, id: string)
    requires Kept(m, m', id) && Kept(m', m'', id)
    ensures Kept(m, m'', id)
  {
  }

  lemma KeptStep(skew: nat, run: seq<Event>, ws: seq<World>, n: nat, id: string)
    requires Run(skew, run, ws) && n < |run| && !run[n].Restart?
    ensures Kept(ws[n].mem, ws[n + 1].mem, id)
  {
    hide Enabled, Next, PollSteady, Proper, Kept, Starts, Accepts;
    ProperRun(skew, run, ws, n);
    ProgressStep(skew, ws[n], run[n], id);
  }

  /** With working storage a command only ever moves forward, and once ended its record never changes. */
  lemma {:induction false} ProgressRun(skew: nat, run: seq<Event>, ws: seq<World>, m: nat, n: nat, id: string)
    requires Run(skew, run, ws) && ReliableRun(run) && m <= n <= |run|
    ensures Kept(ws[m].mem, ws[n].mem, id)
    decreases n
  {
    hide Enabled, Next, Synced, Kept;
    if m == n {
      KeptSame(ws[m].mem, id);
    } else {
      ProgressRun(skew, run, ws, m, n - 1, id);
      if run[n - 1].Restart? {
        assert Reliable(run[n - 1]);
        SyncedRun(skew, run, ws, n - 1);
        SyncedRestart(skew, ws[n - 1], run[n - 1]);
      } else {
        KeptStep(skew, run, ws, n - 1, id);
        KeptTransitive(ws[m].mem, ws[n - 1].mem, ws[n].mem, id);
      }
    }
  }

  /** With working storage no command starts executing twice, restarts or not. */
  lemma StartsOnce(skew: nat, run: seq<Event>, ws: seq<World>, j: nat, k: nat, id: string)
    requires Run(skew, run, ws) && ReliableRun(run) && j < k < |run|
    requires Starts(skew, ws[j], run[j], id)
    ensures !Starts(skew, ws[k], run[k], id)
  {
    StartMarks(skew, run, ws, j, id);
    StartMarks(skew, run, ws, k, id);
    hide Enabled, Next, Reliable, Starts, Progress;
    ProgressRun(skew, run, ws, j + 1, k, id);
  }

  lemma StartMarks(skew: nat, run: seq<Event>, ws: seq<World>, k: nat, id: string)
    requires Run(skew, run, ws) && k < |run|
    ensures Starts(skew, ws[k], run[k], id) ==> Progress(ws[k].mem, id) == 1 && Progress(ws[k + 1].mem, id) == 2
    ensures run[k].Submit? && run[k].cmd.id == id && Accepts(ws[k].mem, run[k]) ==>
      Progress(ws[k].mem, id) == 0 && Progress(ws[k + 1].mem, id) == 1
  {
    hide Enabled, Next, PollSteady, Proper, Progress, Accepts;
    ProperRun(skew, run, ws, k);
    if !run[k].Restart? {
      ProgressStep(skew, ws[k], run[k], id);
    }
  }

  /** With working storage a command id is accepted at most once. */
  lemma IdsNotReused(skew: nat, run: seq<Event>, ws: seq<World>, j: nat, k: nat)
    requires Run(skew, run, ws) && ReliableRun(run) && j < k < |run|
    requires run[j].Submit? && run[k].Submit? && run[j].cmd.id == run[k].cmd.id && Accepts(ws[j].mem, run[j])
    ensures !Accepts(ws[k].mem, run[k])
  {
    StartMarks(skew, run, ws, j, run[j].cmd.id);
    StartMarks(skew, run, ws, k, run[j].cmd.id);
    hide Enabled, Next, Reliable, Accepts, Progress;
    ProgressRun(skew, run, ws, j + 1, k, run[j].cmd.id);
  }

  /**
   A command the poll thread takes up starts exactly if it still waits and the poll's clock lies
   in its window, and otherwise fails; a window that would pass the end of the 64-bit clock is
   never open.
   */
  lemma StartsInWindow(skew: nat, w: World, e: Event)
    requires skew < TWO_POW_64 && PollSteady(w) && e.Begin? && e.id in w.due
    ensures var d := w.mem[e.id];
      Starts(skew, w, e, e.id) <==>
      Waiting(d) && (d.runAt.Some? ==>
        d.runAt.value <= w.pollNow <= d.runAt.value + skew && d.runAt.value + skew < TWO_POW_64)
    ensures Waiting(w.mem[e.id]) ==>
      Next(skew, w, e).mem[e.id].status == if Starts(skew, w, e, e.id) then EXECUTING else FAILED
  {
    var d := w.mem[e.id];
    if d.runAt.Some? {
      WrappedSum(d.runAt.value, skew);
    }
  }

  lemma WrappedSum(a: nat, b: nat)
    requires b < TWO_POW_64
    ensures var r := (a + b) % TWO_POW_64;
      if a + b < TWO_POW_64 then r == a + b else r < a
  {
    if a < TWO_POW_64 <= a + b {
      assert (a + b) % TWO_POW_64 == a + b - TWO_POW_64;
    }
  }

  // ---- whatever the storage does -----------------------------------------------------------------

  // the step leaves the current deployments in the store file
  predicate Writes(w: World, e: Event) {
    Changes(w, e) && e.doc.Some?
  }

  // event r is a start that finds nothing written since event `from`, or cannot read the file
  ghost predicate Loses(run: seq<Event>, ws: seq<World>, from: nat, r: nat) {
    && |ws| == |run| + 1 && r < |run| && run[r].Restart?
    && (!run[r].readable || forall i :: from <= i < r ==> !Writes(ws[i], run[i]))
  }

  // the file holds what the last successful write wrote
  lemma {:induction false} LastWrite(skew: nat, run: seq<Event>, ws: seq<World>, n: nat) returns (i: int)
    requires Run(skew, run, ws) && n <= |run|
    ensures -1 <= i < n && forall k :: i < k < n ==> !Writes(ws[k], run[k])
    ensures i == -1 ==> ReadStore(ws[n].doc) == None
    ensures i >= 0 ==> ReadStore(ws[n].doc) == Some(ws[i + 1].mem) && Writes(ws[i], run[i])
    decreases n
  {
    hide ReadStore, SavedAs, NextMem, Changes, Exclusive, TidyStore, PollSteady;
    if n == 0 {
      i := -1;
      assert ReadStore(None) == None by { NoDocument(); }
    } else {
      var w, e := ws[n - 1], run[n - 1];
      if Writes(w, e) {
        i := n - 1;
        ProperRun(skew, run, ws, n);
        WrittenIsRead(skew, w, e);
      } else {
        i := LastWrite(skew, run, ws, n - 1);
        KeepsDocument(skew, w, e);
      }
    }
  }

  lemma NoDocument()
    ensures ReadStore(None) == None
  {
  }

  lemma WrittenIsRead(skew: nat, w: World, e: Event)
    requires Enabled(skew, w, e) && Writes(w, e) && TidyStore(Next(skew, w, e).mem)
    ensures ReadStore(Next(skew, w, e).doc) == Some(Next(skew, w, e).mem)
  {
    hide ReadStore, SavedAs, NextMem, TidyStore, Accepts, Waiting;
    LoadSavedExactly(e.doc.value, NextMem(skew, w, e));
  }

  lemma KeepsDocument(skew: nat, w: World, e: Event)
    requires !Writes(w, e)
    ensures Next(skew, w, e).doc == w.doc
  {
    hide NextMem, Accepts, Waiting;
  }

  // what a restart that reads the file finds
  lemma RestartFinds(skew: nat, run: seq<Event>, ws: seq<World>, r: nat) returns (i: int)
    requires Run(skew, run, ws) && r < |run| && run[r].Restart?
    ensures !run[r].readable ==> ws[r + 1].mem == map[]
    ensures run[r].readable ==> -1 <= i < r && (forall k :: i < k < r ==> !Writes(ws[k], run[k]))
    ensures run[r].readable && i == -1 ==> ws[r + 1].mem == map[]
    ensures run[r].readable && i >= 0 ==> ws[r + 1].mem == ws[i + 1].mem && Writes(ws[i], run[i])
  {
    hide ReadStore, Changes, Enabled;
    i := LastWrite(skew, run, ws, r);
  }

  // a start that loses nothing written since `from` finds a state from after it
  lemma RestartKeeps(skew: nat, run: seq<Event>, ws: seq<World>, from: nat, r: nat) returns (q: nat)
    requires Run(skew, run, ws) && from < r < |run| && run[r].Restart? && !Loses(run, ws, from, r)
    ensures from < q <= r && ws[r + 1].mem == ws[q].mem
  {
    hide Enabled, Next, Writes;
    var i := RestartFinds(skew, run, ws, r);
    q := i + 1;
  }

  /** As long as no start loses what was written since, nothing that has been reached falls back. */
  lemma {:induction false} KeptUnlessLost(skew: nat, run: seq<Event>, ws: seq<World>, from: nat, n: nat, id: string)
    requires Run(skew, run, ws) && from < n <= |run| && forall r :: from < r < n ==> !Loses(run, ws, from, r)
    ensures Kept(ws[from + 1].mem, ws[n].mem, id)
    decreases n
  {
    var m := ws[from + 1].mem;
    assert |ws| == |run| + 1;
    hide *;
    if from + 1 == n {
      KeptSame(m, id);
    } else if run[n - 1].Restart? {
      var q := RestartKeeps(skew, run, ws, from, n - 1);
      KeptUnlessLost(skew, run, ws, from, q, id);
    } else {
      KeptUnlessLost(skew, run, ws, from, n - 1, id);
      KeptStep(skew, run, ws, n - 1, id);
      KeptTransitive(m, ws[n - 1].mem, ws[n].mem, id);
    }
  }

  // event a is the first to bring the command that far: 1 accepted, 2 started, 3 ended
  ghost predicate FirstReach(ws: seq<World>, p: nat, a: nat, id: string) {
    && a + 1 < |ws| && Progress(ws[a + 1].mem, id) >= p
    && forall k :: 0 <= k <= a ==> Progress(ws[k].mem, id) < p
  }

  lemma LostFallsBack(skew: nat, run: seq<Event>, ws: seq<World>, p: nat, a: nat, r: nat, id: string)
    requires Run(skew, run, ws) && FirstReach(ws, p, a, id) && a < r && Loses(run, ws, a, r)
    ensures Progress(ws[r + 1].mem, id) < p
  {
    hide Enabled, Next, Writes;
    assert Progress(ws[0].mem, id) < p;
    var i := RestartFinds(skew, run, ws, r);
    if run[r].readable && i >= 0 {
      assert i + 1 <= a;
    }
  }

  /**
   In any run, with any failures of the storage: once first accepted, started or ended, a command
   stays so exactly if no start since then loses it, that is, finds the file unreadable or nothing
   written since.
   */
  lemma StaysExactly(skew: nat, run: seq<Event>, ws: seq<World>, p: nat, a: nat, n: nat, id: string)
    requires Run(skew, run, ws) && FirstReach(ws, p, a, id) && a < n <= |run|
    ensures (forall q :: a < q <= n ==> Progress(ws[q].mem, id) >= p)
       <==> (forall r :: a < r < n ==> !Loses(run, ws, a, r))
  {
    assert |ws| == |run| + 1;
    hide Enabled, Next, Progress, Loses, Run;
    if forall r :: a < r < n ==> !Loses(run, ws, a, r) {
      forall q | a < q <= n ensures Progress(ws[q].mem, id) >= p {
        KeptUnlessLost(skew, run, ws, a, q, id);
      }
    } else {
      var r :| a < r < n && Loses(run, ws, a, r);
      LostFallsBack(skew, run, ws, p, a, r, id);
    }
  }

  /** A second start of a command, or a second acceptance of its id, has a start that lost it in between. */
  lemma AgainNeedsLoss(skew: nat, run: seq<Event>, ws: seq<World>, j: nat, k: nat, id: string) returns (r: nat)
    requires Run(skew, run, ws) && j < k < |run|
    requires (Starts(skew, ws[j], run[j], id) && Starts(skew, ws[k], run[k], id))
      || (run[j].Submit? && run[k].Submit? && run[j].cmd.id == run[k].cmd.id == id
          && Accepts(ws[j].mem, run[j]) && Accepts(ws[k].mem, run[k]))
    ensures j < r < k && Loses(run, ws, j, r)
  {
    StartMarks(skew, run, ws, j, id);
    StartMarks(skew, run, ws, k, id);
    hide Enabled, Next, Progress, Starts, Accepts, Loses;
    if forall r :: j < r < k ==> !Loses(run, ws, j, r) {
      KeptUnlessLost(skew, run, ws, j, k, id);
    }
    r :| j < r < k && Loses(run, ws, j, r);
  }

  /** A command that ended in event a and later shows another record, or none, was lost by a start in between. */
  lemma EndUndoneNeedsLoss(skew: nat, run: seq<Event>, ws: seq<World>, a: nat, n: nat, id: string) returns (r: nat)
    requires Run(skew, run, ws) && a < n <= |run| && Progress(ws[a + 1].mem, id) == 3
    requires id !in ws[n].mem || ws[n].mem[id] != ws[a + 1].mem[id]
    ensures a < r < n && Loses(run, ws, a, r)
  {
    hide Enabled, Next, Loses;
    if forall r :: a < r < n ==> !Loses(run, ws, a, r) {
      KeptUnlessLost(skew, run, ws, a, n, id);
    }
    r :| a < r < n && Loses(run, ws, a, r);
  }

  // ---- runs that do lose something ---------------------------------------------------------------

  const COMMAND := Command("c", "a", Selection(false, [], [], [], [], [], []), false, Some(0), DEFAULT_ROLLOUT)
  const ARTIFACT := Artifact("lua_script", ["on_login"], "mutate", 0, "g", [], [])
  const RECORD := NewRecord(COMMAND, ARTIFACT, "", 1, 0)
  const DOCUMENT := Obj(map[Deployments := Arr(Written(map["c" := RECORD], ["c"]))])

  lemma SampleIsTidy()
    ensures TidyCommand(COMMAND) && TidyArtifact(ARTIFACT) && Passes(map[], COMMAND, Some(ARTIFACT), 1)
    ensures TidyStore(map["c" := RECORD])
  {
    NewRecordTidy(COMMAND, ARTIFACT, "", 1, 0);
  }

  lemma SampleIsSaved()
    ensures SavedAs(DOCUMENT, map["c" := RECORD])
  {
    hide Encode;
    var m := map["c" := RECORD];
    assert m.Keys == {"c"};
    assert Enumerates(["c"], m);
  }

  function RepeatingRun(): seq<Event> {
    [Submit(COMMAND, Some(ARTIFACT), 1, "", 0, Some(DOCUMENT)), Poll(0), Begin("c", None),
     Restart(true), Poll(0), Begin("c", None)]
  }

  function RepeatingWorld(i: nat): World {
    if i == 0 then FIRST_START
    else if i == 1 || i == 4 then World(map["c" := RECORD], Some(DOCUMENT), {}, 0, None)
    else if i == 2 || i == 5 then World(map["c" := RECORD], Some(DOCUMENT), {"c"}, 0, None)
    else World(map["c" := RECORD.(status := EXECUTING)], Some(DOCUMENT), {}, 0, Some("c"))
  }

  // the command is submitted and stored
  lemma RepeatingSubmit(skew: nat)
    ensures Enabled(skew, RepeatingWorld(0), RepeatingRun()[0])
    ensures Next(skew, RepeatingWorld(0), RepeatingRun()[0]) == RepeatingWorld(1)
  {
    hide SavedAs, TidyCommand, TidyArtifact, Passes, Encode, Written;
    SampleIsTidy();
    SampleIsSaved();
  }

  // a poll finds it due, and it starts without being stored
  lemma RepeatingStart(skew: nat, i: nat)
    requires i == 1 || i == 2 || i == 4 || i == 5
    ensures Enabled(skew, RepeatingWorld(i), RepeatingRun()[i])
    ensures Next(skew, RepeatingWorld(i), RepeatingRun()[i]) == RepeatingWorld(i + 1)
    ensures i == 2 || i == 5 ==> Starts(skew, RepeatingWorld(i), RepeatingRun()[i], "c")
  {
    hide SavedAs, Encode, Written, Accepts;
    if i == 1 || i == 4 {
      assert DueIds(map["c" := RECORD], 0) == {"c"};
    }
  }

  // the restart reads the file
  lemma RepeatingRestart(skew: nat)
    ensures Enabled(skew, RepeatingWorld(3), RepeatingRun()[3])
    ensures Next(skew, RepeatingWorld(3), RepeatingRun()[3]) == RepeatingWorld(4)
  {
    hide ReadStore, SavedAs, Encode, Written;
    SampleIsTidy();
    SampleIsSaved();
    LoadSavedExactly(DOCUMENT, map["c" := RECORD]);
  }

  /** A command is stored, its start is not, and the restarted scheduler starts it again. */
  lemma LostWriteStartsTwice(skew: nat) returns (run: seq<Event>, ws: seq<World>)
    ensures Run(skew, run, ws) && |run| == 6 && Loses(run, ws, 2, 3)
    ensures Starts(skew, ws[2], run[2], "c") && Starts(skew, ws[5], run[5], "c")
  {
    hide Next, Enabled, Starts, Changes;
    run, ws := RepeatingRun(), seq(7, i requires 0 <= i => RepeatingWorld(i));
    forall i | 0 <= i < 6 ensures Enabled(skew, ws[i], run[i]) && ws[i + 1] == Next(skew, ws[i], run[i]) {
      if i == 0 {
        RepeatingSubmit(skew);
      } else if i == 3 {
        RepeatingRestart(skew);
      } else {
        RepeatingStart(skew, i);
      }
    }
    RepeatingStart(skew, 2);
    RepeatingStart(skew, 5);
  }

  function ForgettingRun(): seq<Event> {
    [Submit(COMMAND, Some(ARTIFACT), 1, "", 0, None), Poll(0), Begin("c", None), Finish(Done(1, 1), 0, None),
     Restart(false), Submit(COMMAND, Some(ARTIFACT), 1, "", 0, None)]
  }

  function ForgettingWorld(i: nat): World {
    if i == 1 || i == 6 then World(map["c" := RECORD], None, {}, 0, None)
    else if i == 2 then World(map["c" := RECORD], None, {"c"}, 0, None)
    else if i == 3 then World(map["c" := RECORD.(status := EXECUTING)], None, {}, 0, Some("c"))
    else if i == 4 then World(map["c" := Finished(RECORD.(status := EXECUTING), Done(1, 1), 0)], None, {}, 0, None)
    else FIRST_START
  }

  lemma ForgettingStep(skew: nat, i: nat)
    requires i < 6
    ensures Enabled(skew, ForgettingWorld(i), ForgettingRun()[i])
    ensures Next(skew, ForgettingWorld(i), ForgettingRun()[i]) == ForgettingWorld(i + 1)
  {
    hide ReadStore, SavedAs, TidyCommand, TidyArtifact, Passes;
    SampleIsTidy();
    if i == 1 {
      assert DueIds(map["c" := RECORD], 0) == {"c"};
    }
  }

  /** A completed command is forgotten by a start that cannot read the file, and its id is accepted again. */
  lemma UnreadableFileForgets(skew: nat) returns (run: seq<Event>, ws: seq<World>)
    ensures Run(skew, run, ws) && |run| == 6 && run[0] == run[5] && run[5].Submit?
    ensures Progress(ws[4].mem, run[0].cmd.id) == 3 && ws[5].mem == map[]
    ensures Accepts(ws[0].mem, run[0]) && Accepts(ws[5].mem, run[5])
  {
    hide Next, Enabled, Passes;
    SampleIsTidy();
    run, ws := ForgettingRun(), seq(7, i requires 0 <= i => ForgettingWorld(i));
    forall i | 0 <= i < 6 ensures Enabled(skew, ws[i], run[i]) && ws[i + 1] == Next(skew, ws[i], run[i]) {
      ForgettingStep(skew, i);
    }
  }
}
