/**
 The admin tool's deployment operations. The object carries the run of the state machine its
 operations have made, so that whatever holds of every run holds of it. Between the critical
 sections of the poll thread other threads may submit; whether a save works is open each time.
 */
module ExtAdmin {
  import opened Bounds
  import opened Wrappers
  import opened JsonText
  import opened ExtRollout
  import opened ExtStore
  import opened ExtDeployments
  import opened ExtScheduler
  import Decimal

  // line breaks become blanks, then the ends are trimmed
  function SingleLine(s: string): string {
    Trim(seq(|s|, k requires 0 <= k < |s| => if s[k] == '\n' || s[k] == '\r' then ' ' else s[k]))
  }

  function WaveIssue(wave: nat, wasForced: bool): Issue {
    if wasForced
    then Issue("wave_forced_failure",
               "forced failure at wave " + Decimal.ToDecimal(wave + 1) + " by ADMIN_EXT_FORCE_FAIL_WAVE_INDEX")
    else Issue("wave_publish_failed", "failed to publish deployment wave " + Decimal.ToDecimal(wave + 1))
  }

  // how an execution over the resolved targets ends
  ghost predicate EndsAs(r: Rollout, ids: seq<string>, forced: nat, publishes: nat -> bool, outcome: Outcome) {
    var waves := r.waves;
    if ids == [] then outcome == NoTargets
    else if forall k: nat :: k < |waves| ==> !FailsAt(|ids|, waves, forced, publishes, k)
    then outcome == Done(|ids|, Sent(|ids|, waves, |waves|))
    else exists k: nat :: && k < |waves| && FailsAt(|ids|, waves, forced, publishes, k)
                          && (forall j: nat :: j < k ==> !FailsAt(|ids|, waves, forced, publishes, j))
                          && outcome == Stopped(|ids|, Sent(|ids|, waves, k), WaveIssue(k, forced == k + 1))
  }

  // only this record changed, and it no longer waits
  predicate AllButOne(before: Store, after: Store, id: string) {
    && after.Keys == before.Keys && (id in after ==> !Waiting(after[id]))
    && forall k :: k in after && k != id ==> after[k] == before[k]
  }

  // the record shows how the execution ended
  predicate Recorded(d: Record, outcome: Outcome, now: nat) {
    && d.status == (if outcome.Done? then COMPLETED else FAILED) && d.updatedAt == now
    && (!outcome.NoTargets? ==> d.targetCount == outcome.total && d.appliedTargets == outcome.applied)
    && (match outcome
        case NoTargets => d.statusReason == "target_empty"
        case Stopped(_, _, issue) => d.statusReason == issue.code && issue in d.issues
        case Done(_, _) => d.statusReason == "")
  }

  // what a command is and claims, which no execution changes
  predicate SameClaim(d: Record, e: Record) {
    && d.commandId == e.commandId && d.artifactId == e.artifactId && d.actor == e.actor && d.rollout == e.rollout
    && d.selection == e.selection && d.selectionSpecified == e.selectionSpecified && d.runAt == e.runAt
    && d.kind == e.kind && d.hookScope == e.hookScope && d.stage == e.stage && d.priority == e.priority
    && d.exclusiveGroup == e.exclusiveGroup && d.createdAt == e.createdAt && d.issues <= e.issues
  }

  lemma RunAppend(skew: nat, run: seq<Event>, ws: seq<World>, e: Event)
    requires Run(skew, run, ws) && Enabled(skew, ws[|run|], e)
    ensures Run(skew, run + [e], ws + [Next(skew, ws[|run|], e)])
  {
    hide Enabled, Next;
    var run', ws' := run + [e], ws + [Next(skew, ws[|run|], e)];
    forall k | 0 <= k < |run'| ensures Enabled(skew, ws'[k], run'[k]) && ws'[k + 1] == Next(skew, ws'[k], run'[k]) {
      if k < |run| {
        assert ws'[k] == ws[k] && run'[k] == run[k] && ws'[k + 1] == ws[k + 1];
      }
    }
  }

  // submissions add commands and touch nothing else
  predicate OnlyAdded(w: World, w': World) {
    && w'.due == w.due && w'.pollNow == w.pollNow && w'.running == w.running
    && forall id :: id in w.mem ==> id in w'.mem && w'.mem[id] == w.mem[id]
  }

  lemma SubmitAdds(skew: nat, w: World, e: Event)
    requires e.Submit?
    ensures OnlyAdded(w, Next(skew, w, e))
  {
    hide Passes, NewRecord;
  }

  // the record of a command taken up: executing, or failed because it is too late
  method MarkStart(skew: nat, d: Record, now: nat) returns (started: bool, r: Record)
    ensures r == Started(skew, d, now) && (started <==> !TooLate(skew, d, now))
  {
    r := d;
    if d.runAt.Some? && now > (d.runAt.value + skew) % TWO_POW_64 {
      r := r.(status := FAILED);
      r := r.(statusReason := "clock_skew");
      r := r.(updatedAt := now);
      r := r.(issues := r.issues + [Issue("clock_skew", "run_at_utc exceeded max_clock_skew_ms")]);
      return false, r;
    }
    r := r.(status := EXECUTING);
    r := r.(updatedAt := now);
    return true, r;
  }

  // the record of a command whose execution has ended
  method MarkEnd(d: Record, outcome: Outcome, now: nat) returns (r: Record)
    ensures r == Finished(d, outcome, now) && Recorded(r, outcome, now) && SameClaim(d, r) && !Waiting(r)
  {
    r := d;
    if outcome.NoTargets? {
      r := r.(status := FAILED);
      r := r.(statusReason := "target_empty");
      r := r.(updatedAt := now);
      r := r.(issues := r.issues + [Issue("target_empty", "selector does not match any live server instance")]);
      return;
    }
    r := r.(targetCount := outcome.total);
    r := r.(appliedTargets := outcome.applied);
    r := r.(updatedAt := now);
    if outcome.Stopped? {
      r := r.(status := FAILED);
      r := r.(statusReason := outcome.issue.code);
      r := r.(issues := r.issues + [outcome.issue]);
    } else {
      r := r.(status := COMPLETED);
      r := r.(statusReason := "");
    }
  }

  class Admin {
    const skew: nat
    var deployments: Store
    var doc: Option<Json>
    ghost var run: seq<Event>
    ghost var ws: seq<World>

    ghost predicate Valid()
      reads this
    {
      Run(skew, run, ws) && Now().mem == deployments && Now().doc == doc
    }

    ghost function Now(): World
      reads this
    {
      if ws == [] then FIRST_START else ws[|ws| - 1]
    }

    constructor (skew: nat)
      ensures Valid() && this.skew == skew && run == [] && ws == [FIRST_START]
    {
      this.skew := skew;
      deployments, doc, run, ws := map[], None, [], [FIRST_START];
    }

    /** Whatever was done with it, its deployments are tidy and no two live ones clash, in memory and in the file. */
    lemma AlwaysProper()
      requires Valid()
      ensures ProperWorld(Now())
    {
      hide ProperWorld, Enabled, Next;
      ProperRun(skew, run, ws, |run|);
    }

    ghost method Advance(e: Event)
      requires Run(skew, run, ws) && Enabled(skew, Now(), e)
      modifies this`run, this`ws
      ensures Run(skew, run, ws) && run == old(run) + [e] && ws == old(ws) + [Next(skew, old(Now()), e)]
    {
      hide Enabled, Next;
      RunAppend(skew, run, ws, e);
      run, ws := run + [e], ws + [Next(skew, Now(), e)];
    }

    // write the store; the file system decides whether it works
    method Save() returns (written: Option<Json>)
      modifies this`doc
      ensures written.Some? ==> SavedAs(written.value, deployments) && doc == written
      ensures written.None? ==> doc == old(doc)
    {
      written := None;
      var works: bool := *;
      if works {
        var root := SaveStore(deployments);
        written := Some(root);
        doc := written;
      }
    }

    /** Submit a parsed command, to run at once or on its schedule. */
    method SubmitCommand(command: Command, scheduled: bool, artifact: Option<Artifact>, targets: nat, actor: string, now: nat)
      returns (accepted: bool)
      requires Valid() && TidyCommand(command) && (artifact.Some? ==> TidyArtifact(artifact.value))
      modifies this
      ensures Valid()
      ensures var cmd := if scheduled then command else command.(runAt := Some(now));
        && (accepted <==>
              && (scheduled || command.runAt.None?)
              && command.id !in old(deployments) && Passes(old(deployments), cmd, artifact, targets))
        && (accepted ==>
              && deployments == old(deployments)[cmd.id := NewRecord(cmd, artifact.value, SingleLine(actor), targets, now)]
              && |run| == |old(run)| + 1 && old(run) < run && run[|old(run)|].Submit? && run[|old(run)|].cmd == cmd)
      ensures !accepted ==> deployments == old(deployments) && doc == old(doc) && run == old(run)
      ensures OnlyAdded(old(Now()), Now())
    {
      hide SavedAs, Reread, FitToDeploy, Conflicts, TidySelection, GoodRollout, TidyArtifact, DueIds, Started, Finished, Run;
      accepted := false;
      if !scheduled && command.runAt.Some? {
        return;
      }
      var cmd := command;
      if !scheduled {
        cmd := cmd.(runAt := Some(now));
      }
      if cmd.id in deployments {
        return;
      }
      var codes, conflicting := Precheck(deployments, cmd, artifact, targets);
      if codes != [] || conflicting != {} {
        return;
      }
      accepted := true;
      SingleLineTrimmed(actor);
      hide SingleLine;
      deployments := deployments[cmd.id := NewRecord(cmd, artifact.value, SingleLine(actor), targets, now)];
      var written := Save();
      ghost var w := Now();
      Advance(Submit(cmd, artifact, targets, SingleLine(actor), now, written));
      SubmitAdds(skew, w, run[|run| - 1]);
    }

    /** The submissions other threads make meanwhile: any number, of any commands. */
    method OthersSubmit()
      requires Valid()
      modifies this
      ensures Valid() && old(run) <= run && OnlyAdded(old(Now()), Now())
      ensures forall k :: |old(run)| <= k < |run| ==> run[k].Submit?
    {
      hide Run, TidyCommand, TidyArtifact, Passes, NewRecord;
      var count: int := *;
      for i := 0 to if count < 0 then 0 else count
        invariant Valid() && old(run) <= run && OnlyAdded(old(Now()), Now())
        invariant forall k :: |old(run)| <= k < |run| ==> run[k].Submit?
      {
        var command: Command := *;
        var artifact: Option<Artifact> := *;
        var scheduled: bool, actor: string, targets: int, now: int := *, *, *, *;
        if TidyCommand(command) && (artifact.Some? ==> TidyArtifact(artifact.value)) && targets >= 0 && now >= 0 {
          var accepted := SubmitCommand(command, scheduled, artifact, targets, actor, now);
        }
      }
    }

    /** Collect the commands that are due, under one clock reading. */
    method CollectDue(now: nat) returns (due: set<string>)
      requires Valid() && Now().due == {} && Now().running.None?
      modifies this`run, this`ws
      ensures Valid() && due == DueIds(deployments, now) && run == old(run) + [Poll(now)]
      ensures Now() == old(Now()).(due := due, pollNow := now)
    {
      hide SavedAs, Reread, Accepts, Started, Finished, Run;
      due := {};
      var rest := deployments.Keys;
      while rest != {}
        invariant rest <= deployments.Keys
        invariant due == set id | id in deployments && id !in rest && Due(deployments[id], now)
        decreases |rest|
      {
        var id :| id in rest;
        rest := rest - {id};
        var d := deployments[id];
        if d.status != PENDING && d.status != PRECHECK_PASSED {
          continue;
        }
        if d.runAt.None? {
          due := due + {id};
          continue;
        }
        if now < d.runAt.value {
          continue;
        }
        due := due + {id};
      }
      Advance(Poll(now));
    }

    // the first critical section of an execution
    method BeginExecution(id: string, now: nat) returns (started: bool)
      requires Valid() && id in Now().due && Now().running.None? && Now().pollNow == now
      modifies this
      ensures Valid() && |run| == |old(run)| + 1 && old(run) < run
      ensures run[|old(run)|].Begin? && run[|old(run)|].id == id
      ensures Now() == Next(skew, old(Now()), run[|old(run)|])
      ensures started <==> Starts(skew, old(Now()), run[|old(run)|], id)
    {
      hide SavedAs, Reread, Accepts, DueIds, Started, Finished, TooLate, Run;
      started := false;
      if id !in deployments {
        Advance(Begin(id, None));
        return;
      }
      var d := deployments[id];
      if d.status != PENDING && d.status != PRECHECK_PASSED {
        Advance(Begin(id, None));
        return;
      }
      started, d := MarkStart(skew, d, now);
      deployments := deployments[id := d];
      var written := Save();
      Advance(Begin(id, written));
    }

    /** The last critical section of an execution: how it ended is recorded, and only that. */
    method FinishExecution(id: string, outcome: Outcome, now: nat)
      requires Valid() && Now().running == Some(id) && id in deployments
      requires outcome.Stopped? ==> outcome.issue.code != "" && Trimmed(outcome.issue.code)
      modifies this
      ensures Valid() && |run| == |old(run)| + 1 && old(run) < run
      ensures run[|old(run)|].Finish? && run[|old(run)|].outcome == outcome
      ensures AllButOne(old(deployments), deployments, id)
      ensures Recorded(deployments[id], outcome, now) && SameClaim(old(deployments)[id], deployments[id])
      ensures Now().due == old(Now()).due && Now().pollNow == old(Now()).pollNow && Now().running.None?
    {
      hide SavedAs, Reread, Accepts, DueIds, Started, Finished, Recorded, SameClaim, Waiting, Run;
      var d := MarkEnd(deployments[id], outcome, now);
      deployments := deployments[id := d];
      var written := Save();
      Advance(Finish(outcome, now, written));
    }

    /**
     Execute one due command: begin, publish the sorted targets wave by wave, roll back if asked
     to, finish. `ids` are the targets the selector resolves to; other threads submit meanwhile.
     */
    method Execute(id: string, now: nat, ids: seq<string>, forced: nat, publishes: nat -> bool, later: nat)
      returns (outcome: Option<Outcome>, published: seq<seq<string>>, rollback: Option<seq<string>>)
      requires Valid() && id in Now().due && Now().running.None? && Now().pollNow == now
      modifies this
      ensures Valid() && old(run) < run && run[|old(run)|].Begin? && run[|old(run)|].id == id
      ensures outcome.Some? <==> Starts(skew, old(Now()), run[|old(run)|], id)
      ensures outcome.None? ==> published == [] && rollback.None?
      ensures outcome.Some? ==>
        && id in old(deployments) && id in deployments
        && Tells(old(deployments)[id], ids, forced, publishes, outcome.value, published, rollback)
        && Recorded(deployments[id], outcome.value, later) && SameClaim(old(deployments)[id], deployments[id])
        && run[|run| - 1].Finish? && run[|run| - 1].outcome == outcome.value
      ensures AllButThat(old(deployments), deployments, id)
      ensures Now().due == old(Now()).due - {id} && Now().pollNow == now && Now().running.None?
    {
      hide Run, Next, Starts, Tells, Recorded, Waiting;
      published, rollback, outcome := [], None, None;
      ghost var before := Now();
      var started := BeginExecution(id, now);
      BeginTouchesOne(skew, before, run[|old(run)|]);
      if !started {
        return;
      }
      StartedRecord(skew, before, run[|old(run)|], id);
      var d := deployments[id];
      OthersSubmit();
      var o;
      o, published, rollback := Roll(d, ids, forced, publishes);
      TellsTidy(d, ids, forced, publishes, o, published, rollback);
      TellsRollout(d, old(deployments)[id], ids, forced, publishes, o, published, rollback);
      OthersSubmit();
      FinishExecution(id, o, later);
      outcome := Some(o);
    }

    /**
     One poll: what was due when it began no longer waits, and no other command that was there
     then has changed.
     */
    method ProcessQueue(now: nat, targetsOf: string -> seq<string>, forced: nat, publishes: string -> nat -> bool, later: nat)
      requires Valid() && Now().due == {} && Now().running.None?
      modifies this
      ensures Valid() && Now().due == {} && Now().running.None? && old(run) < run
      ensures forall id :: id in old(deployments) ==> id in deployments
      ensures forall id :: id in old(deployments) && Due(old(deployments)[id], now) ==> !Waiting(deployments[id])
      ensures forall id :: id in old(deployments) && !Due(old(deployments)[id], now) ==> deployments[id] == old(deployments)[id]
    {
      hide Run, Next, Starts, Tells, Recorded, SameClaim, Waiting, Due;
      var due := CollectDue(now);
      while due != {}
        invariant Valid() && Now().pollNow == now && Now().running.None? && Now().due == due && old(run) < run
        invariant forall id :: id in due ==> id in old(deployments) && Due(old(deployments)[id], now)
        invariant forall id :: id in old(deployments) ==> id in deployments
        invariant forall id :: id in old(deployments) && Due(old(deployments)[id], now) ==> id in due || !Waiting(deployments[id])
        invariant forall id :: id in old(deployments) && !Due(old(deployments)[id], now) ==> deployments[id] == old(deployments)[id]
        decreases |due|
      {
        OthersSubmit();
        var id :| id in due;
        var outcome, published, rollback := Execute(id, now, targetsOf(id), forced, publishes(id), later);
        due := due - {id};
      }
    }

    /** A start: what the store file yields, or nothing. */
    method Start()
      requires Valid()
      modifies this
      ensures Valid() && |run| == |old(run)| + 1 && old(run) < run && run[|old(run)|].Restart?
      ensures deployments == if run[|old(run)|].readable && ReadStore(doc).Some? then ReadStore(doc).value else map[]
      ensures doc == old(doc) && Now().due == {} && Now().running.None?
    {
      hide Run, ReadStore;
      var readable: bool := *;
      deployments := map[];
      if readable {
        var loaded := LoadStore(doc);
        if loaded.Some? {
          deployments := loaded.value;
        }
      }
      Advance(Restart(readable));
    }
  }

  // commands were only added, this one no longer waits, the others are as they were
  predicate AllButThat(before: Store, after: Store, id: string) {
    && (forall k :: k in before ==> k in after)
    && (id in before ==> !Waiting(after[id]))
    && (forall k :: k in before && k != id ==> after[k] == before[k])
  }

  lemma BeginTouchesOne(skew: nat, w: World, e: Event)
    requires e.Begin?
    ensures AllButOne(w.mem, Next(skew, w, e).mem, e.id)
    ensures Next(skew, w, e).due == w.due - {e.id} && Next(skew, w, e).pollNow == w.pollNow
    ensures !Starts(skew, w, e, e.id) ==> Next(skew, w, e).running.None?
  {
  }

  lemma StartedRecord(skew: nat, w: World, e: Event, id: string)
    requires Starts(skew, w, e, id)
    ensures id in w.mem && id in Next(skew, w, e).mem && Next(skew, w, e).running == Some(id)
    ensures SameClaim(w.mem[id], Next(skew, w, e).mem[id])
  {
    hide TooLate;
  }

  lemma SingleLineTrimmed(s: string)
    ensures Trimmed(SingleLine(s))
  {
    TrimOf(seq(|s|, k requires 0 <= k < |s| => if s[k] == '\n' || s[k] == '\r' then ' ' else s[k]));
  }

  // an execution's published slices, rollback message and outcome belong together
  ghost predicate Tells(d: Record, ids: seq<string>, forced: nat, publishes: nat -> bool, outcome: Outcome,
                        published: seq<seq<string>>, rollback: Option<seq<string>>) {
    && EndsAs(d.rollout, ids, forced, publishes, outcome)
    && (outcome.NoTargets? ==> published == [] && rollback.None?)
    && (outcome.Done? ==> published == Slices(Sort(ids), d.rollout.waves, |d.rollout.waves|) && rollback.None?)
    && (outcome.Stopped? ==>
          && outcome.applied <= |ids| && Concat(published, |published|) == Sort(ids)[..outcome.applied]
          && (rollback.Some? <==> d.rollout.rollback && outcome.applied > 0)
          && (rollback.Some? ==> rollback.value == Sort(ids)[..outcome.applied]))
  }

  method Roll(d: Record, ids: seq<string>, forced: nat, publishes: nat -> bool)
    returns (outcome: Outcome, published: seq<seq<string>>, rollback: Option<seq<string>>)
    ensures Tells(d, ids, forced, publishes, outcome, published, rollback)
  {
    hide Slices, Concat, FailsAt;
    published, rollback := [], None;
    var targets := Sort(ids);
    if targets == [] {
      outcome := NoTargets;
      return;
    }
    var waves := d.rollout.waves;
    var applied, failedAt;
    published, applied, failedAt := RunWaves(targets, waves, forced, publishes);
    if failedAt.None? {
      outcome := Done(|targets|, |applied|);
      return;
    }
    SlicesArePrefix(targets, waves, failedAt.value);
    outcome := Stopped(|targets|, |applied|, WaveIssue(failedAt.value, forced == failedAt.value + 1));
    if d.rollout.rollback && applied != [] {
      rollback := Some(applied);
    }
  }

  /**
   For an accepted strategy a completed execution sent every target exactly once, and a failed
   one stopped at a proper prefix, which is what its rollback names.
   */
  lemma ExecutionMeaning(d: Record, ids: seq<string>, forced: nat, publishes: nat -> bool, outcome: Outcome,
                         published: seq<seq<string>>, rollback: Option<seq<string>>)
    requires GoodRollout(d.rollout) && Tells(d, ids, forced, publishes, outcome, published, rollback)
    ensures outcome.Done? ==> outcome.applied == outcome.total == |ids| && Concat(published, |published|) == Sort(ids)
    ensures outcome.Done? ==> multiset(Concat(published, |published|)) == multiset(ids)
    ensures outcome.Stopped? ==> outcome.applied < outcome.total == |ids| && Concat(published, |published|) < Sort(ids)
    ensures rollback.Some? ==> rollback.value == Concat(published, |published|)
  {
    hide Slices, Concat, FailsAt, Sort;
    var waves := d.rollout.waves;
    SentIsPercentage(|ids|, waves, |waves|);
    if outcome.Done? {
      RolloutOutcome(ids, waves, forced, publishes, None);
    }
    if outcome.Stopped? {
      var k: nat :| && k < |waves| && FailsAt(|ids|, waves, forced, publishes, k)
                    && outcome == Stopped(|ids|, Sent(|ids|, waves, k), WaveIssue(k, forced == k + 1));
      RolloutOutcome(ids, waves, forced, publishes, Some(k));
    }
  }

  lemma TellsTidy(d: Record, ids: seq<string>, forced: nat, publishes: nat -> bool, outcome: Outcome,
                  published: seq<seq<string>>, rollback: Option<seq<string>>)
    requires Tells(d, ids, forced, publishes, outcome, published, rollback)
    ensures outcome.Stopped? ==> outcome.issue.code != "" && Trimmed(outcome.issue.code)
  {
    hide Slices, Concat, FailsAt, Sort;
    if outcome.Stopped? {
      var waves := d.rollout.waves;
      var k: nat :| k < |waves| && outcome == Stopped(|ids|, Sent(|ids|, waves, k), WaveIssue(k, forced == k + 1));
    }
  }

  // only the strategy matters
  lemma TellsRollout(d: Record, e: Record, ids: seq<string>, forced: nat, publishes: nat -> bool, outcome: Outcome,
                     published: seq<seq<string>>, rollback: Option<seq<string>>)
    requires d.rollout == e.rollout && Tells(d, ids, forced, publishes, outcome, published, rollback)
    ensures Tells(e, ids, forced, publishes, outcome, published, rollback)
  {
    hide EndsAs, Slices, Concat, Sort;
  }
}
