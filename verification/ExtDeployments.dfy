/** What a deployment command must pass before it is accepted. */
module ExtDeployments {
  import opened Wrappers
  import opened JsonText
  import opened ExtRollout
  import opened ExtStore

  datatype Artifact = Artifact(
    kind: string,
    hookScope: seq<string>,
    stage: string,
    priority: nat,
    exclusiveGroup: string,
    allowedDecisions: seq<string>,
    issues: seq<string>)

  datatype Command = Command(
    id: string,
    artifactId: string,
    selection: Selection,
    selectionSpecified: bool,
    runAt: Option<nat>,
    rollout: Rollout)

  // ---- precheck ----------------------------------------------------------------------------------

  predicate ValidStage(stage: string) {
    stage == "pre_validate" || stage == "mutate" || stage == "authorize" || stage == "side_effect" || stage == "observe"
  }

  predicate Live(d: Record) {
    d.status != FAILED && d.status != CANCELLED
  }

  predicate Overlap(a: seq<string>, b: seq<string>) {
    exists k :: 0 <= k < |a| && a[k] in b
  }

  // a deployment stands in the way of another artifact for the same stage, group and hook
  predicate Conflicts(d: Record, artifactId: string, a: Artifact) {
    && Live(d) && d.artifactId != artifactId
    && d.stage == a.stage && d.exclusiveGroup == a.exclusiveGroup && Overlap(a.hookScope, d.hookScope)
  }

  predicate AllPass(decisions: seq<string>) {
    forall k :: 0 <= k < |decisions| ==> Lower(Trim(decisions[k])) == "pass"
  }

  predicate FitToDeploy(a: Artifact) {
    && a.issues == [] && ValidStage(a.stage) && a.hookScope != [] && a.exclusiveGroup != ""
    && (a.stage == "observe" ==> AllPass(a.allowedDecisions))
  }

  predicate Passes(m: Store, cmd: Command, artifact: Option<Artifact>, targets: nat) {
    && artifact.Some? && FitToDeploy(artifact.value) && targets > 0
    && forall id :: id in m && id != cmd.id ==> !Conflicts(m[id], cmd.artifactId, artifact.value)
  }

  method Overlaps(a: seq<string>, b: seq<string>) returns (r: bool)
    ensures r <==> Overlap(a, b)
  {
    for k := 0 to |a|
      invariant forall j :: 0 <= j < k ==> a[j] !in b
    {
      if a[k] in b {
        return true;
      }
    }
    return false;
  }

  method FindConflicts(m: Store, cmd: Command, a: Artifact) returns (ids: set<string>)
    ensures forall id :: id in ids <==> id in m && id != cmd.id && Conflicts(m[id], cmd.artifactId, a)
  {
    ids := {};
    var rest := m.Keys;
    while rest != {}
      invariant rest <= m.Keys
      invariant forall id :: id in ids <==> id in m && id !in rest && id != cmd.id && Conflicts(m[id], cmd.artifactId, a)
      decreases |rest|
    {
      var id :| id in rest;
      rest := rest - {id};
      var d := m[id];
      if id == cmd.id || d.status == FAILED || d.status == CANCELLED || d.artifactId == cmd.artifactId {
        continue;
      }
      if d.stage != a.stage || d.exclusiveGroup != a.exclusiveGroup {
        continue;
      }
      var overlap := Overlaps(a.hookScope, d.hookScope);
      if overlap {
        ids := ids + {id};
      }
    }
  }

  /** The precheck collects every objection; a command passes exactly if there is none. */
  method Precheck(m: Store, cmd: Command, artifact: Option<Artifact>, targets: nat)
    returns (codes: seq<string>, conflicting: set<string>)
    ensures codes == [] && conflicting == {} <==> Passes(m, cmd, artifact, targets)
    ensures artifact.Some? ==> forall id ::
      id in conflicting <==> id in m && id != cmd.id && Conflicts(m[id], cmd.artifactId, artifact.value)
    ensures artifact.Some? ==> ("target_empty" in codes <==> targets == 0)
  {
    codes, conflicting := [], {};
    if artifact.None? {
      return ["artifact_not_found"], {};
    }
    var a := artifact.value;
    codes := ArtifactObjections(a);
    conflicting := FindConflicts(m, cmd, a);
    if targets == 0 {
      codes := codes + ["target_empty"];
    }
    assert targets == 0 ==> codes[|codes| - 1] == "target_empty";
  }

  method ArtifactObjections(a: Artifact) returns (codes: seq<string>)
    ensures codes == [] <==> FitToDeploy(a)
    ensures "target_empty" !in codes
  {
    codes := [];
    if a.issues != [] {
      codes := codes + ["artifact_manifest_invalid"];
    }
    if !ValidStage(a.stage) {
      codes := codes + ["stage_invalid"];
    }
    if a.hookScope == [] {
      codes := codes + ["hook_scope_missing"];
    }
    if a.exclusiveGroup == "" {
      codes := codes + ["exclusive_group_missing"];
    }
    if a.stage == "observe" {
      var pass := true;
      for k := 0 to |a.allowedDecisions|
        invariant pass <==> AllPass(a.allowedDecisions[..k])
      {
        assert a.allowedDecisions[..k + 1] == a.allowedDecisions[..k] + [a.allowedDecisions[k]];
        if Lower(Trim(a.allowedDecisions[k])) != "pass" {
          pass := false;
          assert !AllPass(a.allowedDecisions);
          break;
        }
      }
      assert a.allowedDecisions[..|a.allowedDecisions|] == a.allowedDecisions;
      if !pass {
        codes := codes + ["observe_stage_decision_forbidden"];
      }
    }
  }
}
