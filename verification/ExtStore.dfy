/**
 The deployment store: every deployment record written to JSON and read back. Writing and
 parsing the JSON text itself is the JSON library's business; here a document is a value.
 */
module ExtStore {
  import opened Bounds
  import opened Wrappers
  import opened JsonText
  import opened ExtRollout

  datatype Selection = Selection(
    all: bool,
    serverIds: seq<string>,
    roles: seq<string>,
    gameModes: seq<string>,
    regions: seq<string>,
    shards: seq<string>,
    tags: seq<string>)

  datatype Issue = Issue(code: string, message: string)

  datatype Record = Record(
    commandId: string,
    artifactId: string,
    actor: string,
    status: string,
    statusReason: string,
    selection: Selection,
    selectionSpecified: bool,
    runAt: Option<nat>,
    rollout: Rollout,
    kind: string,
    hookScope: seq<string>,
    stage: string,
    priority: nat,
    exclusiveGroup: string,
    targetCount: nat,
    appliedTargets: nat,
    issues: seq<Issue>,
    createdAt: nat,
    updatedAt: nat)

  const PENDING := "pending"
  const PRECHECK_PASSED := "precheck_passed"
  const EXECUTING := "executing"
  const COMPLETED := "completed"
  const FAILED := "failed"
  const CANCELLED := "cancelled"

  predicate KnownStatus(s: string) {
    s == PENDING || s == PRECHECK_PASSED || s == EXECUTING || s == COMPLETED || s == FAILED || s == CANCELLED
  }

  function StatusText(s: string): string {
    if KnownStatus(s) then s else FAILED
  }

  // ---- writing -----------------------------------------------------------------------------------

  function EncodeSelection(s: Selection): Json {
    Obj(map[All := Bool(s.all), ServerIds := Strings(s.serverIds), Roles := Strings(s.roles),
            GameModes := Strings(s.gameModes), Regions := Strings(s.regions),
            Shards := Strings(s.shards), Tags := Strings(s.tags)])
  }

  function Numbers(list: seq<nat>): (r: Json)
    ensures r.Arr? && |r.items| == |list|
    ensures forall k :: 0 <= k < |list| ==> r.items[k] == Unsigned(list[k])
  {
    Arr(seq(|list|, k requires 0 <= k < |list| => Unsigned(list[k])))
  }

  function EncodeRollout(r: Rollout): Json {
    Obj(map[Type := Str(r.kind), Waves := Numbers(r.waves), RollbackOnFailure := Bool(r.rollback)])
  }

  function EncodeIssue(i: Issue): Json {
    Obj(map[IssueCode := Str(i.code), IssueMessage := Str(i.message)])
  }

  function EncodeIssues(list: seq<Issue>): (r: Json)
    ensures r.Arr? && |r.items| == |list|
    ensures forall k :: 0 <= k < |list| ==> r.items[k] == EncodeIssue(list[k])
  {
    Arr(seq(|list|, k requires 0 <= k < |list| => EncodeIssue(list[k])))
  }

  function Encode(d: Record): Json {
    Obj(map[CommandId := Str(d.commandId),
            ArtifactId := Str(d.artifactId),
            Actor := Str(d.actor),
            Status := Str(d.status),
            StatusReason := Str(d.statusReason),
            SelectorSpecified := Bool(d.selectionSpecified),
            Selector := EncodeSelection(d.selection),
            RunAtUtc := if d.runAt.Some? then Unsigned(d.runAt.value) else Null,
            RolloutStrategy := EncodeRollout(d.rollout),
            Kind := Str(d.kind),
            HookScope := Strings(d.hookScope),
            Stage := Str(d.stage),
            Priority := Unsigned(d.priority),
            ExclusiveGroup := Str(d.exclusiveGroup),
            TargetCount := Unsigned(d.targetCount),
            AppliedTargets := Unsigned(d.appliedTargets),
            Issues := EncodeIssues(d.issues),
            CreatedAtMs := Unsigned(d.createdAt),
            UpdatedAtMs := Unsigned(d.updatedAt)])
  }

  // ---- reading: anything missing or of the wrong type keeps its default --------------------------

  function Text(fields: map<Key, Json>, key: Key): string {
    if key in fields && fields[key].Str? then Trim(fields[key].s) else ""
  }

  function Flag(fields: map<Key, Json>, key: Key): bool {
    key in fields && fields[key].Bool? && fields[key].b
  }

  function Number(fields: map<Key, Json>, key: Key): nat {
    if key in fields && fields[key].Unsigned? then fields[key].n else 0
  }

  function TextList(fields: map<Key, Json>, key: Key): seq<string> {
    if key in fields then StringList(fields[key]) else []
  }

  function DecodeSelection(j: Json): Selection {
    var f := if j.Obj? then j.fields else map[];
    Selection(Flag(f, All), TextList(f, ServerIds), TextList(f, Roles), TextList(f, GameModes),
              TextList(f, Regions), TextList(f, Shards), TextList(f, Tags))
  }

  function DecodeRunAt(j: Json): Option<nat> {
    match j
    case Unsigned(n) => Some(n)
    case Integer(i) => if i >= 0 then Some(i) else None
    case _ => None
  }

  // the first n items that are non-negative numbers, as 32-bit values
  function KeptWaves(items: seq<Json>, n: nat): seq<nat>
    requires n <= |items|
  {
    if n == 0 then []
    else
      var rest := KeptWaves(items, n - 1);
      if WaveValue(items[n - 1]).Some? then rest + [WaveValue(items[n - 1]).value] else rest
  }

  function DecodeRollout(j: Json): Rollout {
    var f := if j.Obj? then j.fields else map[];
    var kind := if Type in f && f[Type].Str? then Lower(Trim(f[Type].s)) else ALL_AT_ONCE;
    var waves := if Waves in f && f[Waves].Arr? then KeptWaves(f[Waves].items, |f[Waves].items|) else [100];
    Rollout(kind, if waves == [] then DefaultWaves(kind) else waves, Flag(f, RollbackOnFailure))
  }

  function RawText(fields: map<Key, Json>, key: Key): string {
    if key in fields && fields[key].Str? then fields[key].s else ""
  }

  function DecodeIssue(j: Json): Issue {
    var f := if j.Obj? then j.fields else map[];
    Issue(RawText(f, IssueCode), RawText(f, IssueMessage))
  }

  // the first n items that carry a code or a message
  function KeptIssues(items: seq<Json>, n: nat): seq<Issue>
    requires n <= |items|
  {
    if n == 0 then []
    else
      var rest := KeptIssues(items, n - 1);
      if DecodeIssue(items[n - 1]) != Issue("", "") then rest + [DecodeIssue(items[n - 1])] else rest
  }

  function DecodeIssues(j: Json): seq<Issue> {
    if j.Arr? then KeptIssues(j.items, |j.items|) else []
  }

  function Member(fields: map<Key, Json>, key: Key): Json {
    if key in fields then fields[key] else Null
  }

  function DecodeFields(f: map<Key, Json>): Record {
    Record(
      Text(f, CommandId), Text(f, ArtifactId), Text(f, Actor),
      if Status in f && f[Status].Str? then StatusText(f[Status].s) else PENDING,
      Text(f, StatusReason),
      DecodeSelection(Member(f, Selector)), Flag(f, SelectorSpecified),
      DecodeRunAt(Member(f, RunAtUtc)), DecodeRollout(Member(f, RolloutStrategy)),
      Text(f, Kind), TextList(f, HookScope), Text(f, Stage),
      Number(f, Priority) % TWO_POW_32, Text(f, ExclusiveGroup),
      Number(f, TargetCount), Number(f, AppliedTargets), DecodeIssues(Member(f, Issues)),
      Number(f, CreatedAtMs), Number(f, UpdatedAtMs))
  }

  // entries without a usable command id are skipped
  function Decode(item: Json): Option<Record> {
    if item.Obj? && Text(item.fields, CommandId) != "" then Some(DecodeFields(item.fields)) else None
  }

  // ---- what survives the round trip --------------------------------------------------------------

  predicate TidySelection(s: Selection) {
    Tidy(s.serverIds) && Tidy(s.roles) && Tidy(s.gameModes) && Tidy(s.regions) && Tidy(s.shards) && Tidy(s.tags)
  }

  predicate TidyRollout(r: Rollout) {
    && Trimmed(r.kind) && LowerCase(r.kind) && r.waves != []
    && forall k :: 0 <= k < |r.waves| ==> r.waves[k] < TWO_POW_32
  }

  predicate TidyRecord(d: Record) {
    && d.commandId != "" && Trimmed(d.commandId) && Trimmed(d.artifactId) && Trimmed(d.actor)
    && KnownStatus(d.status) && Trimmed(d.statusReason)
    && TidySelection(d.selection) && TidyRollout(d.rollout)
    && Trimmed(d.kind) && Tidy(d.hookScope) && Trimmed(d.stage)
    && d.priority < TWO_POW_32 && Trimmed(d.exclusiveGroup)
    && forall k :: 0 <= k < |d.issues| ==> d.issues[k] != Issue("", "")
  }

  lemma {:induction false} WavesRead(waves: seq<nat>, n: nat)
    requires n <= |waves| && forall k :: 0 <= k < |waves| ==> waves[k] < TWO_POW_32
    ensures KeptWaves(Numbers(waves).items, n) == waves[..n]
    decreases n
  {
    if n > 0 {
      WavesRead(waves, n - 1);
    }
  }

  lemma {:induction false} IssuesRead(list: seq<Issue>, n: nat)
    requires n <= |list| && forall k :: 0 <= k < |list| ==> list[k] != Issue("", "")
    ensures KeptIssues(EncodeIssues(list).items, n) == list[..n]
    decreases n
  {
    if n > 0 {
      IssuesRead(list, n - 1);
      assert DecodeIssue(EncodeIssue(list[n - 1])) == list[n - 1];
    }
  }

  lemma SelectionRead(s: Selection)
    requires TidySelection(s)
    ensures DecodeSelection(EncodeSelection(s)) == s
  {
    hide StringList, Tidy;
    StringListOf(s.serverIds);
    StringListOf(s.roles);
    StringListOf(s.gameModes);
    StringListOf(s.regions);
    StringListOf(s.shards);
    StringListOf(s.tags);
  }

  lemma RolloutRead(r: Rollout)
    requires TidyRollout(r)
    ensures DecodeRollout(EncodeRollout(r)) == r
  {
    hide Trim, Lower;
    TrimOf(r.kind);
    LowerOf(r.kind);
    WavesRead(r.waves, |r.waves|);
    assert r.waves[..|r.waves|] == r.waves;
  }

  lemma TextsRead(d: Record)
    requires TidyRecord(d)
    ensures Trim(d.commandId) == d.commandId && Trim(d.artifactId) == d.artifactId && Trim(d.actor) == d.actor
    ensures Trim(d.statusReason) == d.statusReason && Trim(d.kind) == d.kind
    ensures Trim(d.stage) == d.stage && Trim(d.exclusiveGroup) == d.exclusiveGroup
  {
    hide Trim;
    TrimOf(d.commandId);
    TrimOf(d.artifactId);
    TrimOf(d.actor);
    TrimOf(d.statusReason);
    TrimOf(d.kind);
    TrimOf(d.stage);
    TrimOf(d.exclusiveGroup);
  }

  predicate Holds(j: Json, key: Key, value: Json) {
    j.Obj? && key in j.fields && j.fields[key] == value
  }

  // what was written is found again under its key
  lemma TextsFound(d: Record)
    ensures var j := Encode(d);
      && Holds(j, CommandId, Str(d.commandId)) && Holds(j, ArtifactId, Str(d.artifactId))
      && Holds(j, Actor, Str(d.actor)) && Holds(j, Status, Str(d.status))
  {
    hide EncodeSelection, EncodeRollout, Strings, EncodeIssues;
  }

  lemma LabelsFound(d: Record)
    ensures var j := Encode(d);
      && Holds(j, StatusReason, Str(d.statusReason)) && Holds(j, Kind, Str(d.kind))
      && Holds(j, Stage, Str(d.stage)) && Holds(j, ExclusiveGroup, Str(d.exclusiveGroup))
  {
    hide EncodeSelection, EncodeRollout, Strings, EncodeIssues;
  }

  lemma NumbersFound(d: Record)
    ensures var j := Encode(d);
      && Holds(j, SelectorSpecified, Bool(d.selectionSpecified))
      && Holds(j, RunAtUtc, if d.runAt.Some? then Unsigned(d.runAt.value) else Null)
      && Holds(j, Priority, Unsigned(d.priority))
      && Holds(j, TargetCount, Unsigned(d.targetCount)) && Holds(j, AppliedTargets, Unsigned(d.appliedTargets))
      && Holds(j, CreatedAtMs, Unsigned(d.createdAt)) && Holds(j, UpdatedAtMs, Unsigned(d.updatedAt))
  {
    hide EncodeSelection, EncodeRollout, Strings, EncodeIssues;
  }

  lemma PartsFound(d: Record)
    ensures var j := Encode(d);
      && Holds(j, Selector, EncodeSelection(d.selection)) && Holds(j, RolloutStrategy, EncodeRollout(d.rollout))
      && Holds(j, HookScope, Strings(d.hookScope)) && Holds(j, Issues, EncodeIssues(d.issues))
  {
    hide EncodeSelection, EncodeRollout, Strings, EncodeIssues;
  }

  /** A tidy record is read back as it was written. */
  lemma DecodeEncoded(d: Record)
    requires TidyRecord(d)
    ensures Decode(Encode(d)) == Some(d)
  {
    hide Trim, StringList, Encode, EncodeSelection, DecodeSelection, EncodeRollout, DecodeRollout, EncodeIssues,
         KeptIssues, TidySelection, TidyRollout, KnownStatus, Trimmed, Strings, Tidy;
    TextsFound(d);
    LabelsFound(d);
    NumbersFound(d);
    PartsFound(d);
    TextsRead(d);
    SelectionRead(d.selection);
    RolloutRead(d.rollout);
    StringListOf(d.hookScope);
    IssuesRead(d.issues, |d.issues|);
    assert d.issues[..|d.issues|] == d.issues;
    assert StatusText(d.status) == d.status;
  }

  // ---- whatever is read is tidy ------------------------------------------------------------------

  lemma {:induction false} KeptStringsTidy(items: seq<Json>, n: nat)
    requires n <= |items|
    ensures Tidy(KeptStrings(items, n))
    decreases n
  {
    if n > 0 {
      KeptStringsTidy(items, n - 1);
      if items[n - 1].Str? {
        TrimOf(items[n - 1].s);
      }
    }
  }

  lemma TextListTidy(f: map<Key, Json>, key: Key)
    ensures Tidy(TextList(f, key))
  {
    if key in f && f[key].Arr? {
      KeptStringsTidy(f[key].items, |f[key].items|);
    }
  }

  lemma TextTrimmed(f: map<Key, Json>, key: Key)
    ensures Trimmed(Text(f, key))
  {
    if key in f && f[key].Str? {
      TrimOf(f[key].s);
    }
  }

  lemma {:induction false} KeptWavesTidy(items: seq<Json>, n: nat)
    requires n <= |items|
    ensures forall k :: 0 <= k < |KeptWaves(items, n)| ==> KeptWaves(items, n)[k] < TWO_POW_32
    decreases n
  {
    if n > 0 {
      KeptWavesTidy(items, n - 1);
    }
  }

  lemma {:induction false} KeptIssuesTidy(items: seq<Json>, n: nat)
    requires n <= |items|
    ensures forall k :: 0 <= k < |KeptIssues(items, n)| ==> KeptIssues(items, n)[k] != Issue("", "")
    decreases n
  {
    if n > 0 {
      KeptIssuesTidy(items, n - 1);
    }
  }

  lemma SelectionTidy(j: Json)
    ensures TidySelection(DecodeSelection(j))
  {
    hide Tidy, TextList;
    var f := if j.Obj? then j.fields else map[];
    TextListTidy(f, ServerIds);
    TextListTidy(f, Roles);
    TextListTidy(f, GameModes);
    TextListTidy(f, Regions);
    TextListTidy(f, Shards);
    TextListTidy(f, Tags);
  }

  lemma RolloutTidy(j: Json)
    ensures TidyRollout(DecodeRollout(j))
  {
    hide Trim, KeptWaves;
    var f := if j.Obj? then j.fields else map[];
    if Type in f && f[Type].Str? {
      TrimOf(f[Type].s);
    }
    if Waves in f && f[Waves].Arr? {
      KeptWavesTidy(f[Waves].items, |f[Waves].items|);
    }
  }

  /** Whatever the store file holds, every record read from it is tidy. */
  lemma DecodedIsTidy(item: Json)
    requires Decode(item).Some?
    ensures TidyRecord(Decode(item).value)
  {
    hide Trimmed, Tidy, Text, TextList, DecodeSelection, DecodeRollout, TidySelection, TidyRollout, KeptIssues;
    var f := item.fields;
    TextTrimmed(f, CommandId);
    TextTrimmed(f, ArtifactId);
    TextTrimmed(f, Actor);
    TextTrimmed(f, StatusReason);
    TextTrimmed(f, Kind);
    TextTrimmed(f, Stage);
    TextTrimmed(f, ExclusiveGroup);
    TextListTidy(f, HookScope);
    SelectionTidy(Member(f, Selector));
    RolloutTidy(Member(f, RolloutStrategy));
    if Member(f, Issues).Arr? {
      KeptIssuesTidy(f[Issues].items, |f[Issues].items|);
    }
  }

  // ---- the whole store ---------------------------------------------------------------------------

  type Store = map<string, Record>

  predicate TidyStore(m: Store) {
    forall id :: id in m ==> m[id].commandId == id && TidyRecord(m[id])
  }

  // entries are read in order, a later one for the same command id replacing an earlier one
  function Loaded(items: seq<Json>, n: nat): Store
    requires n <= |items|
  {
    if n == 0 then map[]
    else
      var d := Decode(items[n - 1]);
      if d.Some? then Loaded(items, n - 1)[d.value.commandId := d.value] else Loaded(items, n - 1)
  }

  // what a start reads; nothing at all if there is no usable document
  function ReadStore(doc: Option<Json>): Option<Store> {
    if doc.Some? && doc.value.Obj? && Deployments in doc.value.fields && doc.value.fields[Deployments].Arr?
    then Some(Loaded(doc.value.fields[Deployments].items, |doc.value.fields[Deployments].items|))
    else None
  }

  function Written(m: Store, keys: seq<string>): (r: seq<Json>)
    requires forall k :: k in keys ==> k in m
    ensures |r| == |keys| && forall k :: 0 <= k < |keys| ==> r[k] == Encode(m[keys[k]])
  {
    seq(|keys|, k requires 0 <= k < |keys| => assert keys[k] in keys; Encode(m[keys[k]]))
  }

  // the keys are exactly the store's command ids, each once, in order
  ghost predicate Enumerates(keys: seq<string>, m: Store) {
    multiset(keys) == multiset(m.Keys) && Ordered(keys)
  }

  lemma EnumeratedKeys(keys: seq<string>, m: Store)
    requires multiset(keys) == multiset(m.Keys)
    ensures forall k :: k in keys <==> k in m
  {
    forall k ensures k in keys <==> k in m {
      assert k in keys <==> k in multiset(keys);
    }
  }

  ghost predicate SavedAs(root: Json, m: Store) {
    exists keys :: Enumerates(keys, m) && (forall k :: k in keys ==> k in m)
                   && root == Obj(map[Deployments := Arr(Written(m, keys))])
  }

  method SortedKeys(m: Store) returns (keys: seq<string>)
    ensures Enumerates(keys, m)
  {
    var listed: seq<string>, rest := [], m.Keys;
    while rest != {}
      invariant multiset(listed) + multiset(rest) == multiset(m.Keys)
      decreases |rest|
    {
      var k :| k in rest;
      listed, rest := listed + [k], rest - {k};
    }
    SortKeeps(listed);
    keys := Sort(listed);
  }

  method SaveStore(m: Store) returns (root: Json)
    ensures SavedAs(root, m)
  {
    hide Encode, Ordered;
    var keys := SortedKeys(m);
    EnumeratedKeys(keys, m);
    var items := [];
    for i := 0 to |keys|
      invariant items == Written(m, keys)[..i]
    {
      items := items + [Encode(m[keys[i]])];
    }
    assert items == Written(m, keys);
    root := Obj(map[Deployments := Arr(items)]);
  }

  method LoadStore(doc: Option<Json>) returns (r: Option<Store>)
    ensures r == ReadStore(doc)
  {
    if doc.None? || !doc.value.Obj? {
      return None;
    }
    var fields := doc.value.fields;
    if Deployments !in fields || !fields[Deployments].Arr? {
      return None;
    }
    var items, loaded: Store := fields[Deployments].items, map[];
    for i := 0 to |items|
      invariant loaded == Loaded(items, i)
    {
      var d := Decode(items[i]);
      if d.None? {
        continue;
      }
      loaded := loaded[d.value.commandId := d.value];
    }
    return Some(loaded);
  }

  lemma {:induction false} LoadedIsTidy(items: seq<Json>, n: nat)
    requires n <= |items|
    ensures TidyStore(Loaded(items, n))
    decreases n
  {
    hide Decode, TidyRecord;
    if n > 0 {
      LoadedIsTidy(items, n - 1);
      if Decode(items[n - 1]).Some? {
        DecodedIsTidy(items[n - 1]);
      }
    }
  }

  lemma {:induction false} LoadedWritten(m: Store, keys: seq<string>, n: nat)
    requires n <= |keys| && TidyStore(m) && forall k :: k in keys ==> k in m
    ensures forall k :: k in Loaded(Written(m, keys), n) ==> k in m && Loaded(Written(m, keys), n)[k] == m[k]
    ensures forall i :: 0 <= i < n ==> keys[i] in Loaded(Written(m, keys), n)
    decreases n
  {
    hide Decode, Encode, TidyRecord;
    if n > 0 {
      LoadedWritten(m, keys, n - 1);
      DecodeEncoded(m[keys[n - 1]]);
    }
  }

  lemma LoadedAllWritten(m: Store, keys: seq<string>)
    requires TidyStore(m) && multiset(keys) == multiset(m.Keys) && forall k :: k in keys ==> k in m
    ensures Loaded(Written(m, keys), |keys|) == m
  {
    hide TidyStore, Written, Loaded;
    LoadedWritten(m, keys, |keys|);
    var l := Loaded(Written(m, keys), |keys|);
    forall k | k in m ensures k in l {
      assert k in multiset(keys);
      var i :| 0 <= i < |keys| && keys[i] == k;
    }
  }

  /** Saving a store and reading it back gives the same store exactly if every record is tidy and under its own id. */
  lemma LoadSavedExactly(root: Json, m: Store)
    requires SavedAs(root, m)
    ensures ReadStore(Some(root)) == Some(m) <==> TidyStore(m)
  {
    hide Written, Loaded, TidyStore, Ordered;
    var keys :| Enumerates(keys, m) && (forall k :: k in keys ==> k in m)
                && root == Obj(map[Deployments := Arr(Written(m, keys))]);
    LoadedIsTidy(Written(m, keys), |keys|);
    if TidyStore(m) {
      LoadedAllWritten(m, keys);
    }
  }
}
