/**
 How an extension deployment is rolled out: the accepted strategies, and the loop that
 publishes the sorted targets wave by wave.
 */
module ExtRollout {
  import opened Bounds
  import opened Wrappers
  import opened JsonText

  datatype Rollout = Rollout(kind: string, waves: seq<nat>, rollback: bool)

  const ALL_AT_ONCE := "all_at_once"
  const CANARY_WAVE := "canary_wave"
  const DEFAULT_ROLLOUT := Rollout(ALL_AT_ONCE, [100], false)

  // ---- accepted strategies -----------------------------------------------------------------------

  // percentages that rise strictly to 100
  predicate GoodWaves(waves: seq<nat>) {
    && waves != [] && waves[|waves| - 1] == 100
    && (forall k :: 0 <= k < |waves| ==> 1 <= waves[k] <= 100)
    && (forall j, k :: 0 <= j < k < |waves| ==> waves[j] < waves[k])
  }

  predicate GoodRollout(r: Rollout) {
    (r.kind == ALL_AT_ONCE && r.waves == [100]) || (r.kind == CANARY_WAVE && GoodWaves(r.waves))
  }

  // a number as the 32-bit value the parser takes from it; negative and other values are refused
  function WaveValue(j: Json): Option<nat> {
    match j
    case Unsigned(n) => Some(n % TWO_POW_32)
    case Integer(i) => if i < 0 then None else Some(i % TWO_POW_32)
    case _ => None
  }

  predicate IsWave(j: Json) {
    WaveValue(j).Some? && 1 <= WaveValue(j).value <= 100
  }

  method ReadWaves(items: seq<Json>) returns (waves: Option<seq<nat>>)
    ensures waves.Some? <==> forall k :: 0 <= k < |items| ==> IsWave(items[k])
    ensures waves.Some? ==> |waves.value| == |items|
    ensures waves.Some? ==> forall k :: 0 <= k < |items| ==> Some(waves.value[k]) == WaveValue(items[k])
  {
    var out: seq<nat> := [];
    for i := 0 to |items|
      invariant |out| == i
      invariant forall k :: 0 <= k < i ==> IsWave(items[k]) && Some(out[k]) == WaveValue(items[k])
    {
      var value := 0;
      match items[i] {
        case Unsigned(n) =>
          value := n % TWO_POW_32;
        case Integer(signed) =>
          if signed < 0 {
            return None;
          }
          value := signed % TWO_POW_32;
        case _ =>
          return None;
      }
      if value == 0 || value > 100 {
        return None;
      }
      out := out + [value];
    }
    return Some(out);
  }

  method IsStrictlyIncreasing(waves: seq<nat>) returns (r: bool)
    ensures r <==> forall j, k :: 0 <= j < k < |waves| ==> waves[j] < waves[k]
  {
    var i := 1;
    while i < |waves|
      invariant 1 <= i && (i <= |waves| || |waves| == 0)
      invariant forall j, k :: 0 <= j < k < i && k < |waves| ==> waves[j] < waves[k]
    {
      if waves[i - 1] >= waves[i] {
        return false;
      }
      i := i + 1;
    }
    return true;
  }

  function TypeOf(fields: map<Key, Json>): string {
    if Type in fields && fields[Type].Str? then Lower(Trim(fields[Type].s)) else ALL_AT_ONCE
  }

  // the wave entries a canary strategy lists, if any
  function Listed(fields: map<Key, Json>): seq<Json> {
    if Waves in fields && fields[Waves].Arr? then fields[Waves].items else []
  }

  function DefaultWaves(kind: string): seq<nat> {
    if kind == CANARY_WAVE then [5, 25, 100] else [100]
  }

  // the percentages are in range, and rise strictly to 100
  predicate GoodListing(items: seq<Json>) {
    && (forall k :: 0 <= k < |items| ==> IsWave(items[k]))
    && (forall j, k :: 0 <= j < k < |items| ==> IsWave(items[j]) && IsWave(items[k]) && WaveValue(items[j]).value < WaveValue(items[k]).value)
    && (items != [] ==> WaveValue(items[|items| - 1]) == Some(100))
  }

  predicate Acceptable(strategy: Json) {
    strategy.Null? ||
    (&& strategy.Obj?
     && (Type in strategy.fields ==> strategy.fields[Type].Str?)
     && (RollbackOnFailure in strategy.fields ==> strategy.fields[RollbackOnFailure].Bool?)
     && (TypeOf(strategy.fields) == ALL_AT_ONCE
         || (TypeOf(strategy.fields) == CANARY_WAVE && GoodListing(Listed(strategy.fields)))))
  }

  // the waves of a canary strategy, listed or by default
  method ParseWaves(items: seq<Json>) returns (r: Option<seq<nat>>)
    ensures r.Some? <==> GoodListing(items)
    ensures r.Some? ==> GoodWaves(r.value)
    ensures r.Some? ==> if items == [] then r.value == DefaultWaves(CANARY_WAVE) else AsListed(r.value, items)
  {
    var listed := ReadWaves(items);
    if listed.None? {
      return None;
    }
    var waves := listed.value;
    if waves == [] {
      waves := [5, 25, 100];
    }
    var increasing := IsStrictlyIncreasing(waves);
    if !increasing {
      return None;
    }
    if waves[|waves| - 1] != 100 {
      return None;
    }
    return Some(waves);
  }

  predicate AsListed(waves: seq<nat>, items: seq<Json>) {
    |waves| == |items| && forall k :: 0 <= k < |waves| ==> Some(waves[k]) == WaveValue(items[k])
  }

  /** A strategy is accepted exactly if its type is known and its listed waves rise strictly to 100. */
  method ParseRollout(strategy: Json) returns (r: Option<Rollout>)
    ensures r.Some? <==> Acceptable(strategy)
    ensures r.Some? ==> GoodRollout(r.value)
    ensures r.Some? && strategy.Null? ==> r.value == DEFAULT_ROLLOUT
    ensures r.Some? && strategy.Obj? ==>
      && r.value.kind == TypeOf(strategy.fields)
      && (r.value.rollback <==> RollbackOnFailure in strategy.fields && strategy.fields[RollbackOnFailure] == Bool(true))
      && (r.value.kind == CANARY_WAVE && Listed(strategy.fields) != [] ==> AsListed(r.value.waves, Listed(strategy.fields)))
  {
    hide GoodListing, GoodWaves, AsListed, Trim, Lower;
    if strategy.Null? {
      return Some(DEFAULT_ROLLOUT);
    }
    if !strategy.Obj? {
      return None;
    }
    var fields := strategy.fields;
    var kind, rollback := ALL_AT_ONCE, false;
    if Type in fields {
      if !fields[Type].Str? {
        return None;
      }
      kind := Lower(Trim(fields[Type].s));
    }
    if RollbackOnFailure in fields {
      if !fields[RollbackOnFailure].Bool? {
        return None;
      }
      rollback := fields[RollbackOnFailure].b;
    }
    if kind == ALL_AT_ONCE {
      return Some(Rollout(kind, [100], rollback));
    }
    if kind != CANARY_WAVE {
      return None;
    }
    var waves := ParseWaves(if Waves in fields && fields[Waves].Arr? then fields[Waves].items else []);
    if waves.None? {
      return None;
    }
    return Some(Rollout(kind, waves.value, rollback));
  }

  // ---- order of the targets ----------------------------------------------------------------------

  // byte-wise lexicographic order
  predicate Leq(a: string, b: string) {
    a == "" || (b != "" && (a[0] < b[0] || (a[0] == b[0] && Leq(a[1..], b[1..]))))
  }

  lemma {:induction false} LeqTotal(a: string, b: string)
    ensures Leq(a, b) || Leq(b, a)
    decreases |a|
  {
    if a != "" && b != "" {
      LeqTotal(a[1..], b[1..]);
    }
  }

  lemma {:induction false} LeqTransitive(a: string, b: string, c: string)
    requires Leq(a, b) && Leq(b, c)
    ensures Leq(a, c)
    decreases |a|
  {
    if a != "" && a[0] == b[0] == c[0] {
      LeqTransitive(a[1..], b[1..], c[1..]);
    }
  }

  predicate Ordered(ids: seq<string>) {
    forall j, k :: 0 <= j < k < |ids| ==> Leq(ids[j], ids[k])
  }

  function Insert(id: string, ids: seq<string>): (r: seq<string>)
    ensures |r| == |ids| + 1
  {
    if ids == [] || Leq(id, ids[0]) then [id] + ids else [ids[0]] + Insert(id, ids[1..])
  }

  function Sort(ids: seq<string>): (r: seq<string>)
    ensures |r| == |ids|
  {
    if ids == [] then [] else Insert(ids[0], Sort(ids[1..]))
  }

  lemma {:induction false} InsertKeeps(id: string, ids: seq<string>)
    requires Ordered(ids)
    ensures multiset(Insert(id, ids)) == multiset{id} + multiset(ids) && Ordered(Insert(id, ids))
    decreases |ids|
  {
    var r := Insert(id, ids);
    if ids == [] {
    } else if Leq(id, ids[0]) {
      forall k | 0 <= k < |ids| ensures Leq(id, ids[k]) {
        if k > 0 {
          LeqTransitive(id, ids[0], ids[k]);
        }
      }
    } else {
      LeqTotal(id, ids[0]);
      assert ids == [ids[0]] + ids[1..];
      InsertKeeps(id, ids[1..]);
      var tail := Insert(id, ids[1..]);
      forall k | 0 <= k < |tail| ensures Leq(ids[0], tail[k]) {
        assert tail[k] in multiset(tail);
        assert tail[k] == id || tail[k] in ids[1..];
      }
    }
  }

  /** Sorting rearranges the targets into order. */
  lemma {:induction false} SortKeeps(ids: seq<string>)
    ensures multiset(Sort(ids)) == multiset(ids) && Ordered(Sort(ids))
    decreases |ids|
  {
    if ids != [] {
      SortKeeps(ids[1..]);
      InsertKeeps(ids[0], Sort(ids[1..]));
      assert ids == [ids[0]] + ids[1..];
    }
  }

  // ---- the waves ---------------------------------------------------------------------------------

  function CeilPercent(total: nat, percent: nat): nat {
    (total * percent + 99) / 100
  }

  // how many targets the first n waves reach
  function Sent(total: nat, waves: seq<nat>, n: nat): (r: nat)
    requires n <= |waves|
    ensures r <= total
  {
    if n == 0 then 0 else Min(Max(Sent(total, waves, n - 1), CeilPercent(total, waves[n - 1])), total)
  }

  // what the first n waves publish: one slice per wave that reaches further
  function Slices(targets: seq<string>, waves: seq<nat>, n: nat): seq<seq<string>>
    requires n <= |waves|
  {
    if n == 0 then []
    else
      var from, to := Sent(|targets|, waves, n - 1), Sent(|targets|, waves, n);
      Slices(targets, waves, n - 1) + (if from < to then [targets[from..to]] else [])
  }

  function Concat(slices: seq<seq<string>>, n: nat): seq<string>
    requires n <= |slices|
  {
    if n == 0 then [] else Concat(slices, n - 1) + slices[n - 1]
  }

  lemma {:induction false} ConcatPrefix(a: seq<seq<string>>, b: seq<seq<string>>, n: nat)
    requires n <= |a|
    ensures Concat(a + b, n) == Concat(a, n)
    decreases n
  {
    if n > 0 {
      ConcatPrefix(a, b, n - 1);
      assert (a + b)[n - 1] == a[n - 1];
    }
  }

  lemma SentNothing(total: nat, waves: seq<nat>)
    ensures Sent(total, waves, 0) == 0
  {
  }

  lemma SentGrows(total: nat, waves: seq<nat>, n: nat)
    requires 0 < n <= |waves|
    ensures Sent(total, waves, n - 1) <= Sent(total, waves, n)
  {
    hide CeilPercent;
  }

  /** The slices of any waves are consecutive: together they are a prefix of the targets. */
  lemma {:induction false} SlicesArePrefix(targets: seq<string>, waves: seq<nat>, n: nat)
    requires n <= |waves|
    ensures Concat(Slices(targets, waves, n), |Slices(targets, waves, n)|) == targets[..Sent(|targets|, waves, n)]
    decreases n
  {
    hide Sent;
    if n == 0 {
      assert Sent(|targets|, waves, 0) == 0 by { SentNothing(|targets|, waves); }
    } else {
      SlicesArePrefix(targets, waves, n - 1);
      SentGrows(|targets|, waves, n);
      var from, to := Sent(|targets|, waves, n - 1), Sent(|targets|, waves, n);
      if from < to {
        ConcatPrefix(Slices(targets, waves, n - 1), [targets[from..to]], |Slices(targets, waves, n - 1)|);
        assert targets[..from] + targets[from..to] == targets[..to];
      } else {
        assert Slices(targets, waves, n) == Slices(targets, waves, n - 1);
      }
    }
  }

  lemma CeilPercentGrows(total: nat, p: nat, q: nat)
    requires p <= q <= 100
    ensures CeilPercent(total, p) <= CeilPercent(total, q) <= total
  {
    assert total * p <= total * q <= total * 100;
  }

  /** After an accepted strategy's wave exactly its percentage of the targets, rounded up, has been sent. */
  lemma {:induction false} SentIsPercentage(total: nat, waves: seq<nat>, n: nat)
    requires GoodWaves(waves) && 0 < n <= |waves|
    ensures Sent(total, waves, n) == CeilPercent(total, waves[n - 1])
    ensures n == |waves| ==> Sent(total, waves, n) == total
    ensures n < |waves| && total > 0 ==> 0 < Sent(total, waves, n) <= total
    decreases n
  {
    CeilPercentGrows(total, waves[n - 1], 100);
    if n > 1 {
      SentIsPercentage(total, waves, n - 1);
      CeilPercentGrows(total, waves[n - 2], waves[n - 1]);
    }
  }

  // wave k publishes something, and publishing it goes wrong
  predicate FailsAt(total: nat, waves: seq<nat>, forced: nat, publishes: nat -> bool, k: nat)
    requires k < |waves|
  {
    Sent(total, waves, k) < Sent(total, waves, k + 1) && (forced == k + 1 || !publishes(k))
  }

  /**
   Publish wave by wave until one fails. `publishes(k)` is whether publishing wave k works;
   `forced` is the configured wave to fail on purpose, counted from one, or zero.
   */
  method RunWaves(targets: seq<string>, waves: seq<nat>, forced: nat, publishes: nat -> bool)
    returns (published: seq<seq<string>>, applied: seq<string>, failedAt: Option<nat>)
    ensures failedAt.None? ==> published == Slices(targets, waves, |waves|)
    ensures failedAt.None? ==> applied == targets[..Sent(|targets|, waves, |waves|)]
    ensures failedAt.None? ==> forall k: nat :: k < |waves| ==> !FailsAt(|targets|, waves, forced, publishes, k)
    ensures failedAt.Some? ==> failedAt.value < |waves| && published == Slices(targets, waves, failedAt.value)
    ensures failedAt.Some? ==> applied == targets[..Sent(|targets|, waves, failedAt.value)]
    ensures failedAt.Some? ==> FailsAt(|targets|, waves, forced, publishes, failedAt.value)
    ensures failedAt.Some? ==> forall k: nat :: k < failedAt.value ==> !FailsAt(|targets|, waves, forced, publishes, k)
  {
    var total := |targets|;
    var count := 0;
    published, applied, failedAt := [], [], None;
    for w := 0 to |waves|
      invariant failedAt.None? && count == Sent(total, waves, w)
      invariant published == Slices(targets, waves, w) && applied == targets[..count]
      invariant forall k: nat :: k < w ==> !FailsAt(total, waves, forced, publishes, k)
    {
      var reach := Max(count, (total * waves[w] + 99) / 100);
      var end := Min(reach, total);
      if end <= count {
        continue;
      }
      if forced > 0 && w + 1 == forced {
        failedAt := Some(w);
        break;
      }
      var slice := [];
      for i := count to end
        invariant slice == targets[count..i]
      {
        slice := slice + [targets[i]];
      }
      if !publishes(w) {
        failedAt := Some(w);
        break;
      }
      published := published + [slice];
      applied := applied + slice;
      assert targets[..count] + targets[count..end] == targets[..end];
      count := end;
    }
  }

  /** Completion sends every target exactly once; a failure stops at a proper prefix, which a rollback would name. */
  lemma RolloutOutcome(ids: seq<string>, waves: seq<nat>, forced: nat, publishes: nat -> bool, failedAt: Option<nat>)
    requires GoodWaves(waves)
    requires failedAt.Some? ==> failedAt.value < |waves| && FailsAt(|ids|, waves, forced, publishes, failedAt.value)
    ensures failedAt.None? ==>
      var sent := Slices(Sort(ids), waves, |waves|);
      Concat(sent, |sent|) == Sort(ids) && multiset(Concat(sent, |sent|)) == multiset(ids)
    ensures failedAt.Some? ==>
      var sent := Slices(Sort(ids), waves, failedAt.value);
      Concat(sent, |sent|) == Sort(ids)[..Sent(|ids|, waves, failedAt.value)] && Sent(|ids|, waves, failedAt.value) < |ids|
  {
    SortKeeps(ids);
    var n := if failedAt.None? then |waves| else failedAt.value;
    SlicesArePrefix(Sort(ids), waves, n);
    SentIsPercentage(|ids|, waves, |waves|);
    assert Sort(ids)[..|ids|] == Sort(ids);
  }
}
