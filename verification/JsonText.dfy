/**
 JSON values and the text helpers the admin tool applies to them. The members an object may
 have are an enumeration: any other member is never looked at.
 */
module JsonText {
  import Decimal

  datatype Key =
    | CommandId | ArtifactId | Actor | Status | StatusReason | SelectorSpecified | Selector
    | RunAtUtc | RolloutStrategy | Kind | HookScope | Stage | Priority | ExclusiveGroup
    | TargetCount | AppliedTargets | Issues | CreatedAtMs | UpdatedAtMs
    | All | ServerIds | Roles | GameModes | Regions | Shards | Tags
    | Type | Waves | RollbackOnFailure | IssueCode | IssueMessage | Deployments

  datatype Json =
    | Null
    | Bool(b: bool)
    | Unsigned(n: nat)               // a number the parser keeps as unsigned
    | Integer(i: int)                // a number it keeps as signed
    | Float
    | Str(s: string)
    | Arr(items: seq<Json>)
    | Obj(fields: map<Key, Json>)

  // no blank at either end
  predicate Trimmed(s: string) {
    s == "" || (!Decimal.IsSpace(s[0]) && !Decimal.IsSpace(s[|s| - 1]))
  }

  function TrimEnd(s: string): (r: string) {
    if s != "" && Decimal.IsSpace(s[|s| - 1]) then TrimEnd(s[..|s| - 1]) else s
  }

  function Trim(s: string): (r: string) {
    if s != "" && Decimal.IsSpace(s[0]) then Trim(s[1..]) else TrimEnd(s)
  }

  lemma {:induction false} TrimEndOf(s: string)
    requires s == "" || !Decimal.IsSpace(s[0])
    ensures Trimmed(TrimEnd(s)) && (Trimmed(s) ==> TrimEnd(s) == s)
    decreases |s|
  {
    if s != "" && Decimal.IsSpace(s[|s| - 1]) {
      TrimEndOf(s[..|s| - 1]);
    }
  }

  /** Trimming leaves no blank at either end, and changes exactly the strings that have one. */
  lemma {:induction false} TrimOf(s: string)
    ensures Trimmed(Trim(s))
    ensures Trim(s) == s <==> Trimmed(s)
    decreases |s|
  {
    if s != "" && Decimal.IsSpace(s[0]) {
      TrimOf(s[1..]);
    } else {
      TrimEndOf(s);
    }
  }

  lemma {:induction false} TrimEndCut(s: string, begin: nat, end: nat)
    requires begin <= end <= |s| && forall k :: end <= k < |s| ==> Decimal.IsSpace(s[k])
    ensures TrimEnd(s[begin..]) == TrimEnd(s[begin..end])
    decreases |s| - end
  {
    if end == |s| {
      assert s[begin..] == s[begin..end];
    } else {
      TrimEndCut(s, begin, end + 1);
      var t := s[begin..end + 1];
      assert t[..|t| - 1] == s[begin..end];
    }
  }

  /** The two scans, from the front and from the back. */
  method TrimAscii(value: string) returns (r: string)
    ensures r == Trim(value)
  {
    var begin := 0;
    while begin < |value| && Decimal.IsSpace(value[begin])
      invariant begin <= |value|
      invariant Trim(value) == Trim(value[begin..])
    {
      begin := begin + 1;
      assert value[begin - 1..][1..] == value[begin..];
    }
    var end := |value|;
    while end > begin && Decimal.IsSpace(value[end - 1])
      invariant begin <= end <= |value|
      invariant forall k :: end <= k < |value| ==> Decimal.IsSpace(value[k])
    {
      end := end - 1;
    }
    TrimEndCut(value, begin, end);
    return value[begin..end];
  }

  function LowerChar(c: char): char {
    if 'A' <= c <= 'Z' then 'a' + (c - 'A') else c
  }

  function Lower(s: string): (r: string)
    ensures |r| == |s|
    ensures forall k :: 0 <= k < |s| ==> r[k] == LowerChar(s[k])
  {
    seq(|s|, k requires 0 <= k < |s| => LowerChar(s[k]))
  }

  predicate LowerCase(s: string) {
    forall k :: 0 <= k < |s| ==> !('A' <= s[k] <= 'Z')
  }

  /** Lower-casing changes exactly the strings that hold a capital. */
  lemma LowerOf(s: string)
    ensures Lower(s) == s <==> LowerCase(s)
  {
    if Lower(s) == s {
      forall k | 0 <= k < |s| ensures !('A' <= s[k] <= 'Z') {
        assert Lower(s)[k] == s[k];
      }
    }
  }

  // ---- lists of strings --------------------------------------------------------------------------

  // the first n items that are strings with something left after trimming
  function KeptStrings(items: seq<Json>, n: nat): seq<string>
    requires n <= |items|
  {
    if n == 0 then []
    else
      var rest := KeptStrings(items, n - 1);
      if items[n - 1].Str? && Trim(items[n - 1].s) != "" then rest + [Trim(items[n - 1].s)] else rest
  }

  function StringList(node: Json): seq<string> {
    if node.Arr? then KeptStrings(node.items, |node.items|) else []
  }

  method ParseStringList(node: Json) returns (out: seq<string>)
    ensures out == StringList(node)
  {
    out := [];
    if !node.Arr? {
      return;
    }
    for k := 0 to |node.items|
      invariant out == KeptStrings(node.items, k)
    {
      if !node.items[k].Str? {
        continue;
      }
      var value := TrimAscii(node.items[k].s);
      if value != "" {
        out := out + [value];
      }
    }
  }

  function Strings(list: seq<string>): (r: Json)
    ensures r.Arr? && |r.items| == |list|
    ensures forall k :: 0 <= k < |list| ==> r.items[k] == Str(list[k])
  {
    Arr(seq(|list|, k requires 0 <= k < |list| => Str(list[k])))
  }

  predicate Tidy(list: seq<string>) {
    forall k :: 0 <= k < |list| ==> list[k] != "" && Trimmed(list[k])
  }

  lemma TidyMore(list: seq<string>, n: nat)
    requires 0 < n <= |list|
    ensures Tidy(list[..n]) <==> Tidy(list[..n - 1]) && list[n - 1] != "" && Trimmed(list[n - 1])
  {
    hide Trimmed;
    var all, less := list[..n], list[..n - 1];
    assert all == less + [list[n - 1]];
    if Tidy(all) {
      forall k | 0 <= k < |less| ensures less[k] != "" && Trimmed(less[k]) {
        assert less[k] == all[k];
      }
      assert all[n - 1] == list[n - 1];
    }
  }

  lemma {:induction false} KeptStringsOf(list: seq<string>, n: nat)
    requires n <= |list|
    ensures |KeptStrings(Strings(list).items, n)| <= n
    ensures KeptStrings(Strings(list).items, n) == list[..n] <==> Tidy(list[..n])
    decreases n
  {
    if n > 0 {
      KeptStringsOf(list, n - 1);
      TrimOf(list[n - 1]);
      TidyMore(list, n);
      hide Trim, Trimmed, Tidy;
      assert list[..n] == list[..n - 1] + [list[n - 1]];
    }
  }

  /** A list written out and read back is the same exactly if every entry is trimmed and non-empty. */
  lemma StringListOf(list: seq<string>)
    ensures StringList(Strings(list)) == list <==> Tidy(list)
  {
    KeptStringsOf(list, |list|);
    assert list[..|list|] == list;
  }
}
