/**
 The fixed-block memory pool: one chunk cut into equal blocks, a stack of free ones. A pointer
 is its offset into the chunk; null is None. Nothing stops a caller from releasing what it
 does not hold, so the last part says exactly which releases do harm.
 */
module MemoryPool {
  import opened Wrappers

  function Blocks(size: nat, count: nat): (r: seq<int>)
    ensures |r| == count && forall i :: 0 <= i < count ==> r[i] == i * size
  {
    seq(count, i requires 0 <= i < count => i * size)
  }

  datatype State = State(free: seq<int>, out: multiset<int>)

  datatype Op = Acquire | Release(p: Option<int>)

  // the checks a release makes before it puts the pointer back
  predicate TakesBack(size: nat, count: nat, s: State, p: Option<int>) {
    p.Some? && size > 0 && count > 0 && 0 <= p.value < size * count && p.value % size == 0 && |s.free| < count
  }

  function Next(size: nat, count: nat, s: State, op: Op): State {
    match op
    case Acquire =>
      if s.free == [] then s
      else State(s.free[..|s.free| - 1], s.out + multiset{s.free[|s.free| - 1]})
    case Release(p) =>
      if TakesBack(size, count, s, p) then State(s.free + [p.value], s.out - multiset{p.value}) else s
  }

  // every block is either free or out, and only once
  predicate Partitioned(size: nat, count: nat, s: State) {
    multiset(s.free) + s.out == multiset(Blocks(size, count))
  }

  class Pool {
    const blockSize: nat
    const blockCount: nat
    var freeList: seq<int>
    ghost var out: multiset<int>

    ghost function View(): State
      reads this
    {
      State(freeList, out)
    }

    constructor (size: nat, count: nat)
      ensures blockSize == size && blockCount == (if size == 0 then 0 else count)
      ensures out == multiset{} && Partitioned(blockSize, blockCount, View())
    {
      blockSize := size;
      blockCount := if size == 0 || count == 0 then 0 else count;
      out := multiset{};
      new;
      freeList := [];
      for i := 0 to blockCount
        invariant freeList == Blocks(blockSize, blockCount)[..i] && out == multiset{}
      {
        freeList := freeList + [i * blockSize];
      }
      assert freeList == Blocks(blockSize, blockCount);
    }

    method Acquire() returns (p: Option<int>)
      modifies this
      ensures View() == Next(blockSize, blockCount, old(View()), Op.Acquire)
      ensures p == if old(freeList) == [] then None else Some(old(freeList)[|old(freeList)| - 1])
    {
      if freeList == [] {
        return None;
      }
      var top := freeList[|freeList| - 1];
      freeList := freeList[..|freeList| - 1];
      out := out + multiset{top};
      return Some(top);
    }

    method Release(p: Option<int>)
      modifies this
      ensures View() == Next(blockSize, blockCount, old(View()), Op.Release(p))
    {
      if p.None? {
        return;
      }
      if blockSize == 0 || blockCount == 0 {
        return;
      }
      if p.value < 0 || p.value >= blockSize * blockCount {
        return;
      }
      if p.value % blockSize != 0 {
        return;
      }
      if |freeList| >= blockCount {
        return;
      }
      freeList := freeList + [p.value];
      out := out - multiset{p.value};
    }
  }

  // blocks i and j do not overlap
  lemma BlocksApart(i: int, j: int, size: nat)
    requires i < j
    ensures i * size + size <= j * size
  {
    assert j * size == i * size + size + (j - i - 1) * size;
    assert (j - i - 1) * size >= 0;
  }

  lemma {:induction false} BlocksDistinct(size: nat, count: nat, x: int)
    requires size > 0
    ensures multiset(Blocks(size, count))[x] <= 1
    decreases count
  {
    if count > 0 {
      BlocksDistinct(size, count - 1, x);
      var last := (count - 1) * size;
      assert Blocks(size, count) == Blocks(size, count - 1) + [last];
      forall i | 0 <= i < count - 1 ensures i * size < last {
        BlocksApart(i, count - 1, size);
      }
      assert last !in Blocks(size, count - 1);
    }
  }

  /** While the pool is partitioned, acquiring fails exactly if every block is out. */
  lemma AcquireFailsExactly(size: nat, count: nat, s: State)
    requires Partitioned(size, count, s)
    ensures s.free == [] <==> s.out == multiset(Blocks(size, count))
  {
    if s.out == multiset(Blocks(size, count)) {
      assert |multiset(s.free)| == 0;
    }
  }

  /** A block handed out lies inside the chunk and overlaps none that is already out. */
  lemma AcquiredIsFresh(size: nat, count: nat, s: State, q: int)
    requires size > 0 && Partitioned(size, count, s) && s.free != [] && q in s.out
    ensures var p := s.free[|s.free| - 1];
      0 <= p && p + size <= count * size && (p + size <= q || q + size <= p)
  {
    var p, blocks := s.free[|s.free| - 1], Blocks(size, count);
    assert p in multiset(s.free);
    assert p in multiset(blocks) && q in multiset(blocks);
    var i :| 0 <= i < count && blocks[i] == p;
    var j :| 0 <= j < count && blocks[j] == q;
    BlocksDistinct(size, count, p);
    assert p != q;
    BlocksApart(i, count, size);
    if i < j {
      BlocksApart(i, j, size);
    } else {
      BlocksApart(j, i, size);
    }
  }

  // ---- whole runs --------------------------------------------------------------------------------

  function StateAt(size: nat, count: nat, ops: seq<Op>, n: nat): State
    requires n <= |ops|
  {
    if n == 0 then State(Blocks(size, count), multiset{})
    else Next(size, count, StateAt(size, count, ops, n - 1), ops[n - 1])
  }

  // the release puts back a pointer that is not out
  predicate Harmful(size: nat, count: nat, s: State, op: Op) {
    op.Release? && TakesBack(size, count, s, op.p) && op.p.value !in s.out
  }

  lemma AcquireKeeps(size: nat, count: nat, s: State)
    requires Partitioned(size, count, s)
    ensures Partitioned(size, count, Next(size, count, s, Acquire))
  {
    hide Blocks;
    if s.free != [] {
      assert s.free == s.free[..|s.free| - 1] + [s.free[|s.free| - 1]];
    }
  }

  lemma ReleaseKeepsExactly(size: nat, count: nat, s: State, p: int)
    requires Partitioned(size, count, s)
    ensures Partitioned(size, count, State(s.free + [p], s.out - multiset{p})) <==> p in s.out
  {
    hide Blocks;
    if p !in s.out {
      assert s.out - multiset{p} == s.out;
      assert |multiset(s.free + [p]) + s.out| == |multiset(s.free) + s.out| + 1;
    }
  }

  lemma PartitionStep(size: nat, count: nat, s: State, op: Op)
    requires Partitioned(size, count, s)
    ensures Partitioned(size, count, Next(size, count, s, op)) <==> !Harmful(size, count, s, op)
  {
    hide Partitioned;
    if op.Acquire? {
      AcquireKeeps(size, count, s);
    } else if TakesBack(size, count, s, op.p) {
      ReleaseKeepsExactly(size, count, s, op.p.value);
    }
  }

  ghost predicate StaysPartitioned(size: nat, count: nat, ops: seq<Op>, n: nat)
    requires n <= |ops|
  {
    forall k: nat :: k <= n ==> Partitioned(size, count, StateAt(size, count, ops, k))
  }

  ghost predicate Harmless(size: nat, count: nat, ops: seq<Op>, n: nat)
    requires n <= |ops|
  {
    forall k: nat :: k < n ==> !Harmful(size, count, StateAt(size, count, ops, k), ops[k])
  }

  /** The pool stays partitioned throughout a run exactly if no release in it puts back a pointer that is not out. */
  lemma {:induction false} PartitionedExactly(size: nat, count: nat, ops: seq<Op>, n: nat)
    requires n <= |ops|
    ensures StaysPartitioned(size, count, ops, n) <==> Harmless(size, count, ops, n)
    decreases n
  {
    hide Partitioned, Harmful, Next, StateAt;
    if n == 0 {
      PartitionedFirst(size, count, ops);
    } else {
      PartitionedExactly(size, count, ops, n - 1);
      var s, t := StateAt(size, count, ops, n - 1), StateAt(size, count, ops, n);
      assert t == Next(size, count, s, ops[n - 1]) by { StateAtNext(size, count, ops, n); }
      assert StaysPartitioned(size, count, ops, n) <==> StaysPartitioned(size, count, ops, n - 1) && Partitioned(size, count, t);
      assert Harmless(size, count, ops, n) <==> Harmless(size, count, ops, n - 1) && !Harmful(size, count, s, ops[n - 1]);
      if Partitioned(size, count, s) {
        PartitionStep(size, count, s, ops[n - 1]);
      }
    }
  }

  lemma StateAtNext(size: nat, count: nat, ops: seq<Op>, n: nat)
    requires 0 < n <= |ops|
    ensures StateAt(size, count, ops, n) == Next(size, count, StateAt(size, count, ops, n - 1), ops[n - 1])
  {
  }

  lemma PartitionedFirst(size: nat, count: nat, ops: seq<Op>)
    ensures Partitioned(size, count, StateAt(size, count, ops, 0))
  {
  }

  function SharingOps(): seq<Op> {
    [Acquire, Acquire, Release(Some(0)), Release(Some(0)), Acquire, Acquire]
  }

  function SharingState(size: nat, i: nat): State {
    if i == 1 || i == 3 then State([0], multiset{size})
    else if i == 2 then State([], multiset{0, size})
    else if i == 4 then State([0, 0], multiset{size})
    else if i == 5 then State([0], multiset{0, size})
    else if i == 6 then State([], multiset{0, 0, size})
    else State([0, size], multiset{})
  }

  lemma SharingAcquire(size: nat, i: nat)
    requires i == 0 || i == 1 || i == 4 || i == 5
    ensures Next(size, 2, SharingState(size, i), Acquire) == SharingState(size, i + 1)
  {
    var s := SharingState(size, i);
    assert s.free[..|s.free| - 1] == SharingState(size, i + 1).free;
  }

  lemma SharingRelease(size: nat, i: nat)
    requires size > 0 && (i == 2 || i == 3)
    ensures Next(size, 2, SharingState(size, i), Release(Some(0))) == SharingState(size, i + 1)
  {
    var s := SharingState(size, i);
    assert s.out - multiset{0} == multiset{size} && s.free + [0] == SharingState(size, i + 1).free;
  }

  lemma {:induction false} SharingStates(size: nat, n: nat)
    requires size > 0 && n <= 6
    ensures StateAt(size, 2, SharingOps(), n) == SharingState(size, n)
    decreases n
  {
    if n == 0 {
      assert Blocks(size, 2) == [0, size];
    } else {
      hide Next, SharingState;
      SharingStates(size, n - 1);
      if n == 3 || n == 4 {
        SharingRelease(size, n - 1);
      } else {
        SharingAcquire(size, n - 1);
      }
    }
  }

  /** With both blocks of a pool out, releasing one twice makes the next two acquirers share it. */
  lemma DoubleReleaseShares(size: nat)
    requires size > 0
    ensures Harmful(size, 2, StateAt(size, 2, SharingOps(), 3), SharingOps()[3])
    ensures StateAt(size, 2, SharingOps(), 6).out == multiset{0, 0, size}
  {
    hide StateAt;
    SharingStates(size, 3);
    SharingStates(size, 6);
  }
}
