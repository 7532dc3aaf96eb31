// The host side of the 64-bit bitonic sort (Bitonic64Sort.h/.cpp): which
// compute passes `sort()` records, in what order, with which constants, and
// where in the indirect-argument buffer each dispatch reads its group count.
// The shaders themselves (which fill the argument buffer and compare keys)
// are not part of this model.

module Bitonic64 {
  import opened PowerOfTwo

  /** A GPU buffer, known only by its identity. */
  type BufferId = nat

  /** Size in bytes of one `uint3` record of indirect dispatch arguments. */
  const ArgsStride: nat := 12

  /** Records in the dispatch-argument buffer: `22 * 23 / 2`. */
  const ArgsSlots: nat := 22 * 23 / 2

  /** Thread groups of the pass that writes the indirect arguments. */
  const ArgsGroups: nat := 22

  /** One compute pass with the constants the host sets on it. */
  datatype Pass =
    | IndirectArgs(maxIterations: nat, listCount: nat)
    | PreSort(listCount: nat)
    | OuterSort(listCount: nat, k: nat, j: nat)
    | InnerSort(listCount: nat)

  /** What the host records on the render context. */
  datatype Command =
    | Execute(pass: Pass, groupsX: nat)
    | Barrier(buffer: BufferId)
    | ExecuteIndirect(pass: Pass, argsOffset: nat)

  function Max(a: nat, b: nat): nat { if a >= b then a else b }

  /** `MaxNumElements`: the list length rounded up to a power of two. */
  function MaxNumElements(listCount: nat): nat
    requires listCount >= 1
  {
    NextPow2(listCount)
  }

  /** The number of merge rounds: one for the pre-sort, one per doubling of the list past 2048. */
  function MaxIterations(listCount: nat): nat
    requires listCount >= 1
  {
    Max(CeilLog2(listCount), 11) - 10
  }

  /** `MaxIterations = ceil(log2(max(2048, MaxNumElements))) - 10` counts the same rounds. */
  lemma MaxIterationsFromSource(listCount: nat)
    requires listCount >= 1
    ensures MaxIterations(listCount) == CeilLog2(Max(2048, MaxNumElements(listCount))) - 10
  {
    var e := CeilLog2(listCount);
    Pow2Thresholds();
    Pow2Order(e, 11);
    CeilLog2OfPow2(Max(e, 11));
  }

  /** The outer merges of the block with `k = 2^m`, for `j = 2^jx` halving down to 2048. */
  function OuterPasses(listCount: nat, m: nat, jx: nat): seq<Pass>
    decreases jx
  {
    if jx < 11 then [] else [OuterSort(listCount, Pow2(m), Pow2(jx))] + OuterPasses(listCount, m, jx - 1)
  }

  /** The merge blocks for `k = 4096, 8192, ..., 2^top`. */
  function BlocksUpTo(listCount: nat, top: nat): seq<Pass>
    decreases top
  {
    if top < 12 then [] else BlocksUpTo(listCount, top - 1) + Block(listCount, top)
  }

  /** The block for `k = 2^m`: its outer merges, closed by one inner sort. */
  function Block(listCount: nat, m: nat): seq<Pass>
    requires m >= 1
  {
    OuterPasses(listCount, m, m - 1) + [InnerSort(listCount)]
  }

  /** The indirect dispatches of `sort()`, in order, the pre-sort first. */
  function SortPasses(listCount: nat): seq<Pass>
    requires listCount >= 1
  {
    [PreSort(listCount)] + BlocksUpTo(listCount, CeilLog2(listCount))
  }

  /** Each indirect dispatch behind a barrier on the key list, the i-th reading argument record i. */
  function Issued(keys: BufferId, passes: seq<Pass>): seq<Command>
    decreases |passes|
  {
    if passes == [] then []
    else
      var n := |passes| - 1;
      Issued(keys, passes[..n]) + [Barrier(keys), ExecuteIndirect(passes[n], ArgsStride * n)]
  }

  lemma IssuedAppend(keys: BufferId, passes: seq<Pass>, p: Pass)
    ensures Issued(keys, passes + [p]) == Issued(keys, passes) + [Barrier(keys), ExecuteIndirect(p, ArgsStride * |passes|)]
  {
    assert (passes + [p])[..|passes|] == passes;
  }

  /** Everything `sort()` records for a list of `listCount` keys. */
  function SortCommands(keys: BufferId, listCount: nat): seq<Command>
    requires listCount >= 1
  {
    [Execute(IndirectArgs(MaxIterations(listCount), listCount), ArgsGroups)] + Issued(keys, SortPasses(listCount))
  }

  /** Argument record i feeds the i-th indirect dispatch, and a barrier on the keys precedes each one. */
  lemma {:induction false} IssuedLayout(keys: BufferId, passes: seq<Pass>)
    ensures |Issued(keys, passes)| == 2 * |passes|
    ensures forall i :: 0 <= i < |passes| ==>
      Issued(keys, passes)[2 * i] == Barrier(keys) &&
      Issued(keys, passes)[2 * i + 1] == ExecuteIndirect(passes[i], ArgsStride * i)
    decreases |passes|
  {
    if passes != [] {
      var n := |passes| - 1;
      IssuedLayout(keys, passes[..n]);
    }
  }

  /** Every command `Issued` records is a barrier or a dispatch of one of the given passes. */
  lemma {:induction false} IssuedFromPasses(keys: BufferId, passes: seq<Pass>)
    ensures forall i :: 0 <= i < |Issued(keys, passes)| ==>
      Issued(keys, passes)[i].Barrier? ||
      (Issued(keys, passes)[i].ExecuteIndirect? && Issued(keys, passes)[i].pass in passes)
    decreases |passes|
  {
    if passes != [] {
      var n := |passes| - 1;
      var pre := Issued(keys, passes[..n]);
      IssuedFromPasses(keys, passes[..n]);
      forall i | 0 <= i < |Issued(keys, passes)|
        ensures Issued(keys, passes)[i].Barrier? ||
          (Issued(keys, passes)[i].ExecuteIndirect? && Issued(keys, passes)[i].pass in passes)
      {
        if i < |pre| {
          assert Issued(keys, passes)[i] == pre[i];
          if pre[i].ExecuteIndirect? {
            var j :| 0 <= j < n && passes[..n][j] == pre[i].pass;
            assert passes[j] == pre[i].pass;
          }
        }
      }
    }
  }

  lemma {:induction false} OuterPassesLength(listCount: nat, m: nat, jx: nat)
    ensures |OuterPasses(listCount, m, jx)| == if jx < 11 then 0 else jx - 10
    decreases jx
  {
    if jx >= 11 {
      OuterPassesLength(listCount, m, jx - 1);
    }
  }

  lemma {:induction false} BlocksLength(listCount: nat, top: nat)
    requires top >= 11
    ensures |BlocksUpTo(listCount, top)| == (top - 10) * (top - 9) / 2 - 1
    decreases top
  {
    if top >= 12 {
      BlocksLength(listCount, top - 1);
      OuterPassesLength(listCount, top, top - 1);
    }
  }

  /**
   * `sort()` issues `MaxIterations * (MaxIterations + 1) / 2` indirect dispatches:
   * the pre-sort, and for the block of `k = 2^m` one outer merge per `j` from `k/2`
   * down to 2048 and one inner sort.
   */
  lemma SortPassCount(listCount: nat)
    requires listCount >= 1
    ensures |SortPasses(listCount)| == MaxIterations(listCount) * (MaxIterations(listCount) + 1) / 2
  {
    var top := CeilLog2(listCount);
    BlocksLength(listCount, Max(top, 11));
    if top < 11 {
      assert BlocksUpTo(listCount, top) == [];
    }
  }

  /** The argument buffer's 253 records cover the dispatches of every 32-bit list length. */
  lemma SortFitsArgsBuffer(listCount: nat)
    requires 1 <= listCount < 0x1_0000_0000
    ensures |SortPasses(listCount)| <= ArgsSlots
    ensures MaxIterations(listCount) <= 22
  {
    Pow2Limits();
    CeilLog2Bounded(listCount, 32);
    SortPassCount(listCount);
    TriangleMonotone(MaxIterations(listCount), 22);
  }

  lemma {:induction false} TriangleMonotone(a: nat, b: nat)
    requires a <= b
    ensures a * (a + 1) / 2 <= b * (b + 1) / 2
    decreases b - a
  {
    if a < b {
      TriangleMonotone(a, b - 1);
      assert b * (b + 1) == (b - 1) * b + 2 * b;
    }
  }

  /** A list of at most 2048 keys is sorted by the pre-sort alone. */
  lemma SmallListPreSortOnly(listCount: nat)
    requires 1 <= listCount <= 2048
    ensures SortPasses(listCount) == [PreSort(listCount)]
    ensures MaxIterations(listCount) == 1
  {
    Pow2Thresholds();
    CeilLog2Bounded(listCount, 11);
  }

  lemma {:induction false} OuterPassesConstants(listCount: nat, m: nat, jx: nat, p: Pass)
    requires p in OuterPasses(listCount, m, jx)
    ensures p.OuterSort? && p.listCount == listCount && p.k == Pow2(m)
    ensures exists b :: 11 <= b <= jx && p.j == Pow2(b)
    decreases jx
  {
    if p != OuterSort(listCount, Pow2(m), Pow2(jx)) {
      OuterPassesConstants(listCount, m, jx - 1, p);
    }
  }

  lemma {:induction false} BlocksConstants(listCount: nat, top: nat, p: Pass)
    requires p in BlocksUpTo(listCount, top)
    ensures p.InnerSort? || p.OuterSort?
    ensures p.listCount == listCount
    ensures p.OuterSort? ==> exists a, b :: 11 <= b < a <= top && p.k == Pow2(a) && p.j == Pow2(b)
    decreases top
  {
    if p in BlocksUpTo(listCount, top - 1) {
      BlocksConstants(listCount, top - 1, p);
    } else if p in OuterPasses(listCount, top, top - 1) {
      OuterPassesConstants(listCount, top, top - 1, p);
    }
  }

  /**
   * Every pass carries the list length; every outer merge has power-of-two
   * `k` and `j` with `2048 <= j < k <= MaxNumElements` and `k >= 4096`.
   */
  lemma SortPassConstants(listCount: nat, p: Pass)
    requires listCount >= 1 && p in SortPasses(listCount)
    ensures p.listCount == listCount
    ensures !p.IndirectArgs?
    ensures p.OuterSort? ==> 4096 <= p.k <= MaxNumElements(listCount) && 2048 <= p.j < p.k
    ensures p.OuterSort? ==> exists a, b :: p.k == Pow2(a) && p.j == Pow2(b)
  {
    if p != PreSort(listCount) {
      var top := CeilLog2(listCount);
      BlocksConstants(listCount, top, p);
      if p.OuterSort? {
        var a, b :| 11 <= b < a <= top && p.k == Pow2(a) && p.j == Pow2(b);
        Pow2Thresholds();
        Pow2Monotone(12, a);
        Pow2Monotone(a, top);
        Pow2Monotone(11, b);
        Pow2StrictlyIncreasing(b, a);
      }
    }
  }

  lemma BlocksStep(listCount: nat, m: nat)
    requires m >= 12
    ensures [PreSort(listCount)] + BlocksUpTo(listCount, m - 1) + Block(listCount, m)
         == [PreSort(listCount)] + BlocksUpTo(listCount, m)
  {
    assert BlocksUpTo(listCount, m) == BlocksUpTo(listCount, m - 1) + Block(listCount, m);
  }

  lemma BlocksDone(listCount: nat, m: nat, top: nat)
    requires listCount >= 1 && top == CeilLog2(listCount)
    requires 12 <= m && m - 1 <= Max(top, 11) && (top >= 12 ==> m - 1 == top)
    ensures [PreSort(listCount)] + BlocksUpTo(listCount, m - 1) == SortPasses(listCount)
  {
    if top < 12 {
      assert BlocksUpTo(listCount, top) == [] == BlocksUpTo(listCount, m - 1);
    }
  }

  lemma OuterStep(listCount: nat, m: nat, jx: nat, passes0: seq<Pass>, before: seq<Pass>)
    requires 11 <= jx < m
    requires before + OuterPasses(listCount, m, jx) == passes0 + OuterPasses(listCount, m, m - 1)
    ensures (before + [OuterSort(listCount, Pow2(m), Pow2(jx))]) + OuterPasses(listCount, m, jx - 1)
         == passes0 + OuterPasses(listCount, m, m - 1)
  {
    assert OuterPasses(listCount, m, jx) == [OuterSort(listCount, Pow2(m), Pow2(jx))] + OuterPasses(listCount, m, jx - 1);
  }

  lemma BlockClosed(listCount: nat, m: nat, passes0: seq<Pass>, outer: seq<Pass>)
    requires m >= 1
    requires outer + OuterPasses(listCount, m, 10) == passes0 + OuterPasses(listCount, m, m - 1)
    ensures outer + [InnerSort(listCount)] == passes0 + Block(listCount, m)
  {
    assert OuterPasses(listCount, m, 10) == [];
    assert outer + [] == outer;
  }

  /** The sorter: a key/index list, its length, and the argument buffer it owns. */
  class Sorter {
    /** `ElementSizeBytes`: the keys are 64-bit. */
    const elementSizeBytes: nat
    /** The sorted buffer (`KeyIndexList`), bound to all three sorting passes. */
    const keyIndexList: BufferId
    /** Number of `uint3` records in `DispatchArgs`. */
    const dispatchArgsSlots: nat
    var listCount: nat

    constructor (keyIndexList: BufferId, listCount: nat)
      ensures this.keyIndexList == keyIndexList && this.listCount == listCount
      ensures elementSizeBytes == 8 && dispatchArgsSlots == ArgsSlots
    {
      this.elementSizeBytes := 8;
      this.keyIndexList := keyIndexList;
      this.dispatchArgsSlots := ArgsSlots;
      this.listCount := listCount;
    }

    /** `setListCount`: only the count changes; the sorted buffer stays the one given at construction. */
    method SetListCount(n: nat)
      modifies this`listCount
      ensures listCount == n
    {
      listCount := n;
    }

    /** `sort()`: records the argument pass, the pre-sort and every merge block. */
    method Sort() returns (cmds: seq<Command>)
      requires 1 <= listCount <= 0x4000_0000
      ensures cmds == SortCommands(keyIndexList, listCount)
    {
      Pow2Thresholds();
      var top := CeilLog2(listCount);
      var maxNumElements := NextPow2(listCount);
      var alignedMaxNumElements := maxNumElements;
      var maxIterations := CeilLog2(Max(2048, maxNumElements)) - 10;
      MaxIterationsFromSource(listCount);
      var head := [Execute(IndirectArgs(maxIterations, listCount), ArgsGroups)];

      ghost var passes := [PreSort(listCount)];
      IssuedAppend(keyIndexList, [], PreSort(listCount));
      cmds := head + [Barrier(keyIndexList), ExecuteIndirect(PreSort(listCount), 0)];
      var indirectArgsOffset := ArgsStride;

      var k := 4096;
      ghost var m: nat := 12;
      while k <= alignedMaxNumElements
        invariant k == Pow2(m) && 12 <= m && m - 1 <= Max(top, 11)
        invariant passes == [PreSort(listCount)] + BlocksUpTo(listCount, m - 1)
        invariant indirectArgsOffset == ArgsStride * |passes|
        invariant cmds == head + Issued(keyIndexList, passes)
        decreases alignedMaxNumElements as int - k
      {
        Pow2Order(m, top);
        cmds, indirectArgsOffset, passes := RecordBlock(k, m, cmds, head, indirectArgsOffset, passes);
        BlocksStep(listCount, m);
        k := k * 2;
        m := m + 1;
      }
      Pow2Order(m, top);
      BlocksDone(listCount, m, top);
    }

    /** One iteration of the `k` loop of `sort()`: the outer merges for `j = k/2 ... 2048`, then the inner sort. */
    method RecordBlock(k: nat, ghost m: nat, cmds0: seq<Command>, ghost head: seq<Command>, offset0: nat, ghost passes0: seq<Pass>)
      returns (cmds: seq<Command>, indirectArgsOffset: nat, ghost passes: seq<Pass>)
      requires k == Pow2(m) && m >= 12
      requires offset0 == ArgsStride * |passes0| && cmds0 == head + Issued(keyIndexList, passes0)
      ensures passes == passes0 + Block(listCount, m)
      ensures indirectArgsOffset == ArgsStride * |passes|
      ensures cmds == head + Issued(keyIndexList, passes)
    {
      Pow2Thresholds();
      cmds, indirectArgsOffset, passes := cmds0, offset0, passes0;
      var j := k / 2;
      ghost var jx: nat := m - 1;
      while j >= 2048
        invariant j == Pow2(jx) && 10 <= jx <= m - 1
        invariant passes + OuterPasses(listCount, m, jx) == passes0 + OuterPasses(listCount, m, m - 1)
        invariant indirectArgsOffset == ArgsStride * |passes|
        invariant cmds == head + Issued(keyIndexList, passes)
        decreases j
      {
        Pow2Order(11, jx);
        OuterStep(listCount, m, jx, passes0, passes);
        cmds, indirectArgsOffset, passes := RecordPass(OuterSort(listCount, k, j), cmds, head, indirectArgsOffset, passes);
        j := j / 2;
        jx := jx - 1;
      }
      Pow2Order(11, jx);
      ghost var outer := passes;
      cmds, indirectArgsOffset, passes := RecordPass(InnerSort(listCount), cmds, head, indirectArgsOffset, passes);
      BlockClosed(listCount, m, passes0, outer);
    }

    /** One barrier and one indirect dispatch reading the next argument record. */
    method RecordPass(p: Pass, cmds0: seq<Command>, ghost head: seq<Command>, offset0: nat, ghost passes0: seq<Pass>)
      returns (cmds: seq<Command>, indirectArgsOffset: nat, ghost passes: seq<Pass>)
      requires offset0 == ArgsStride * |passes0| && cmds0 == head + Issued(keyIndexList, passes0)
      ensures passes == passes0 + [p]
      ensures indirectArgsOffset == ArgsStride * |passes|
      ensures cmds == head + Issued(keyIndexList, passes)
    {
      IssuedAppend(keyIndexList, passes0, p);
      cmds := cmds0 + [Barrier(keyIndexList), ExecuteIndirect(p, offset0)];
      passes := passes0 + [p];
      indirectArgsOffset := offset0 + ArgsStride;
    }
  }
}
