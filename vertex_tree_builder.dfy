// The host side of the light-vertex tree builder (VertexTreeBuilder.h/.cpp).
//
// The tree is a complete binary tree stored level by level: level 0 holds the
// leaves (one per sorted light vertex, padded to a power of two), level
// `treeLevels - 1` the root, and level `l` holds `2^(treeLevels - 1 - l)`
// nodes.  `build()` fills level 0 from the sorted key/index list, then fills
// the internal levels bottom-up, several levels per dispatch while the
// dispatch stays small.  The shaders themselves are not part of this model.

module VertexTree {
  import opened PowerOfTwo

  /** A GPU buffer, known only by its identity. */
  type BufferId = nat

  /** `maxWorkLoad`: the source-level width up to which levels share a dispatch. */
  const MaxWorkLoad: nat := 2048

  /** The constants of one `GenInternalLevel` dispatch. */
  datatype LevelPass = LevelPass(srcLevel: nat, dstLevelStart: nat, dstLevelEnd: nat, numLevels: nat, numDstLevelsNodes: nat)

  /** What the host records on the render context. */
  datatype Command =
    | Barrier(buffer: BufferId)
    | GenLevelZero(numLeafNodes: nat, numLevels: nat, counter: nat, threads: nat)
    | GenInternalLevel(pass: LevelPass, threads: nat)


  /** `leafNodesNum` for a vertex count: zero, or the count rounded up to a power of two. */
  function LeafNodes(counter: nat): (r: nat)
    ensures counter <= r
    ensures counter >= 1 ==> r < 2 * counter && r == Pow2(CeilLog2(counter))
  {
    if counter == 0 then 0 else NextPow2(counter)
  }

  /** Nodes on level `l` (level 0 being the leaves) of a tree with `levels` levels. */
  function LevelWidth(levels: nat, l: nat): nat
    requires l < levels
  {
    Pow2(levels - 1 - l)
  }

  /** Nodes on levels `a .. b-1`. */
  function LevelsWidth(levels: nat, a: nat, b: nat): nat
    requires a <= b <= levels
    decreases b - a
  {
    if a == b then 0 else LevelWidth(levels, a) + LevelsWidth(levels, a + 1, b)
  }

  lemma {:induction false} QuotientFromBounds(n: nat, w: nat, q: nat)
    requires w >= 1 && q * w <= n < (q + 1) * w
    ensures n / w == q
  {
    var d := n / w;
    DivBounds(n, w);
    if d < q {
      MulMonotone(d + 1, q, w);
    } else if q < d {
      MulMonotone(q + 1, d, w);
    }
  }

  /**
   * The `dstLevelEnd` that `GenInternalLevel` picks for a dispatch starting at
   * `start`: levels are added while the accumulated source width stays within
   * `MaxWorkLoad`, plus the level that crosses it, and never past the root.
   */
  function GroupEnd(levels: nat, start: nat): (r: nat)
    requires 1 <= start < levels
    ensures start < r <= levels
    ensures (r - start - 1) * Pow2(levels - start) <= MaxWorkLoad
    ensures r == levels || (r - start) * Pow2(levels - start) > MaxWorkLoad
  {
    var w := Pow2(levels - start);
    var q := MaxWorkLoad / w;
    DivBounds(MaxWorkLoad, w);
    if start + q + 1 <= levels then
      start + q + 1
    else
      MulMonotone(levels - start - 1, q, w);
      levels
  }

  /** The dispatches of `GenInternalLevel` from destination level `start` up to the root. */
  function InternalPasses(levels: nat, start: nat): seq<LevelPass>
    requires start >= 1
    decreases levels - start
  {
    if start >= levels then []
    else
      var end := GroupEnd(levels, start);
      Pow2StrictlyIncreasing(levels - end, levels - start);
      [LevelPass(start - 1, start, end, levels, Pow2(levels - start) - Pow2(levels - end))] + InternalPasses(levels, end)
  }

  /** Each dispatch behind a barrier on the node buffer, one thread per destination node. */
  function Dispatched(nodes: BufferId, passes: seq<LevelPass>): seq<Command>
    decreases |passes|
  {
    if passes == [] then []
    else
      var n := |passes| - 1;
      Dispatched(nodes, passes[..n]) + [Barrier(nodes), GenInternalLevel(passes[n], passes[n].numDstLevelsNodes)]
  }

  lemma DispatchedAppend(nodes: BufferId, passes: seq<LevelPass>, p: LevelPass)
    ensures Dispatched(nodes, passes + [p]) == Dispatched(nodes, passes) + [Barrier(nodes), GenInternalLevel(p, p.numDstLevelsNodes)]
  {
    assert (passes + [p])[..|passes|] == passes;
  }

  /** The inner loop of `GenInternalLevel` stops at `GroupEnd`. */
  lemma GroupEndOfLoop(levels: nat, start: nat, end: nat, broke: bool)
    requires 1 <= start < end <= levels
    requires (end - start - 1) * Pow2(levels - start) <= MaxWorkLoad
    requires broke ==> (end - start) * Pow2(levels - start) > MaxWorkLoad && end < levels
    requires !broke ==> end == levels
    ensures end == GroupEnd(levels, start)
  {
    var w := Pow2(levels - start);
    if broke {
      QuotientFromBounds(MaxWorkLoad, w, end - start - 1);
    } else {
      var q := MaxWorkLoad / w;
      DivBounds(MaxWorkLoad, w);
      if q < end - start - 1 {
        MulMonotone(q + 1, end - start - 1, w);
      }
    }
  }

  /** One dispatch of `GenInternalLevel` taken off the front of the remaining ones. */
  lemma InternalPassesStep(levels: nat, start: nat, end: nat, p: LevelPass, done: seq<LevelPass>)
    requires 1 <= start < levels && end == GroupEnd(levels, start)
    requires p == LevelPass(start - 1, start, end, levels, p.numDstLevelsNodes)
    requires p.numDstLevelsNodes + Pow2(levels - end) == Pow2(levels - start)
    ensures done + InternalPasses(levels, start) == (done + [p]) + InternalPasses(levels, end)
  {
    var rest := InternalPasses(levels, end);
    assert p.numDstLevelsNodes == Pow2(levels - start) - Pow2(levels - end);
    assert InternalPasses(levels, start) == [p] + rest;
    assert done + ([p] + rest) == (done + [p]) + rest;
  }

  /**
   * The inner loop of `GenInternalLevel`: starting one level above the
   * source, it adds destination levels while the accumulated source width
   * stays within `MaxWorkLoad`.
   */
  method ScanGroupEnd(levels: nat, dstLevelStart: nat) returns (dstLevelEnd: nat)
    requires 1 <= dstLevelStart < levels
    ensures dstLevelEnd == GroupEnd(levels, dstLevelStart)
  {
    var srcLevel := dstLevelStart - 1;
    dstLevelEnd := dstLevelStart + 1;
    var workLoad := 0;
    ghost var broke := false;
    ghost var w := Pow2(levels - 1 - srcLevel);
    while dstLevelEnd < levels
      invariant dstLevelStart < dstLevelEnd <= levels
      invariant workLoad == (dstLevelEnd - dstLevelStart - 1) * w
      invariant workLoad <= MaxWorkLoad
      decreases levels - dstLevelEnd
    {
      assert (dstLevelEnd - dstLevelStart) * w == (dstLevelEnd - dstLevelStart - 1) * w + w;
      workLoad := workLoad + Pow2(levels - 1 - srcLevel);
      if workLoad > MaxWorkLoad {
        broke := true;
        break;
      }
      dstLevelEnd := dstLevelEnd + 1;
    }
    GroupEndOfLoop(levels, dstLevelStart, dstLevelEnd, broke);
  }

  /**
   * The dispatches cover the internal levels `1 .. levels-1` once each, in
   * order: each reads the level just below its first destination level and
   * the next one starts where it ends.
   */
  lemma {:induction false} PassesPartitionLevels(levels: nat, start: nat)
    requires 1 <= start
    ensures var ps := InternalPasses(levels, start);
      && (ps == [] <==> start >= levels)
      && (ps != [] ==> ps[0].dstLevelStart == start && ps[|ps| - 1].dstLevelEnd == levels)
      && (forall i :: 0 <= i < |ps| ==>
            ps[i].srcLevel + 1 == ps[i].dstLevelStart < ps[i].dstLevelEnd <= levels && ps[i].numLevels == levels)
      && (forall i :: 0 <= i < |ps| - 1 ==> ps[i].dstLevelEnd == ps[i + 1].dstLevelStart)
    decreases levels - start
  {
    if start < levels {
      PassesPartitionLevels(levels, GroupEnd(levels, start));
    }
  }

  /** `(1 << (L - a)) - (1 << (L - b))` counts the nodes of levels `a .. b-1`. */
  lemma {:induction false} LevelsWidthClosedForm(levels: nat, a: nat, b: nat)
    requires a <= b <= levels
    ensures LevelsWidth(levels, a, b) + Pow2(levels - b) == Pow2(levels - a)
    decreases b - a
  {
    if a < b {
      LevelsWidthClosedForm(levels, a + 1, b);
    }
  }

  /** Each dispatch runs exactly one thread per node of its destination levels. */
  lemma {:induction false} PassThreadsAreDestinationNodes(levels: nat, start: nat, i: nat)
    requires 1 <= start && i < |InternalPasses(levels, start)|
    ensures var p := InternalPasses(levels, start)[i];
      p.dstLevelStart <= p.dstLevelEnd <= levels &&
      p.numDstLevelsNodes == LevelsWidth(levels, p.dstLevelStart, p.dstLevelEnd)
    decreases levels - start
  {
    var end := GroupEnd(levels, start);
    if i == 0 {
      LevelsWidthClosedForm(levels, start, end);
    } else {
      PassThreadsAreDestinationNodes(levels, end, i - 1);
    }
  }

  function SumNodes(passes: seq<LevelPass>): nat
  {
    if passes == [] then 0 else passes[0].numDstLevelsNodes + SumNodes(passes[1..])
  }

  /** Together the dispatches build every internal node once: `2^(L-1) - 1` of them. */
  lemma {:induction false} PassesBuildAllInternalNodes(levels: nat, start: nat)
    requires 1 <= start <= levels
    ensures SumNodes(InternalPasses(levels, start)) + 1 == Pow2(levels - start)
    decreases levels - start
  {
    if start < levels {
      var end := GroupEnd(levels, start);
      PassesBuildAllInternalNodes(levels, end);
      assert InternalPasses(levels, start)[1..] == InternalPasses(levels, end);
    }
  }

  /** A source level wider than `MaxWorkLoad` nodes gets a dispatch of its own. */
  lemma WideLevelAlone(levels: nat, start: nat)
    requires 1 <= start < levels && Pow2(levels - start) > MaxWorkLoad
    ensures GroupEnd(levels, start) == start + 1
  {
  }

  /** The tree for any vertex count up to the construction bound fits the node buffer. */
  lemma TreeFitsNodeBuffer(counter: nat, maxCounter: nat)
    requires 1 <= counter <= maxCounter
    ensures 2 * LeafNodes(counter) <= 2 * NextPow2(maxCounter)
    ensures Pow2(CeilLog2(counter)) == LeafNodes(counter) >= counter
  {
    NextPow2Monotone(counter, maxCounter);
  }

  class Builder {
    /** `KeyIndexBuffer`: the sorted key/index list the leaves are read from. */
    const keyIndexBuffer: BufferId
    /** `VertexBuffer`: the light vertices the leaves summarise. */
    const vertexBuffer: BufferId
    /** `Nodes`: the tree. */
    const nodes: BufferId
    /** The vertex count the node buffer was sized for. */
    const maxCounter: nat
    /** Elements of `Nodes`: `maxNodesNum`. */
    const nodesCapacity: nat

    var realLeafNodesNum: nat
    var leafNodesNum: nat
    var nodesNum: nat
    var treeLevels: nat

    /** The node buffer holds a full tree over `maxCounter` leaves. */
    ghost predicate Sized()
    {
      maxCounter >= 1 && nodesCapacity == 2 * NextPow2(maxCounter)
    }

    /** The state `update` leaves: level 0 has `leafNodesNum` leaves, enough for every vertex. */
    ghost predicate Updated()
      reads this
    {
      1 <= treeLevels && leafNodesNum == Pow2(treeLevels - 1) && nodesNum == 2 * leafNodesNum &&
      1 <= realLeafNodesNum <= leafNodesNum
    }

    /** The constructor sizes the node buffer for `maxCounter` leaves; the counters start unset (zero here). */
    constructor (keyIndexBuffer: BufferId, vertexBuffer: BufferId, nodes: BufferId, maxCounter: nat)
      requires maxCounter >= 1
      ensures this.keyIndexBuffer == keyIndexBuffer && this.vertexBuffer == vertexBuffer && this.nodes == nodes
      ensures this.maxCounter == maxCounter
      ensures Sized() && nodesCapacity >= 2 * maxCounter
    {
      var maxTreeLevels := CeilLog2(maxCounter) + 1;
      var maxLeafNodesNum := Pow2(maxTreeLevels - 1);
      var maxNodesNum := maxLeafNodesNum * 2;
      this.keyIndexBuffer := keyIndexBuffer;
      this.vertexBuffer := vertexBuffer;
      this.nodes := nodes;
      this.maxCounter := maxCounter;
      this.nodesCapacity := maxNodesNum;
      realLeafNodesNum, leafNodesNum, nodesNum, treeLevels := 0, 0, 0, 0;
    }

    /** `update(counter)`: sizes the tree for `counter` sorted light vertices. */
    method Update(counter: nat)
      requires Sized() && counter >= 1
      modifies this`realLeafNodesNum, this`leafNodesNum, this`nodesNum, this`treeLevels
      ensures realLeafNodesNum == counter && leafNodesNum == LeafNodes(counter)
      ensures treeLevels == CeilLog2(counter) + 1 && nodesNum == 2 * leafNodesNum
      ensures Updated()
      ensures counter <= maxCounter ==> nodesNum <= nodesCapacity
    {
      realLeafNodesNum := counter;
      leafNodesNum := LeafNodes(counter);
      treeLevels := CeilLog2(counter) + 1;
      nodesNum := leafNodesNum * 2;
      if counter <= maxCounter {
        TreeFitsNodeBuffer(counter, maxCounter);
      }
    }

    /** `getLeafNodeStartIndex()`. */
    function LeafNodeStartIndex(): nat
      reads this
    {
      leafNodesNum
    }

    /** `GenLevelZero`: one thread per leaf slot, every real vertex among them. */
    method GenLevelZeroPass() returns (cmd: Command)
      requires Updated()
      ensures cmd == GenLevelZero(leafNodesNum, treeLevels, realLeafNodesNum, leafNodesNum)
      ensures cmd.threads == LevelWidth(treeLevels, 0) && cmd.counter <= cmd.threads
    {
      cmd := GenLevelZero(leafNodesNum, treeLevels, realLeafNodesNum, leafNodesNum);
    }

    /** `GenInternalLevel`: the internal levels, bottom-up, several per dispatch while they stay small. */
    method GenInternalLevelPasses() returns (cmds: seq<Command>)
      requires 1 <= treeLevels <= 31
      ensures cmds == Dispatched(nodes, InternalPasses(treeLevels, 1))
    {
      var levels := treeLevels;
      cmds := [];
      ghost var done: seq<LevelPass> := [];
      var srcLevel := 0;
      var dstLevelStart := 1;
      while dstLevelStart < levels
        invariant 1 <= dstLevelStart <= levels
        invariant srcLevel + 1 == dstLevelStart
        invariant done + InternalPasses(levels, dstLevelStart) == InternalPasses(levels, 1)
        invariant cmds == Dispatched(nodes, done)
        decreases levels - dstLevelStart
      {
        var dstLevelEnd := ScanGroupEnd(levels, dstLevelStart);
        Pow2StrictlyIncreasing(levels - dstLevelEnd, levels - dstLevelStart);
        var numDstLevelsNodes := Pow2(levels - dstLevelStart) - Pow2(levels - dstLevelEnd);
        var p := LevelPass(srcLevel, dstLevelStart, dstLevelEnd, levels, numDstLevelsNodes);
        InternalPassesStep(levels, dstLevelStart, dstLevelEnd, p, done);
        DispatchedAppend(nodes, done, p);
        cmds := cmds + [Barrier(nodes), GenInternalLevel(p, numDstLevelsNodes)];
        done := done + [p];
        srcLevel := dstLevelEnd - 1;
        dstLevelStart := dstLevelEnd;
      }
      assert InternalPasses(levels, dstLevelStart) == [];
      assert done + [] == done;
    }

    /** `build()`: a barrier on the sorted keys, level zero, then the internal levels. */
    method Build() returns (cmds: seq<Command>)
      requires Updated() && treeLevels <= 31
      ensures cmds == [Barrier(keyIndexBuffer), GenLevelZero(leafNodesNum, treeLevels, realLeafNodesNum, leafNodesNum)]
                      + Dispatched(nodes, InternalPasses(treeLevels, 1))
    {
      var zero := GenLevelZeroPass();
      var internal := GenInternalLevelPasses();
      cmds := [Barrier(keyIndexBuffer), zero] + internal;
    }
  }
}
