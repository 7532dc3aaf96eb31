// The host side of the Morton-code key generation (MordenCode.h/.cpp, class
// `MordenCodeSort`): the bounding-box reduction chains that find the maximum
// and minimum corner of the light-vertex positions, and the dispatch that
// turns each position into a Morton key.  The reduction and encoding shaders
// are not part of this model.

module MortonCode {

  /** Values one reduction group folds into one. */
  const GroupSize: nat := 2048

  /** `quantLevels = 1 << 10`: quantisation steps per axis of the Morton code. */
  const QuantLevels: nat := 1024

  /** The largest count for which `count + 2047` does not wrap around 32 bits. */
  const MaxCount: nat := 0x1_0000_0000 - GroupSize

  /** The buffers the pass touches. */
  datatype Buffer =
    | PositionBuffer        // the light-vertex positions (`positionBuffer`)
    | PositionCounter       // its append counter
    | BBoxReduction(i: nat) // `bboxReductionBuffer[i]`, i in {0, 1}
    | PositionBound         // `positionBound`: the scene bound, two float4
    | KeyIndexList          // the Morton keys

  datatype Reduction = FindMax | FindMin

  /** The constants and bindings of one reduction dispatch. */
  datatype ReducePass = ReducePass(n: nat, isLastPass: bool, src: Buffer, dst: Buffer)

  /** What the host records on the render context. */
  datatype Command =
    | Barrier(buffer: Buffer)
    | ReadCounter
    | Reduce(op: Reduction, pass: ReducePass, threads: nat)
    | ClearKeys
    | GenMortonCodes(num: nat, quantLevels: nat, threads: nat)

  /** `(count + 2047) / 2048`: the groups a pass over `n` values produces. */
  function Groups(n: nat): nat
  {
    (n + GroupSize - 1) / GroupSize
  }

  /**
   * A reduction written as a loop: fold `n` values group by group until one
   * group remains, pass `i` writing `bboxReductionBuffer[(i + 1) % 2]` and
   * reading what pass `i - 1` wrote; only the pass over at most one group
   * writes the scene bound.
   */
  function ReferenceChain(n: nat, i: nat, src: Buffer): seq<ReducePass>
    decreases n
  {
    var dst := BBoxReduction((i + 1) % 2);
    if n <= GroupSize then [ReducePass(n, true, src, dst)]
    else [ReducePass(n, false, src, dst)] + ReferenceChain(Groups(n), i + 1, dst)
  }

  /** The passes of one chain with their barriers: the given ones before the first, both scratch buffers before each later one. */
  function ChainCommands(op: Reduction, passes: seq<ReducePass>, firstBarriers: seq<Command>): seq<Command>
  {
    if passes == [] then []
    else
      firstBarriers + [Reduce(op, passes[0], passes[0].n)]
      + ChainCommands(op, passes[1..], [Barrier(BBoxReduction(1)), Barrier(BBoxReduction(0))])
  }

  /** Everything `FindBoundingBox` records for `count` positions. */
  function BoundingBoxCommands(count: nat): seq<Command>
  {
    var chain := ReferenceChain(count, 0, PositionBuffer);
    ChainCommands(FindMax, chain, [Barrier(BBoxReduction(1))])
    + ChainCommands(FindMin, chain, [Barrier(PositionBound), Barrier(BBoxReduction(1))])
  }

  /** Exactly one pass is the last pass, and it is the final one. */
  lemma {:induction false} ChainEndsOnce(n: nat, i: nat, src: Buffer)
    ensures var c := ReferenceChain(n, i, src);
      |c| >= 1 && forall j :: 0 <= j < |c| ==> (c[j].isLastPass <==> j == |c| - 1)
    decreases n
  {
    if n > GroupSize {
      ChainEndsOnce(Groups(n), i + 1, BBoxReduction((i + 1) % 2));
    }
  }

  /**
   * The passes ping-pong between the scratch buffers: each reads what its
   * predecessor wrote, pass `j` writes `bboxReductionBuffer[(i + j + 1) % 2]`,
   * and each reduces the groups the previous one produced.
   */
  lemma {:induction false} ChainPingPong(n: nat, i: nat, src: Buffer)
    ensures var c := ReferenceChain(n, i, src);
      && |c| >= 1 && c[0].src == src && c[0].n == n
      && (forall j :: 0 <= j < |c| ==> c[j].dst == BBoxReduction((i + j + 1) % 2))
      && (forall j :: 0 < j < |c| ==> c[j].src == c[j - 1].dst && c[j].n == Groups(c[j - 1].n))
    decreases n
  {
    if n > GroupSize {
      ChainPingPong(Groups(n), i + 1, BBoxReduction((i + 1) % 2));
    }
  }

  /** The chain of `FindBoundingBox` as the three guarded blocks of the source. */
  lemma ChainSpelledOut(count: nat)
    requires count <= MaxCount
    ensures var g := Groups(count);
      var first := ReducePass(count, count <= 2048, PositionBuffer, BBoxReduction(1));
      var second := ReducePass(g, !(g > 2048), BBoxReduction(1), BBoxReduction(0));
      var third := ReducePass(Groups(g), true, BBoxReduction(0), BBoxReduction(1));
      ReferenceChain(count, 0, PositionBuffer)
      == [first] + (if count > 2048 then [second] else []) + (if g > 2048 then [third] else [])
  {
    var g := Groups(count);
    assert g <= 0x20_0000;
    if count > GroupSize {
      if g > GroupSize {
        assert Groups(g) <= 1024;
        assert ReferenceChain(g, 1, BBoxReduction(1))
          == [ReducePass(g, false, BBoxReduction(1), BBoxReduction(0))] + ReferenceChain(Groups(g), 2, BBoxReduction(0));
      }
    }
  }

  /** For every count that does not wrap, three passes suffice, the third reducing at most 1024 values. */
  lemma ChainLength(count: nat)
    requires count <= MaxCount
    ensures var c := ReferenceChain(count, 0, PositionBuffer);
      1 <= |c| <= 3 && (|c| == 3 ==> c[2].n <= 1024)
      && (|c| == 1 <==> count <= GroupSize)
      && (|c| == 3 <==> Groups(count) > GroupSize)
  {
    ChainSpelledOut(count);
    var g := Groups(count);
    assert g <= 0x20_0000;
    if g > GroupSize {
      assert count > GroupSize;
      assert Groups(g) <= 1024;
    }
  }

  /** Appending a pass appends its barriers and its dispatch. */
  lemma {:induction false} ChainCommandsAppend(op: Reduction, passes: seq<ReducePass>, p: ReducePass, firstBarriers: seq<Command>)
    ensures ChainCommands(op, passes + [p], firstBarriers)
      == ChainCommands(op, passes, firstBarriers)
         + (if passes == [] then firstBarriers else [Barrier(BBoxReduction(1)), Barrier(BBoxReduction(0))])
         + [Reduce(op, p, p.n)]
    decreases |passes|
  {
    if passes != [] {
      assert (passes + [p])[1..] == passes[1..] + [p];
      ChainCommandsAppend(op, passes[1..], p, [Barrier(BBoxReduction(1)), Barrier(BBoxReduction(0))]);
    } else {
      assert ChainCommands(op, [], [Barrier(BBoxReduction(1)), Barrier(BBoxReduction(0))]) == [];
    }
  }

  class MortonCodeSort {
    /** `positionBufferUpbound`: capacity of the position buffer. */
    const positionBufferUpbound: nat
    /** Elements of `KeyIndexList` and of each `bboxReductionBuffer`. */
    const keyIndexListSize: nat
    const bboxReductionSize: nat
    /** Elements of `positionBound`: the minimum and the maximum corner. */
    const positionBoundSize: nat
    /** `positionBufferCount`: the count read back by the last `execute`. */
    var positionBufferCount: nat

    constructor (positionBufferUpbound: nat)
      ensures this.positionBufferUpbound == positionBufferUpbound && positionBufferCount == 0
      ensures keyIndexListSize == positionBufferUpbound && bboxReductionSize == positionBufferUpbound
      ensures positionBoundSize == 2
    {
      this.positionBufferUpbound := positionBufferUpbound;
      this.keyIndexListSize := positionBufferUpbound;
      this.bboxReductionSize := positionBufferUpbound;
      this.positionBoundSize := 2;
      this.positionBufferCount := 0;
    }

    /** `FindBoundingBox`: the max chain, then the min chain over the same passes. */
    method FindBoundingBox() returns (cmds: seq<Command>)
      requires positionBufferCount <= MaxCount
      ensures cmds == BoundingBoxCommands(positionBufferCount)
    {
      var maxCmds := ReduceChain(FindMax, [Barrier(BBoxReduction(1))]);
      var minCmds := ReduceChain(FindMin, [Barrier(PositionBound), Barrier(BBoxReduction(1))]);
      cmds := maxCmds + minCmds;
    }

    /**
     * One of the two chains of `FindBoundingBox`: the pass over the
     * positions, the pass over its groups when there are more than 2048
     * positions, and a third when those groups are more than 2048.
     */
    method ReduceChain(op: Reduction, firstBarriers: seq<Command>) returns (cmds: seq<Command>)
      requires positionBufferCount <= MaxCount
      ensures cmds == ChainCommands(op, ReferenceChain(positionBufferCount, 0, PositionBuffer), firstBarriers)
    {
      var count := positionBufferCount;
      var numGroups := (count + 2047) / 2048;
      var largeNum := numGroups > 2048;
      ChainSpelledOut(count);

      var p := ReducePass(count, count <= 2048, PositionBuffer, BBoxReduction(1));
      ghost var passes := [p];
      ChainCommandsAppend(op, [], p, firstBarriers);
      cmds := firstBarriers + [Reduce(op, p, count)];
      if count > 2048 {
        p := ReducePass(numGroups, !largeNum, BBoxReduction(1), BBoxReduction(0));
        ChainCommandsAppend(op, passes, p, firstBarriers);
        passes := passes + [p];
        cmds := cmds + [Barrier(BBoxReduction(1)), Barrier(BBoxReduction(0)), Reduce(op, p, numGroups)];
      }
      if largeNum {
        var numGroups2 := (numGroups + 2047) / 2048;
        p := ReducePass(numGroups2, true, BBoxReduction(0), BBoxReduction(1));
        ChainCommandsAppend(op, passes, p, firstBarriers);
        passes := passes + [p];
        cmds := cmds + [Barrier(BBoxReduction(1)), Barrier(BBoxReduction(0)), Reduce(op, p, numGroups2)];
      }
      assert passes == ReferenceChain(count, 0, PositionBuffer);
    }

    /** `GenerateMordenCode`: clear the keys, fence the bound, one thread per position. */
    method GenerateMortonCode() returns (cmds: seq<Command>)
      ensures cmds == [ClearKeys, Barrier(PositionBound), GenMortonCodes(positionBufferCount, QuantLevels, positionBufferCount)]
    {
      var quantLevels := 1024;
      cmds := [ClearKeys, Barrier(PositionBound), GenMortonCodes(positionBufferCount, quantLevels, positionBufferCount)];
    }

    /** `execute`: fence the positions and their counter, read the count back, then bound and encode. */
    method Execute(count: nat) returns (cmds: seq<Command>)
      requires count <= MaxCount
      modifies this`positionBufferCount
      ensures positionBufferCount == count
      ensures cmds == [Barrier(PositionBuffer), Barrier(PositionCounter), ReadCounter]
                      + BoundingBoxCommands(count)
                      + [ClearKeys, Barrier(PositionBound), GenMortonCodes(count, QuantLevels, count)]
    {
      cmds := [Barrier(PositionBuffer), Barrier(PositionCounter), ReadCounter];
      positionBufferCount := count;
      var bound := FindBoundingBox();
      var keys := GenerateMortonCode();
      cmds := cmds + bound + keys;
    }
  }
}
