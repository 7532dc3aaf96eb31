// The BDPT render pass as the host drives it (BDPT.h/.cpp): the flags and
// parameters it keeps from frame to frame, the GPU resources it creates
// lazily, and the work `execute()` records for one frame -- light paths
// traced, their vertices sorted by Morton key, a tree built over them, camera
// paths traced against the tree, the subspace matrices updated, and the frame
// closed.  GPU work is a log of events; the shaders are not modelled.

module BdptRenderPass {
  import opened PowerOfTwo
  import opened Dictionaries
  import opened BdptOptions
  import Bitonic64
  import VertexTree

  /** `kScreenTileDim`: screen tiles are 16 x 16 pixels, one 256-thread group each. */
  const ScreenTileDim: nat := 16
  const TileSize: nat := 256

  /** The identities the pass gives the buffers it hands to the sort and tree passes. */
  const IndexBuffer: nat := 0
  const PositionBuffer: nat := 1
  const NodeBuffer: nat := 2

  /** The value an empty subspace reservoir's signal texture is cleared to. */
  const EmptySignal: nat := 0xFFFF_FFFF

  /** Every sample-pair texture is 2048 texels wide. */
  const PairsWidth: nat := 2048

  /** The largest light-vertex count the sort pass is modelled for. */
  const MaxSortedVertices: nat := 0x4000_0000

  datatype Extent = Extent(width: nat, height: nat)

  /** The GPU resources (and barrier targets) of the pass. */
  datatype Slot =
    | LightPathVertices | LightPathIndices | LightPathIndexCounter | LightPathPositions
    | OutputTexture
    | SubspaceWeight(index: nat) | SubspaceCount(index: nat)
    | PrefixOfWeight | SumOfWeight | PrefixOfCount | SumOfCount
    | SubspaceReservoir | SubspaceSecondaryMoment | PrefixOfSecondaryMoment | SumOfSecondaryMoment | MaxVariance
    | SamplePairsCurrent | SamplePairsPrevious
    | GatherPointsCurrent | TreeNodes

  /** One set of gather-point textures (`GatherPointInfo`), known by identity and size. */
  datatype GatherPoints = GatherPoints(id: nat, extent: Extent)

  /** The programs created once a scene is present. */
  datatype Program =
    | TraceLightPathPass | TraceCameraPathPass | RISReusePass
    | GeneratePathsPass | ReflectTypesPass | SpatiotemporalReusePass

  function AllPrograms(): set<Program>
  {
    {TraceLightPathPass, TraceCameraPathPass, RISReusePass, GeneratePathsPass, ReflectTypesPass, SpatiotemporalReusePass}
  }

  /** What the pass records on the render context and the render-graph dictionary. */
  datatype Event =
    | ClearOutputColor
    | RefreshFlags(optionsChanged: bool, lightingChanged: bool)
    | ClearReservoir(signal: nat)
    | BindGatherPoints(input: nat, output: nat)
    | GeneratePaths(threadsX: nat, threadsY: nat)
    | Barrier(slot: Slot)
    | ClearIndexCounter
    | TraceLightPaths(width: nat, height: nat)
    | Sort(sortCmd: Bitonic64.Command)
    | Tree(treeCmd: VertexTree.Command)
    | TraceCameraPaths(width: nat, height: nat, leafNodeStart: nat, counter: nat)
    | CopyToOutputColor
    | Merge(threadsX: nat, threadsY: nat, frameCount: nat)
    | PrefixSum(threadsX: nat, threadsY: nat, frameCount: nat)
    | ClearTexture(slot: Slot)

  /** The device features the constructor insists on. */
  datatype DeviceCaps = DeviceCaps(shaderModel65: bool, raytracingTier11: bool)

  /** What one call of `execute()` sees of the render graph, the scene and the GPU. */
  datatype FrameInput = FrameInput(
    outputDim: (nat, nat),              // size of the output color texture
    ioSizeMismatch: bool,               // a connected channel has another size
    materialsChanged: bool,             // the scene reports changed materials
    lightingRecompile: bool,            // the lighting update asks for recompilation
    lightingChanged: bool,              // the lighting update reports a change
    gbufferAdjustShadingNormals: bool,  // the graph dictionary's G-buffer flag
    sampleCountConnected: bool,         // the sample-count input is connected
    counter: nat)                       // light vertices the light pass appended

  datatype FrameOutcome = Failed | Skipped | Rendered

  /** The edits of the rendering UI's checkboxes that reach the modelled state. */
  datatype UiEdit = UiEdit(enable: bool, vertexMerge: bool, subspace: bool)

  // ---------------------------------------------------------------------
  // Sizes
  // ---------------------------------------------------------------------

  /** `div_round_up(a, b)`: the fewest blocks of `b` that cover `a`. */
  function DivRoundUp(a: nat, b: nat): (q: nat)
    requires b >= 1
    ensures q * b >= a
    ensures q == 0 || (q - 1) * b < a
  {
    var q := (a + b - 1) / b;
    var r := (a + b - 1) % b;
    assert q * b + r == a + b - 1;
    q
  }

  /** `screenTiles`: the tiles covering the frame. */
  function ScreenTiles(frameDim: (nat, nat)): (nat, nat)
  {
    (DivRoundUp(frameDim.0, ScreenTileDim), DivRoundUp(frameDim.1, ScreenTileDim))
  }

  predicate WithinFrameLimits(dim: (nat, nat), lim: Limits)
  {
    dim.0 <= lim.maxFrameDimension && dim.1 <= lim.maxFrameDimensionY
  }

  /** `lightVertexElementCount`, a 32-bit product. */
  function LightVertexElementCount(o: Options): nat
  {
    (o.path.lightPassWidth * o.path.lightPassHeight * o.rendering.maxSurfaceBounces) % UInt32Limit
  }

  /** `cameraVertexElementCount`, a 32-bit product. */
  function CameraVertexElementCount(o: Options, lim: Limits): nat
  {
    (lim.maxFrameDimension * lim.maxFrameDimensionY * o.rendering.maxSurfaceBounces) % UInt32Limit
  }

  /** `1 << logSubspaceSize`: the side of the subspace matrices. */
  function SubspaceSize(o: Options): nat
  {
    Pow2(o.path.logSubspaceSize)
  }

  /** `SamplePairs(maxNum)`: 2048 texels wide and one row more than `maxNum` fills. */
  function SamplePairsExtent(maxNum: nat): (e: Extent)
    ensures e.width * e.height > maxNum
    ensures e.width * (e.height - 1) <= maxNum
  {
    var rows := maxNum / PairsWidth;
    assert rows * PairsWidth + maxNum % PairsWidth == maxNum;
    Extent(PairsWidth, rows + 1)
  }

  /** The resources `prepareResources` creates, with the sizes it would give them now. */
  function Wanted(o: Options, lim: Limits, frameDim: (nat, nat)): map<Slot, Extent>
  {
    var lv := Extent(LightVertexElementCount(o), 1);
    var s := SubspaceSize(o);
    var square := Extent(s, s);
    var line := Extent(s, 1);
    var pairs := SamplePairsExtent(CameraVertexElementCount(o, lim));
    map[LightPathVertices := lv, LightPathIndices := lv, LightPathPositions := lv,
        OutputTexture := Extent(frameDim.0, frameDim.1),
        SubspaceWeight(0) := square, SubspaceWeight(1) := square,
        SubspaceCount(0) := square, SubspaceCount(1) := square,
        PrefixOfWeight := square, SumOfWeight := line, PrefixOfCount := square, SumOfCount := line,
        SubspaceReservoir := square, SubspaceSecondaryMoment := square,
        PrefixOfSecondaryMoment := square, SumOfSecondaryMoment := line, MaxVariance := line,
        SamplePairsCurrent := pairs, SamplePairsPrevious := pairs]
  }

  /** Lazy creation (`if (!x) x = create(...)`) over every slot at once. */
  function Fill(current: map<Slot, Extent>, wanted: map<Slot, Extent>): map<Slot, Extent>
  {
    map s | s in current.Keys + wanted.Keys :: if s in current then current[s] else wanted[s]
  }

  /** A resource, once created, keeps its size; a missing one gets the size wanted now. */
  lemma FillKeepsAndAdds(current: map<Slot, Extent>, wanted: map<Slot, Extent>, s: Slot)
    ensures s in Fill(current, wanted) <==> s in current || s in wanted
    ensures s in current ==> Fill(current, wanted)[s] == current[s]
    ensures s !in current && s in wanted ==> Fill(current, wanted)[s] == wanted[s]
  {
  }

  /**
   * After the first preparation nothing is ever re-created: a later frame of
   * another size leaves every resource as it was, and the output texture
   * keeps the size of the first frame prepared.
   */
  lemma ResourcesFixedAfterFirstPrepare(current: map<Slot, Extent>, o: Options, lim: Limits, d1: (nat, nat), d2: (nat, nat))
    ensures var first := Fill(current, Wanted(o, lim, d1));
      && Fill(first, Wanted(o, lim, d2)) == first
      && (OutputTexture !in current ==> first[OutputTexture] == Extent(d1.0, d1.1))
  {
    var first := Fill(current, Wanted(o, lim, d1));
    var second := Fill(first, Wanted(o, lim, d2));
    assert Wanted(o, lim, d2).Keys == Wanted(o, lim, d1).Keys;
    assert second.Keys == first.Keys;
    forall s | s in first
      ensures second[s] == first[s]
    {
    }
  }

  /** The gather-point slot after `if (!p) p = make_shared<GatherPointInfo>(frameDim)`. */
  function LazyGatherPoints(slot: Option<GatherPoints>, id: nat, frameDim: (nat, nat)): GatherPoints
  {
    if slot.Some? then slot.value else GatherPoints(id, Extent(frameDim.0, frameDim.1))
  }

  // ---------------------------------------------------------------------
  // The frame's events
  // ---------------------------------------------------------------------

  /** The refresh flags `beginFrame` raises on a frame it renders. */
  function StartEvents(optionsChanged: bool, lightingChanged: bool): seq<Event>
  {
    if optionsChanged || lightingChanged then [RefreshFlags(optionsChanged, lightingChanged)] else []
  }

  /** A frame without scene or with the pass disabled: the output is cleared. */
  function SkipEvents(optionsChanged: bool): seq<Event>
  {
    [ClearOutputColor] + (if optionsChanged then [RefreshFlags(true, false)] else [])
  }

  /** The reservoir is cleared once, when it is created. */
  function PrepareEvents(resources: map<Slot, Extent>): seq<Event>
  {
    if SubspaceReservoir in resources then [] else [ClearReservoir(EmptySignal)]
  }

  /**
   * What the preparation records before path generation: the reservoir's
   * first clear, then, when vertex merging, the binding of the previous
   * gather points as input and the current ones as output.
   */
  function SetupEvents(resources: map<Slot, Extent>, useVertexMerge: bool, prev: Option<GatherPoints>,
                       current: Option<GatherPoints>, frameDim: (nat, nat)): seq<Event>
  {
    PrepareEvents(resources)
    + (if useVertexMerge
       then [BindGatherPoints(LazyGatherPoints(prev, 0, frameDim).id, LazyGatherPoints(current, 1, frameDim).id)]
       else [])
  }

  function SortEvents(cmds: seq<Bitonic64.Command>): (ev: seq<Event>)
    ensures |ev| == |cmds| && forall i :: 0 <= i < |cmds| ==> ev[i] == Sort(cmds[i])
  {
    seq(|cmds|, i requires 0 <= i < |cmds| => Sort(cmds[i]))
  }

  function TreeEvents(cmds: seq<VertexTree.Command>): (ev: seq<Event>)
    ensures |ev| == |cmds| && forall i :: 0 <= i < |cmds| ==> ev[i] == Tree(cmds[i])
  {
    seq(|cmds|, i requires 0 <= i < |cmds| => Tree(cmds[i]))
  }

  /** What `update(counter)` followed by `build()` records. */
  function TreeCommands(counter: nat): seq<VertexTree.Command>
    requires 1 <= counter <= MaxSortedVertices
  {
    var levels := CeilLog2(counter) + 1;
    [VertexTree.Barrier(IndexBuffer),
     VertexTree.GenLevelZero(VertexTree.LeafNodes(counter), levels, counter, VertexTree.LeafNodes(counter))]
    + VertexTree.Dispatched(NodeBuffer, VertexTree.InternalPasses(levels, 1))
  }

  /** Path generation and the light pass, up to the read-back of the vertex counter. */
  function HeadEvents(o: Options, frameDim: (nat, nat)): seq<Event>
  {
    [GeneratePaths(ScreenTiles(frameDim).0 * TileSize, ScreenTiles(frameDim).1),
     Barrier(LightPathIndexCounter), ClearIndexCounter,
     TraceLightPaths(o.path.lightPassWidth, o.path.lightPassHeight),
     Barrier(LightPathVertices), Barrier(LightPathIndices)]
  }

  /** `buildSubspaceWeightMatrix`: the merge pass, then the prefix sums. */
  function SubspaceEvents(o: Options, frameCount: nat): seq<Event>
    requires o.path.logSubspaceSize >= 1
  {
    var groupSize := Pow2(o.path.logSubspaceSize - 1);
    var texSize := groupSize * 2;
    [Merge(texSize, texSize, 0),
     Barrier(SubspaceWeight(1)), Barrier(SubspaceCount(1)), Barrier(SubspaceSecondaryMoment),
     PrefixSum(groupSize, texSize, frameCount),
     Barrier(PrefixOfWeight), Barrier(SumOfWeight), Barrier(PrefixOfCount), Barrier(SumOfCount),
     Barrier(SubspaceSecondaryMoment), Barrier(PrefixOfSecondaryMoment), Barrier(SumOfSecondaryMoment),
     Barrier(MaxVariance)]
  }

  /** `endFrame`: the accumulation textures are cleared for the next frame. */
  function EndFrameEvents(): seq<Event>
  {
    [ClearTexture(OutputTexture), ClearTexture(SubspaceWeight(0)), ClearTexture(SubspaceCount(0))]
  }

  /** The camera pass over the tree, the copy to the output, the subspace update and the frame's end. */
  function TailEvents(o: Options, frameDim: (nat, nat), counter: nat, useSubspace: bool, frameCount: nat): seq<Event>
    requires o.path.logSubspaceSize >= 1
  {
    [Barrier(TreeNodes), TraceCameraPaths(frameDim.0, frameDim.1, VertexTree.LeafNodes(counter), counter),
     Barrier(SubspaceReservoir), Barrier(GatherPointsCurrent), Barrier(SubspaceWeight(0)),
     Barrier(SubspaceCount(0)), Barrier(SubspaceSecondaryMoment), Barrier(OutputTexture),
     CopyToOutputColor]
    + (if useSubspace then SubspaceEvents(o, frameCount) else [])
    + EndFrameEvents()
  }

  /** Everything a rendered frame records from `generatePaths` to `endFrame`. */
  function FrameEvents(o: Options, frameDim: (nat, nat), counter: nat, useSubspace: bool, frameCount: nat): seq<Event>
    requires 1 <= counter <= MaxSortedVertices && o.path.logSubspaceSize >= 1
  {
    HeadEvents(o, frameDim)
    + SortEvents(Bitonic64.SortCommands(IndexBuffer, counter))
    + TreeEvents(TreeCommands(counter))
    + TailEvents(o, frameDim, counter, useSubspace, frameCount)
  }

  // ---------------------------------------------------------------------
  // Properties of a frame
  // ---------------------------------------------------------------------

  /** The path-generation dispatch has a 256-thread group for each tile, and the tiles cover the frame. */
  lemma GeneratePathsCoverFrame(o: Options, frameDim: (nat, nat))
    ensures var g := HeadEvents(o, frameDim)[0];
      && g.threadsX == ScreenTiles(frameDim).0 * TileSize
      && g.threadsX * ScreenTileDim >= frameDim.0 * TileSize
      && g.threadsY * ScreenTileDim >= frameDim.1
      && (g.threadsX / TileSize) * (g.threadsY) * TileSize >= frameDim.0 * frameDim.1
  {
    var t := ScreenTiles(frameDim);
    assert (t.0 * TileSize) / TileSize == t.0;
    assert t.0 * ScreenTileDim >= frameDim.0 && t.1 * ScreenTileDim >= frameDim.1;
    calc {
      t.0 * t.1 * TileSize;
      (t.0 * ScreenTileDim) * (t.1 * ScreenTileDim);
    >= { MultiplyMonotone(t.0 * ScreenTileDim, frameDim.0, t.1 * ScreenTileDim, frameDim.1); }
      frameDim.0 * frameDim.1;
    }
  }

  lemma MultiplyMonotone(a: nat, b: nat, c: nat, d: nat)
    requires a >= b && c >= d
    ensures a * c >= b * d
  {
    assert a * c >= b * c;
    assert b * c >= b * d;
  }

  /** The merge dispatch covers the subspace matrices texel for texel; the prefix sums take one group per row half. */
  lemma SubspaceDispatchesCoverMatrices(o: Options, lim: Limits, frameDim: (nat, nat), frameCount: nat)
    requires o.path.logSubspaceSize >= 1
    ensures var ev := SubspaceEvents(o, frameCount);
      var m := Wanted(o, lim, frameDim)[SubspaceWeight(1)];
      && ev[0] == Merge(m.width, m.height, 0)
      && ev[4] == PrefixSum(m.width / 2, m.height, frameCount)
      && ev[4].threadsX == Pow2(o.path.logSubspaceSize - 1)
      && (forall i :: 0 <= i < |ev| ==> ev[i].Merge? || ev[i].PrefixSum? || ev[i].Barrier?)
  {
  }

  predicate NoSortOrTree(ev: seq<Event>)
  {
    forall i :: 0 <= i < |ev| ==> !ev[i].Sort? && !ev[i].Tree?
  }

  lemma NoSortOrTreeConcat(a: seq<Event>, b: seq<Event>)
    requires NoSortOrTree(a) && NoSortOrTree(b)
    ensures NoSortOrTree(a + b)
  {
    forall i | 0 <= i < |a + b|
      ensures !(a + b)[i].Sort? && !(a + b)[i].Tree?
    {
      if i < |a| {
        assert (a + b)[i] == a[i];
      } else {
        assert (a + b)[i] == b[i - |a|];
      }
    }
  }

  /** Where the sort and tree events of a concatenation sit. */
  lemma SegmentsOrdered(h: seq<Event>, s: seq<Event>, t: seq<Event>, tail: seq<Event>)
    requires NoSortOrTree(h) && NoSortOrTree(tail)
    requires forall i :: 0 <= i < |s| ==> s[i].Sort?
    requires forall i :: 0 <= i < |t| ==> t[i].Tree?
    ensures var ev := h + s + t + tail;
      && (forall i :: 0 <= i < |ev| && ev[i].Sort? ==> |h| <= i < |h| + |s|)
      && (forall i :: 0 <= i < |ev| && ev[i].Tree? ==> |h| + |s| <= i < |h| + |s| + |t|)
  {
    var ev := h + s + t + tail;
    forall i | 0 <= i < |ev|
      ensures ev[i].Sort? ==> |h| <= i < |h| + |s|
      ensures ev[i].Tree? ==> |h| + |s| <= i < |h| + |s| + |t|
    {
      if i < |h| {
        assert ev[i] == h[i];
      } else if i < |h| + |s| {
        assert ev[i] == s[i - |h|];
      } else if i < |h| + |s| + |t| {
        assert ev[i] == t[i - |h| - |s|];
      } else {
        assert ev[i] == tail[i - |h| - |s| - |t|];
      }
    }
  }

  /** The events after the tree: the camera pass comes second, and nothing in them sorts or builds. */
  lemma TailLayout(o: Options, frameDim: (nat, nat), counter: nat, useSubspace: bool, frameCount: nat)
    requires o.path.logSubspaceSize >= 1
    ensures NoSortOrTree(TailEvents(o, frameDim, counter, useSubspace, frameCount))
    ensures AllUseCounter(TailEvents(o, frameDim, counter, useSubspace, frameCount), counter)
    ensures TailEvents(o, frameDim, counter, useSubspace, frameCount)[1]
            == TraceCameraPaths(frameDim.0, frameDim.1, VertexTree.LeafNodes(counter), counter)
  {
    var a := [Barrier(TreeNodes), TraceCameraPaths(frameDim.0, frameDim.1, VertexTree.LeafNodes(counter), counter),
              Barrier(SubspaceReservoir), Barrier(GatherPointsCurrent), Barrier(SubspaceWeight(0)),
              Barrier(SubspaceCount(0)), Barrier(SubspaceSecondaryMoment), Barrier(OutputTexture),
              CopyToOutputColor];
    var b := if useSubspace then SubspaceEvents(o, frameCount) else [];
    var c := EndFrameEvents();
    assert NoSortOrTree(a) && NoSortOrTree(b) && NoSortOrTree(c);
    assert AllUseCounter(a, counter) && AllUseCounter(b, counter) && AllUseCounter(c, counter);
    NoSortOrTreeConcat(a, b);
    NoSortOrTreeConcat(a + b, c);
    AllUseCounterConcat(a, b, counter);
    AllUseCounterConcat(a + b, c, counter);
    assert (a + b + c)[1] == a[1];
  }

  /** The light pass is the fourth event of the head; nothing in the head sorts or builds. */
  lemma HeadLayout(o: Options, frameDim: (nat, nat), counter: nat)
    ensures |HeadEvents(o, frameDim)| == 6
    ensures HeadEvents(o, frameDim)[3] == TraceLightPaths(o.path.lightPassWidth, o.path.lightPassHeight)
    ensures NoSortOrTree(HeadEvents(o, frameDim)) && AllUseCounter(HeadEvents(o, frameDim), counter)
  {
  }

  /**
   * The order of the phases of a frame: `light` comes first, then every sort
   * event, then every tree event, and `camera` after all of them.
   */
  predicate PhasesInOrder(ev: seq<Event>, light: Event, camera: Event)
  {
    exists l, c ::
      && 0 <= l < c < |ev|
      && ev[l] == light
      && ev[c] == camera
      && (forall i :: 0 <= i < |ev| && ev[i].Sort? ==> l < i < c)
      && (forall i :: 0 <= i < |ev| && ev[i].Tree? ==> l < i < c)
      && (forall i, j :: 0 <= i < |ev| && 0 <= j < |ev| && ev[i].Sort? && ev[j].Tree? ==> i < j)
  }

  /** In a concatenation of a head, sort events, tree events and a tail, the phases stay apart. */
  lemma PhasesOfConcat(h: seq<Event>, s: seq<Event>, t: seq<Event>, tail: seq<Event>, ev: seq<Event>, light: Event, camera: Event)
    requires ev == h + s + t + tail
    requires |h| > 3 && h[3] == light && |tail| > 1 && tail[1] == camera
    requires NoSortOrTree(h) && NoSortOrTree(tail)
    requires forall i :: 0 <= i < |s| ==> s[i].Sort?
    requires forall i :: 0 <= i < |t| ==> t[i].Tree?
    ensures PhasesInOrder(ev, light, camera)
  {
    SegmentsOrdered(h, s, t, tail);
    var l, c := 3, |h| + |s| + |t| + 1;
    assert ev[l] == h[3];
    assert ev[c] == tail[1];
  }

  /**
   * Within a rendered frame the light paths are traced first, then every
   * sort pass runs, then every tree pass, and only then are the camera
   * paths traced against the tree.
   */
  lemma FramePhasesInOrder(o: Options, frameDim: (nat, nat), counter: nat, useSubspace: bool, frameCount: nat)
    requires 1 <= counter <= MaxSortedVertices && o.path.logSubspaceSize >= 1
    ensures PhasesInOrder(FrameEvents(o, frameDim, counter, useSubspace, frameCount),
      TraceLightPaths(o.path.lightPassWidth, o.path.lightPassHeight),
      TraceCameraPaths(frameDim.0, frameDim.1, VertexTree.LeafNodes(counter), counter))
  {
    HeadLayout(o, frameDim, counter);
    TailLayout(o, frameDim, counter, useSubspace, frameCount);
    PhasesOfConcat(HeadEvents(o, frameDim), SortEvents(Bitonic64.SortCommands(IndexBuffer, counter)),
      TreeEvents(TreeCommands(counter)), TailEvents(o, frameDim, counter, useSubspace, frameCount),
      FrameEvents(o, frameDim, counter, useSubspace, frameCount),
      TraceLightPaths(o.path.lightPassWidth, o.path.lightPassHeight),
      TraceCameraPaths(frameDim.0, frameDim.1, VertexTree.LeafNodes(counter), counter));
  }

  /** Every sort and tree command, and the camera pass, take the light-vertex count `counter`. */
  predicate UsesCounter(e: Event, counter: nat)
  {
    && (e.Sort? && !e.sortCmd.Barrier? ==> e.sortCmd.pass.listCount == counter)
    && (e.Tree? && e.treeCmd.GenLevelZero? ==>
          e.treeCmd.counter == counter && e.treeCmd.numLeafNodes == VertexTree.LeafNodes(counter))
    && (e.TraceCameraPaths? ==> e.counter == counter && e.leafNodeStart == VertexTree.LeafNodes(counter))
  }

  predicate AllUseCounter(ev: seq<Event>, counter: nat)
  {
    forall i :: 0 <= i < |ev| ==> UsesCounter(ev[i], counter)
  }

  lemma AllUseCounterConcat(a: seq<Event>, b: seq<Event>, counter: nat)
    requires AllUseCounter(a, counter) && AllUseCounter(b, counter)
    ensures AllUseCounter(a + b, counter)
  {
    forall i | 0 <= i < |a + b|
      ensures UsesCounter((a + b)[i], counter)
    {
      if i < |a| {
        assert (a + b)[i] == a[i];
      } else {
        assert (a + b)[i] == b[i - |a|];
      }
    }
  }

  /** Every pass of the sort is issued for `counter` keys. */
  lemma SortUsesCounter(counter: nat)
    requires counter >= 1
    ensures AllUseCounter(SortEvents(Bitonic64.SortCommands(IndexBuffer, counter)), counter)
  {
    var sc := Bitonic64.SortCommands(IndexBuffer, counter);
    var passes := Bitonic64.SortPasses(counter);
    var issued := Bitonic64.Issued(IndexBuffer, passes);
    Bitonic64.IssuedFromPasses(IndexBuffer, passes);
    forall i | 0 <= i < |sc|
      ensures UsesCounter(Sort(sc[i]), counter)
    {
      if i > 0 {
        assert sc[i] == issued[i - 1];
        SortCommandUsesCounter(counter, passes, issued, i);
      }
    }
  }

  lemma SortCommandUsesCounter(counter: nat, passes: seq<Bitonic64.Pass>, issued: seq<Bitonic64.Command>, i: nat)
    requires counter >= 1 && passes == Bitonic64.SortPasses(counter)
    requires issued == Bitonic64.Issued(IndexBuffer, passes)
    requires forall k :: 0 <= k < |issued| ==> issued[k].Barrier? || (issued[k].ExecuteIndirect? && issued[k].pass in passes)
    requires 1 <= i <= |issued|
    ensures UsesCounter(Sort(issued[i - 1]), counter)
  {
    if issued[i - 1].ExecuteIndirect? {
      Bitonic64.SortPassConstants(counter, issued[i - 1].pass);
    }
  }

  /** `Dispatched` records barriers and internal-level passes only. */
  lemma {:induction false} DispatchedHasNoLevelZero(nodes: nat, passes: seq<VertexTree.LevelPass>)
    ensures forall i :: 0 <= i < |VertexTree.Dispatched(nodes, passes)| ==>
      !VertexTree.Dispatched(nodes, passes)[i].GenLevelZero?
    decreases |passes|
  {
    if passes != [] {
      var n := |passes| - 1;
      DispatchedHasNoLevelZero(nodes, passes[..n]);
    }
  }

  /** The one level-zero pass of the tree builds `counter` real leaves. */
  lemma TreeUsesCounter(counter: nat)
    requires 1 <= counter <= MaxSortedVertices
    ensures AllUseCounter(TreeEvents(TreeCommands(counter)), counter)
  {
    var tc := TreeCommands(counter);
    var levels := CeilLog2(counter) + 1;
    var internal := VertexTree.Dispatched(NodeBuffer, VertexTree.InternalPasses(levels, 1));
    DispatchedHasNoLevelZero(NodeBuffer, VertexTree.InternalPasses(levels, 1));
    forall i | 0 <= i < |tc|
      ensures UsesCounter(Tree(tc[i]), counter)
    {
      if i >= 2 {
        assert tc[i] == internal[i - 2];
      }
    }
  }

  /**
   * The sort, the tree and the camera pass agree on the light-vertex count
   * read back after the light pass: every sort pass sorts `counter` keys,
   * the one level-zero pass builds `counter` real leaves, and the camera
   * pass is told where the leaves end.
   */
  lemma PassesAgreeOnCounter(o: Options, frameDim: (nat, nat), counter: nat, useSubspace: bool, frameCount: nat)
    requires 1 <= counter <= MaxSortedVertices && o.path.logSubspaceSize >= 1
    ensures AllUseCounter(FrameEvents(o, frameDim, counter, useSubspace, frameCount), counter)
  {
    HeadLayout(o, frameDim, counter);
    SortUsesCounter(counter);
    TreeUsesCounter(counter);
    TailLayout(o, frameDim, counter, useSubspace, frameCount);
    AllUseCounterOfConcat(HeadEvents(o, frameDim), SortEvents(Bitonic64.SortCommands(IndexBuffer, counter)),
      TreeEvents(TreeCommands(counter)), TailEvents(o, frameDim, counter, useSubspace, frameCount), counter);
  }

  lemma AllUseCounterOfConcat(h: seq<Event>, s: seq<Event>, t: seq<Event>, tail: seq<Event>, counter: nat)
    requires AllUseCounter(h, counter) && AllUseCounter(s, counter)
    requires AllUseCounter(t, counter) && AllUseCounter(tail, counter)
    ensures AllUseCounter(h + s + t + tail, counter)
  {
    AllUseCounterConcat(h, s, counter);
    AllUseCounterConcat(h + s, t, counter);
    AllUseCounterConcat(h + s + t, tail, counter);
  }

  // ---------------------------------------------------------------------
  // Across frames
  // ---------------------------------------------------------------------

  /** `frameCount++` on the 32-bit counter. */
  function NextFrameCount(c: nat): nat
  {
    (c + 1) % UInt32Limit
  }

  /** The frame counter after `frames` rendered frames. */
  function FrameCountAfter(c: nat, frames: nat): nat
  {
    if frames == 0 then c else NextFrameCount(FrameCountAfter(c, frames - 1))
  }

  lemma {:induction false} FrameCountAfterClosedForm(c: nat, frames: nat)
    requires c < UInt32Limit
    ensures FrameCountAfter(c, frames) == (c + frames) % UInt32Limit
  {
    if frames > 0 {
      FrameCountAfterClosedForm(c, frames - 1);
      var a := c + frames - 1;
      assert a == (a / UInt32Limit) * UInt32Limit + a % UInt32Limit;
      ModSuccessor(a / UInt32Limit, a % UInt32Limit);
    }
  }

  lemma ModSuccessor(q: nat, r: nat)
    requires r < UInt32Limit
    ensures (q * UInt32Limit + r + 1) % UInt32Limit == (r + 1) % UInt32Limit
  {
    if r + 1 < UInt32Limit {
      assert q * UInt32Limit + r + 1 == q * UInt32Limit + (r + 1);
    } else {
      assert q * UInt32Limit + r + 1 == (q + 1) * UInt32Limit;
    }
  }

  /** `seed = useFixedSeed ? fixedSeed : frameCount`. */
  function FrameSeed(o: Options, frameCount: nat): nat
  {
    if o.sampling.useFixedSeed then o.sampling.fixedSeed else frameCount
  }

  /**
   * After a scene is set, a fixed seed is the same every frame; otherwise
   * the seeds of two frames differ unless the 32-bit counter has wrapped
   * between them, and they repeat exactly when it has.
   */
  lemma SeedsAfterSceneLoad(o: Options, i: nat, j: nat)
    requires i < j
    ensures o.sampling.useFixedSeed ==> FrameSeed(o, FrameCountAfter(0, i)) == FrameSeed(o, FrameCountAfter(0, j))
    ensures !o.sampling.useFixedSeed ==>
      (FrameSeed(o, FrameCountAfter(0, i)) == FrameSeed(o, FrameCountAfter(0, j)) <==> (j - i) % UInt32Limit == 0)
  {
    FrameCountAfterClosedForm(0, i);
    FrameCountAfterClosedForm(0, j);
    ModShift(i, j - i);
  }

  /** Adding `k` leaves a 32-bit value as it is exactly when `k` is a multiple of 2^32. */
  lemma ModShift(i: nat, k: nat)
    ensures (i + k) % UInt32Limit == i % UInt32Limit <==> k % UInt32Limit == 0
  {
    var ri, rk := i % UInt32Limit, k % UInt32Limit;
    var qi, qk := i / UInt32Limit, k / UInt32Limit;
    assert i == qi * UInt32Limit + ri && k == qk * UInt32Limit + rk;
    if rk == 0 {
      ModUnique(i + k, qi + qk, ri);
    } else if ri + rk < UInt32Limit {
      ModUnique(i + k, qi + qk, ri + rk);
    } else {
      ModUnique(i + k, qi + qk + 1, ri + rk - UInt32Limit);
    }
  }

  lemma ModUnique(n: int, q: int, r: int)
    requires 0 <= r < UInt32Limit && n == q * UInt32Limit + r
    ensures n % UInt32Limit == r
  {
  }

  /** `beginFrame` over frames without UI edits: a size mismatch switches the pass off for good. */
  function EnabledAfter(enabled: bool, mismatches: seq<bool>): bool
  {
    if mismatches == [] then enabled
    else EnabledAfter(enabled, mismatches[..|mismatches| - 1]) && !mismatches[|mismatches| - 1]
  }

  lemma {:induction false} EnabledOnlyWithoutMismatch(enabled: bool, mismatches: seq<bool>)
    ensures EnabledAfter(enabled, mismatches) <==> enabled && forall i :: 0 <= i < |mismatches| ==> !mismatches[i]
    decreases |mismatches|
  {
    if mismatches != [] {
      var n := |mismatches| - 1;
      EnabledOnlyWithoutMismatch(enabled, mismatches[..n]);
      assert forall i :: 0 <= i < n ==> mismatches[..n][i] == mismatches[i];
    }
  }

  /** `std::swap(mpPrevGatherPoints, mpGatherPoints)` when vertex merging is on. */
  function EndFrameSwap<T>(useVertexMerge: bool, pair: (T, T)): (T, T)
  {
    if useVertexMerge then (pair.1, pair.0) else pair
  }

  function SwapsAfter<T>(pair: (T, T), merges: seq<bool>): (T, T)
  {
    if merges == [] then pair
    else EndFrameSwap(merges[|merges| - 1], SwapsAfter(pair, merges[..|merges| - 1]))
  }

  function CountTrue(bs: seq<bool>): nat
  {
    if bs == [] then 0 else CountTrue(bs[..|bs| - 1]) + (if bs[|bs| - 1] then 1 else 0)
  }

  /**
   * The two gather-point sets only ever trade places: after a run of frames
   * they are as they started when an even number of them merged vertices,
   * and swapped otherwise.
   */
  lemma {:induction false} GatherPointsAlternate<T>(pair: (T, T), merges: seq<bool>)
    ensures SwapsAfter(pair, merges) == if CountTrue(merges) % 2 == 0 then pair else (pair.1, pair.0)
    decreases |merges|
  {
    if merges != [] {
      GatherPointsAlternate(pair, merges[..|merges| - 1]);
    }
  }

  // ---------------------------------------------------------------------
  // The pass
  // ---------------------------------------------------------------------

  /** An unsigned 32-bit counter. */
  type UInt32 = x: nat | x < UInt32Limit

  class Bdpt {
    /** The shader-side limits (`kMaxSamplesPerPixel`, `kMaxBounces`, `kMaxFrameDimension[Y]`). */
    const limits: Limits
    /** `GROUP_SIZE` of the merge and prefix-sum passes, fixed at construction. */
    const subspaceGroupSize: nat

    /**
     * The options, validated at construction.  The UI edits modelled here
     * touch only the runtime toggles, and `validateOptions` leaves validated
     * options as they are (`ValidateFixedPoints`), so they stay fixed.
     */
    const options: Options
    var hasScene: bool
    var frameDim: (nat, nat)
    var screenTiles: (nat, nat)
    var frameCount: UInt32
    var seed: nat

    var enabled: bool
    var recompile: bool
    var varsChanged: bool
    var optionsChanged: bool
    var gbufferAdjustShadingNormals: bool
    var fixedSampleCount: bool
    var useVertexMerge: bool
    var useSubspace: bool

    var programs: set<Program>
    /** How many path-tracer parameter blocks have been created (0: none yet). */
    var pathTracerBlocks: nat
    var resources: map<Slot, Extent>
    var prevGatherPoints: Option<GatherPoints>
    var gatherPoints: Option<GatherPoints>
    var sortPass: Bitonic64.Sorter?
    var treeBuilder: VertexTree.Builder?

    /** The options are validated against the limits, and `GROUP_SIZE` is half the subspace size. */
    ghost predicate Configured()
    {
      && ValidLimits(limits)
      && Validated(options, limits)
      && 1 <= options.path.logSubspaceSize <= 31
      && subspaceGroupSize == Pow2(options.path.logSubspaceSize - 1)
    }

    /** With a scene and no pending recompile every program exists. */
    ghost predicate ProgramsReady()
      reads this`hasScene, this`recompile, this`programs
    {
      hasScene && !recompile ==> programs == AllPrograms()
    }

    /**
     * The sort pass sorts the light-path index buffer, and the tree
     * builder works on the pass's buffers with a node buffer sized for the
     * light-vertex buffer.
     */
    ghost predicate PassesSized()
      reads this`sortPass, this`treeBuilder
    {
      && (sortPass != null ==> sortPass.keyIndexList == IndexBuffer)
      && (treeBuilder != null ==>
            && treeBuilder.Sized()
            && treeBuilder.maxCounter == LightVertexElementCount(options)
            && treeBuilder.keyIndexBuffer == IndexBuffer
            && treeBuilder.vertexBuffer == PositionBuffer
            && treeBuilder.nodes == NodeBuffer)
    }

    ghost predicate Valid()
      reads this`hasScene, this`recompile, this`programs, this`sortPass, this`treeBuilder
    {
      ProgramsReady() && PassesSized()
    }

    /** The constructor once the device checks, parsing and validation are done. */
    constructor (options: Options, limits: Limits)
      requires ValidLimits(limits) && Validated(options, limits)
      requires 1 <= options.path.logSubspaceSize <= 31
      ensures Configured() && Valid() && this.options == options && this.limits == limits
      ensures !hasScene && enabled && !recompile && varsChanged && !optionsChanged
      ensures !gbufferAdjustShadingNormals && fixedSampleCount && !useVertexMerge && !useSubspace
      ensures frameCount == 0 && frameDim == (0, 0) && screenTiles == (0, 0)
      ensures programs == {} && pathTracerBlocks == 0 && resources == map[]
      ensures prevGatherPoints.None? && gatherPoints.None? && sortPass == null && treeBuilder == null
    {
      this.limits := limits;
      this.subspaceGroupSize := Pow2(options.path.logSubspaceSize - 1);
      this.options := options;
      hasScene := false;
      frameDim, screenTiles := (0, 0), (0, 0);
      frameCount, seed := 0, 0;
      enabled, recompile, varsChanged, optionsChanged := true, false, true, false;
      gbufferAdjustShadingNormals, fixedSampleCount := false, true;
      useVertexMerge, useSubspace := false, false;
      programs, pathTracerBlocks, resources := {}, 0, map[];
      prevGatherPoints, gatherPoints := None, None;
      sortPass, treeBuilder := null, null;
    }

    /**
     * `BDPT::create`: no pass when the device lacks shader model 6.5 or
     * raytracing tier 1.1, or when a dictionary value does not convert;
     * otherwise a pass whose options are the defaults updated from the
     * dictionary and validated.
     */
    static method Create(caps: DeviceCaps, d: Dictionary<Key>, tinyUniformGenerator: nat, fixedSeed: nat,
                         useFixedSeed: bool, limits: Limits)
      returns (pass: Bdpt?, warnings: seq<Warning>)
      requires ValidLimits(limits)
      ensures var defaults := DefaultOptions(tinyUniformGenerator, fixedSeed, useFixedSeed);
        pass != null <==> caps.shaderModel65 && caps.raytracingTier11 && Parse(defaults, d).Some?
      ensures var defaults := DefaultOptions(tinyUniformGenerator, fixedSeed, useFixedSeed);
        pass != null ==>
          && fresh(pass) && pass.Configured() && pass.Valid() && !pass.hasScene
          && pass.options == Validate(Parse(defaults, d).value, limits)
          && warnings == ParseWarnings(defaults, d) + ValidateWarnings(Parse(defaults, d).value, limits)
    {
      if !caps.shaderModel65 || !caps.raytracingTier11 {
        return null, [];
      }
      var defaults := DefaultOptions(tinyUniformGenerator, fixedSeed, useFixedSeed);
      var parsed, parseWarnings := ParseDictionary(defaults, d);
      if parsed.None? {
        return null, [];
      }
      ParseKeepsPathSizes(defaults, d);
      var opts := Validate(parsed.value, limits);
      warnings := parseWarnings + ValidateWarnings(parsed.value, limits);
      pass := new Bdpt(opts, limits);
    }

    /** `setFrameDim`: the size is stored before the check that throws. */
    method SetFrameDim(dim: (nat, nat)) returns (ok: bool)
      modifies this`frameDim, this`screenTiles, this`varsChanged
      ensures frameDim == dim
      ensures ok <==> WithinFrameLimits(dim, limits)
      ensures ok ==> screenTiles == ScreenTiles(dim)
      ensures ok ==> varsChanged == (old(varsChanged) || dim != old(frameDim) || ScreenTiles(dim) != old(screenTiles))
      ensures !ok ==> screenTiles == old(screenTiles) && varsChanged == old(varsChanged)
    {
      var prevFrameDim, prevScreenTiles := frameDim, screenTiles;
      frameDim := dim;
      if !WithinFrameLimits(dim, limits) {
        return false;
      }
      screenTiles := ScreenTiles(dim);
      if frameDim != prevFrameDim || screenTiles != prevScreenTiles {
        varsChanged := true;
      }
      ok := true;
    }

    /**
     * `setScene`: the frame counter and size restart, the scene-dependent
     * programs are dropped, and a recompile is pending (re-validating the
     * options leaves them as they are).
     */
    method SetScene(scene: bool)
      modifies this`hasScene, this`frameCount, this`frameDim, this`screenTiles, this`programs, this`recompile
      ensures ProgramsReady()
      ensures hasScene == scene && frameCount == 0 && frameDim == (0, 0) && screenTiles == (0, 0)
      ensures programs == old(programs) * {RISReusePass}
      ensures recompile
    {
      hasScene := scene;
      frameCount := 0;
      frameDim, screenTiles := (0, 0), (0, 0);
      programs := programs * {RISReusePass};
      recompile := true;
    }

    /**
     * `renderUI` restricted to the modelled checkboxes: enabling the output
     * asks for a recompile; any change marks the options changed (their
     * re-validation leaves them as they are).  The subspace checkbox is
     * shown only while vertex merging is off.
     */
    method RenderUI(edit: UiEdit)
      requires ProgramsReady()
      modifies this`enabled, this`useVertexMerge, this`useSubspace, this`recompile, this`optionsChanged
      ensures ProgramsReady()
      ensures enabled == edit.enable && useVertexMerge == edit.vertexMerge
      ensures useSubspace == if edit.vertexMerge then old(useSubspace) else edit.subspace
      ensures recompile == (old(recompile) || edit.enable != old(enabled))
      ensures optionsChanged == (old(optionsChanged) || enabled != old(enabled)
                                 || useVertexMerge != old(useVertexMerge) || useSubspace != old(useSubspace))
    {
      var dirty := edit.enable != enabled;
      var runtimeDirty := edit.vertexMerge != useVertexMerge;
      enabled := edit.enable;
      useVertexMerge := edit.vertexMerge;
      if !useVertexMerge {
        runtimeDirty := runtimeDirty || edit.subspace != useSubspace;
        useSubspace := edit.subspace;
      }
      if dirty {
        recompile := true;
      }
      if dirty || runtimeDirty {
        optionsChanged := true;
      }
    }

    /**
     * `beginFrame`: takes the output size (failing past the limits), turns
     * the pass off on a size mismatch, skips the frame without scene or
     * when off, and otherwise goes on with `StartFrame`.
     */
    method BeginFrame(input: FrameInput) returns (outcome: FrameOutcome, events: seq<Event>)
      requires ProgramsReady()
      modifies this`frameDim, this`screenTiles, this`varsChanged, this`enabled, this`optionsChanged,
               this`recompile, this`gbufferAdjustShadingNormals, this`fixedSampleCount, this`seed
      ensures ProgramsReady() && frameDim == input.outputDim
      ensures outcome == Failed <==> !WithinFrameLimits(input.outputDim, limits)
      ensures outcome == Skipped <==>
        WithinFrameLimits(input.outputDim, limits) && !(hasScene && old(enabled) && !input.ioSizeMismatch)
      ensures outcome == Failed ==> enabled == old(enabled) && events == [] && recompile == old(recompile)
      ensures outcome != Failed ==>
        screenTiles == ScreenTiles(input.outputDim) && enabled == (old(enabled) && !input.ioSizeMismatch)
      ensures outcome == Skipped ==>
        events == SkipEvents(old(optionsChanged)) && optionsChanged == old(optionsChanged) && recompile == old(recompile)
      ensures outcome == Rendered ==> events == StartEvents(old(optionsChanged), input.lightingChanged) && !optionsChanged
      ensures outcome == Rendered ==>
        && recompile == (old(recompile) || input.materialsChanged || input.lightingRecompile
                         || input.gbufferAdjustShadingNormals != old(gbufferAdjustShadingNormals))
        && gbufferAdjustShadingNormals == input.gbufferAdjustShadingNormals
        && fixedSampleCount == !input.sampleCountConnected
        && seed == FrameSeed(options, frameCount)
    {
      var ok := SetFrameDim(input.outputDim);
      if !ok {
        return Failed, [];
      }
      if enabled && input.ioSizeMismatch {
        enabled := false;
      }
      if !hasScene || !enabled {
        events := SkipEvents(optionsChanged);
        return Skipped, events;
      }
      events := StartFrame(input);
      outcome := Rendered;
    }

    /**
     * The rest of `beginFrame` on a frame that is rendered: the refresh
     * flags, what needs recompiling, the sample count and the seed.
     */
    method StartFrame(input: FrameInput) returns (events: seq<Event>)
      requires ProgramsReady()
      modifies this`optionsChanged, this`recompile, this`gbufferAdjustShadingNormals, this`fixedSampleCount, this`seed
      ensures ProgramsReady()
      ensures events == StartEvents(old(optionsChanged), input.lightingChanged)
      ensures !optionsChanged
      ensures recompile == (old(recompile) || input.materialsChanged || input.lightingRecompile
                            || input.gbufferAdjustShadingNormals != old(gbufferAdjustShadingNormals))
      ensures gbufferAdjustShadingNormals == input.gbufferAdjustShadingNormals
      ensures fixedSampleCount == !input.sampleCountConnected
      ensures seed == FrameSeed(options, frameCount)
    {
      if input.materialsChanged || input.lightingRecompile {
        recompile := true;
      }
      events := StartEvents(optionsChanged, input.lightingChanged);
      if optionsChanged || input.lightingChanged {
        optionsChanged := false;
      }
      if input.gbufferAdjustShadingNormals != gbufferAdjustShadingNormals {
        gbufferAdjustShadingNormals := input.gbufferAdjustShadingNormals;
        recompile := true;
      }
      fixedSampleCount := !input.sampleCountConnected;
      seed := FrameSeed(options, frameCount);
    }

    /** `updatePrograms`: on a pending recompile the missing programs are created and the vars rebound. */
    method UpdatePrograms()
      requires ProgramsReady() && hasScene
      modifies this`programs, this`varsChanged, this`recompile
      ensures programs == AllPrograms() && !recompile
      ensures varsChanged == (old(varsChanged) || old(recompile))
    {
      if !recompile {
        return;
      }
      programs := AllPrograms();
      varsChanged := true;
      recompile := false;
    }

    /**
     * `prepareResources`: every missing resource is created at the size
     * wanted now, and nothing that exists is re-created; the reservoir is
     * cleared when it is created.
     */
    method PrepareResources() returns (events: seq<Event>)
      requires PassesSized() && LightVertexElementCount(options) >= 1
      modifies this`resources, this`prevGatherPoints, this`gatherPoints, this`sortPass, this`treeBuilder
      ensures PassesSized() && sortPass != null && treeBuilder != null
      ensures resources == Fill(old(resources), Wanted(options, limits, frameDim))
      ensures events == PrepareEvents(old(resources))
      ensures prevGatherPoints == Some(LazyGatherPoints(old(prevGatherPoints), 0, frameDim))
      ensures gatherPoints == Some(LazyGatherPoints(old(gatherPoints), 1, frameDim))
      ensures old(sortPass) != null ==> sortPass == old(sortPass)
      ensures old(sortPass) == null ==> fresh(sortPass)
      ensures old(treeBuilder) != null ==> treeBuilder == old(treeBuilder)
      ensures old(treeBuilder) == null ==> fresh(treeBuilder)
    {
      events := PrepareEvents(resources);
      resources := Fill(resources, Wanted(options, limits, frameDim));
      if sortPass == null {
        sortPass := new Bitonic64.Sorter(IndexBuffer, 0);
      }
      if treeBuilder == null {
        treeBuilder := new VertexTree.Builder(IndexBuffer, PositionBuffer, NodeBuffer, LightVertexElementCount(options));
      }
      prevGatherPoints := Some(LazyGatherPoints(prevGatherPoints, 0, frameDim));
      gatherPoints := Some(LazyGatherPoints(gatherPoints, 1, frameDim));
    }

    /**
     * `preparePathTracer`: the parameter block is re-created when missing
     * or when vars changed; with vertex merging the previous gather points
     * are bound as input and the current ones as output.
     */
    method PreparePathTracer() returns (events: seq<Event>)
      requires prevGatherPoints.Some? && gatherPoints.Some?
      modifies this`pathTracerBlocks, this`varsChanged
      ensures pathTracerBlocks == if old(pathTracerBlocks) == 0 || old(varsChanged)
                                  then old(pathTracerBlocks) + 1 else old(pathTracerBlocks)
      ensures varsChanged == (old(pathTracerBlocks) == 0 || old(varsChanged))
      ensures events == if useVertexMerge then [BindGatherPoints(prevGatherPoints.value.id, gatherPoints.value.id)] else []
    {
      if pathTracerBlocks == 0 || varsChanged {
        pathTracerBlocks := pathTracerBlocks + 1;
        varsChanged := true;
      }
      events := if useVertexMerge then [BindGatherPoints(prevGatherPoints.value.id, gatherPoints.value.id)] else [];
    }

    /**
     * Path generation, the light pass, the sort of the `counter` light
     * vertices it appended and the tree over them; the tree fits the node
     * buffer.
     */
    method TraceAndBuild(counter: nat) returns (events: seq<Event>)
      requires PassesSized() && sortPass != null && treeBuilder != null
      requires 1 <= counter <= LightVertexElementCount(options) && counter <= MaxSortedVertices
      modifies sortPass`listCount, treeBuilder`realLeafNodesNum, treeBuilder`leafNodesNum, treeBuilder`nodesNum, treeBuilder`treeLevels
      ensures PassesSized()
      ensures events == HeadEvents(options, frameDim)
                        + SortEvents(Bitonic64.SortCommands(IndexBuffer, counter))
                        + TreeEvents(TreeCommands(counter))
      ensures treeBuilder.nodesNum <= treeBuilder.nodesCapacity
    {
      events := HeadEvents(options, frameDim);
      sortPass.SetListCount(counter);
      var sorted := sortPass.Sort();
      treeBuilder.Update(counter);
      Pow2Limits();
      CeilLog2Bounded(counter, 30);
      var tree := treeBuilder.Build();
      events := events + SortEvents(sorted) + TreeEvents(tree);
    }

    /** The camera pass against the tree, the copy to the output, the subspace update and `endFrame`. */
    method ShadeAndEnd(counter: nat) returns (events: seq<Event>)
      requires Configured()
      modifies this`prevGatherPoints, this`gatherPoints, this`varsChanged, this`frameCount
      ensures events == TailEvents(options, frameDim, counter, useSubspace, old(frameCount))
      ensures (prevGatherPoints, gatherPoints)
              == EndFrameSwap(useVertexMerge, (old(prevGatherPoints), old(gatherPoints)))
      ensures !varsChanged && frameCount == NextFrameCount(old(frameCount))
    {
      events := [Barrier(TreeNodes),
                 TraceCameraPaths(frameDim.0, frameDim.1, VertexTree.LeafNodes(counter), counter),
                 Barrier(SubspaceReservoir), Barrier(GatherPointsCurrent), Barrier(SubspaceWeight(0)),
                 Barrier(SubspaceCount(0)), Barrier(SubspaceSecondaryMoment), Barrier(OutputTexture),
                 CopyToOutputColor];
      if useSubspace {
        var subspace := BuildSubspaceWeightMatrix();
        events := events + subspace;
      }
      var end := EndFrame();
      events := events + end;
    }

    /** `buildSubspaceWeightMatrix`. */
    method BuildSubspaceWeightMatrix() returns (events: seq<Event>)
      requires Configured()
      ensures events == SubspaceEvents(options, frameCount)
    {
      var groupSize := subspaceGroupSize;
      var texSize := groupSize * 2;
      events := [Merge(texSize, texSize, 0),
                 Barrier(SubspaceWeight(1)), Barrier(SubspaceCount(1)), Barrier(SubspaceSecondaryMoment),
                 PrefixSum(groupSize, texSize, frameCount),
                 Barrier(PrefixOfWeight), Barrier(SumOfWeight), Barrier(PrefixOfCount), Barrier(SumOfCount),
                 Barrier(SubspaceSecondaryMoment), Barrier(PrefixOfSecondaryMoment), Barrier(SumOfSecondaryMoment),
                 Barrier(MaxVariance)];
    }

    /** `endFrame`: clears, swaps the gather points when merging, and counts the frame. */
    method EndFrame() returns (events: seq<Event>)
      modifies this`prevGatherPoints, this`gatherPoints, this`varsChanged, this`frameCount
      ensures events == EndFrameEvents()
      ensures (prevGatherPoints, gatherPoints)
              == EndFrameSwap(useVertexMerge, (old(prevGatherPoints), old(gatherPoints)))
      ensures !varsChanged && frameCount == NextFrameCount(old(frameCount))
    {
      events := EndFrameEvents();
      if useVertexMerge {
        prevGatherPoints, gatherPoints := gatherPoints, prevGatherPoints;
      }
      varsChanged := false;
      frameCount := NextFrameCount(frameCount);
    }

    /**
     * A frame `beginFrame` lets through: `updatePrograms`,
     * `prepareResources` and `preparePathTracer`, then the frame's work
     * over the `counter` light vertices.
     */
    method RenderFrame(counter: nat) returns (setup: seq<Event>, work: seq<Event>)
      requires Configured() && ProgramsReady() && hasScene && PassesSized()
      requires 1 <= counter <= LightVertexElementCount(options) && counter <= MaxSortedVertices
      modifies this`programs, this`varsChanged, this`recompile, this`resources, this`prevGatherPoints,
               this`gatherPoints, this`sortPass, this`treeBuilder, this`pathTracerBlocks, this`frameCount,
               sortPass, treeBuilder
      ensures PassesSized()
      ensures setup == SetupEvents(old(resources), useVertexMerge, old(prevGatherPoints), old(gatherPoints), frameDim)
      ensures work == FrameEvents(options, frameDim, counter, useSubspace, old(frameCount))
      ensures programs == AllPrograms() && !recompile && !varsChanged
      ensures frameCount == NextFrameCount(old(frameCount))
      ensures resources == Fill(old(resources), Wanted(options, limits, frameDim))
      ensures (prevGatherPoints, gatherPoints)
              == EndFrameSwap(useVertexMerge, (Some(LazyGatherPoints(old(prevGatherPoints), 0, frameDim)),
                                               Some(LazyGatherPoints(old(gatherPoints), 1, frameDim))))
    {
      setup := Prepare();
      assert unchanged(this`frameDim, this`useVertexMerge, this`useSubspace, this`frameCount);
      label Prepared:
      work := Render(counter);
      assert unchanged(this`frameDim, this`useVertexMerge, this`useSubspace);
      assert unchanged@Prepared(this`programs, this`recompile, this`resources);
    }

    /** `updatePrograms`, `prepareResources` and `preparePathTracer`, in that order. */
    method Prepare() returns (events: seq<Event>)
      requires ProgramsReady() && hasScene && PassesSized() && LightVertexElementCount(options) >= 1
      modifies this`programs, this`varsChanged, this`recompile, this`resources, this`prevGatherPoints,
               this`gatherPoints, this`sortPass, this`treeBuilder, this`pathTracerBlocks
      ensures programs == AllPrograms() && !recompile
      ensures PassesSized() && sortPass != null && treeBuilder != null
      ensures old(sortPass) != null ==> sortPass == old(sortPass)
      ensures old(sortPass) == null ==> fresh(sortPass)
      ensures old(treeBuilder) != null ==> treeBuilder == old(treeBuilder)
      ensures old(treeBuilder) == null ==> fresh(treeBuilder)
      ensures resources == Fill(old(resources), Wanted(options, limits, frameDim))
      ensures prevGatherPoints == Some(LazyGatherPoints(old(prevGatherPoints), 0, frameDim))
      ensures gatherPoints == Some(LazyGatherPoints(old(gatherPoints), 1, frameDim))
      ensures events == SetupEvents(old(resources), useVertexMerge, old(prevGatherPoints), old(gatherPoints), frameDim)
    {
      UpdatePrograms();
      var prepared := PrepareResources();
      var bound := PreparePathTracer();
      events := prepared + bound;
    }

    /** The frame from `generatePaths` to `endFrame`, over the `counter` light vertices. */
    method Render(counter: nat) returns (events: seq<Event>)
      requires Configured() && PassesSized() && sortPass != null && treeBuilder != null
      requires 1 <= counter <= LightVertexElementCount(options) && counter <= MaxSortedVertices
      modifies this`prevGatherPoints, this`gatherPoints, this`varsChanged, this`frameCount,
               sortPass`listCount, treeBuilder`realLeafNodesNum, treeBuilder`leafNodesNum, treeBuilder`nodesNum, treeBuilder`treeLevels
      ensures PassesSized()
      ensures events == FrameEvents(options, frameDim, counter, useSubspace, old(frameCount))
      ensures treeBuilder.nodesNum <= treeBuilder.nodesCapacity
      ensures (prevGatherPoints, gatherPoints)
              == EndFrameSwap(useVertexMerge, (old(prevGatherPoints), old(gatherPoints)))
      ensures !varsChanged && frameCount == NextFrameCount(old(frameCount))
    {
      var traced := TraceAndBuild(counter);
      var shaded := ShadeAndEnd(counter);
      events := traced + shaded;
    }

    /**
     * `execute`: `beginFrame`, and on a frame it lets through the
     * preparation and the frame's work.  `setup` is what precedes path
     * generation, `work` the frame itself.
     */
    method Execute(input: FrameInput) returns (outcome: FrameOutcome, setup: seq<Event>, work: seq<Event>)
      requires Configured() && Valid()
      requires 1 <= input.counter <= LightVertexElementCount(options) && input.counter <= MaxSortedVertices
      modifies this, sortPass, treeBuilder
      ensures Valid()
      ensures outcome == Failed <==> !WithinFrameLimits(input.outputDim, limits)
      ensures outcome == Skipped <==>
        WithinFrameLimits(input.outputDim, limits) && !(old(hasScene) && old(enabled) && !input.ioSizeMismatch)
      ensures outcome != Rendered ==> work == [] && frameCount == old(frameCount)
      ensures outcome == Skipped ==> setup == SkipEvents(old(optionsChanged))
      ensures outcome == Rendered ==>
        setup == StartEvents(old(optionsChanged), input.lightingChanged)
                 + SetupEvents(old(resources), old(useVertexMerge), old(prevGatherPoints), old(gatherPoints),
                               input.outputDim)
      ensures outcome == Rendered ==>
        && work == FrameEvents(options, frameDim, input.counter, useSubspace, old(frameCount))
        && programs == AllPrograms() && !recompile && !varsChanged
        && frameCount == NextFrameCount(old(frameCount))
        && resources == Fill(old(resources), Wanted(options, limits, input.outputDim))
        && (prevGatherPoints, gatherPoints)
           == EndFrameSwap(old(useVertexMerge), (Some(LazyGatherPoints(old(prevGatherPoints), 0, input.outputDim)),
                                                 Some(LazyGatherPoints(old(gatherPoints), 1, input.outputDim))))
    {
      outcome, setup := BeginFrame(input);
      if outcome == Rendered {
        assert unchanged(this`useSubspace, this`useVertexMerge, this`resources, this`frameCount,
                         this`prevGatherPoints, this`gatherPoints);
        var prepared;
        prepared, work := RenderFrame(input.counter);
        setup := setup + prepared;
      } else {
        work := [];
      }
    }
  }
}
