# BDPT-by-Falcor host scheduling, modelled in Dafny

This project models the host side of the BDPT-by-Falcor render passes. These are the C++ parts that
run on the CPU each frame and decide which GPU work is recorded, in what order, with which
constants and over which buffers. The shaders themselves are not modelled. Each GPU command
(a dispatch, a barrier, a copy, a clear, a resource creation) becomes a value of an event or command
datatype, and a frame's work becomes a sequence of them.

The modules are:

- `PowerOfTwo` (`pow2.dfy`): `1 << e`, `ceil(log2(x))` and `1 << ceil(log2(x))`, the arithmetic
  that the sort and the tree builder size themselves with.
- `Bitonic64` (`bitonic64_sort.dfy`): class `Sorter` models `Bitonic64Sort`. `sort()` records an
  argument pass, a pre-sort, and one block of outer merges plus an inner sort per power of two
  `k`. The model proves how many dispatches that is, that they fit the argument buffer's 253
  records, and which constants each dispatch carries.
- `VertexTree` (`vertex_tree_builder.dfy`): class `Builder` models `VertexTreeBuilder`, the bottom-up
  construction of the light-vertex tree. The level-zero pass runs one thread per leaf. The internal
  levels are grouped several to a dispatch while they are narrow. The model proves that the
  dispatches partition the levels and build every internal node once, and that the tree fits the
  node buffer.
- `MortonCode` (`morton_code.dfy`): class `MortonCodeSort` models `MordenCodeSort`. Its bounding-box
  reduction chains ping-pong between two scratch buffers, with three passes at most for every count
  up to `MaxCount` (2^32 - 2048, the largest for which `count + 2047` does not wrap). The Morton-key
  dispatch follows them.
- `Dictionaries` (`dictionary.dfy`): a Falcor `Dictionary` as an ordered sequence of key/value
  entries.
- `BdptOptions` (`bdpt_options.dfy`): the BDPT pass's options (`StaticParams` and the
  dictionary-settable runtime parameters). It models `parseDictionary`, `validateOptions` and
  `getScriptingDictionary`, and proves the round trip between them. Values are converted to the
  field's type as the scripting bindings convert them: an integer given for a flag reads as its truth
  value, a flag given for a count reads as 0 or 1, and an enumerator must belong to the field's own
  enumeration.
- `BdptRenderPass` (`bdpt_pass.dfy`): class `Bdpt` models the `BDPT` render pass's state machine:
  construction, `setScene`, `setFrameDim`, the modelled `renderUI` switches, `beginFrame`,
  `updatePrograms`, the lazy creation in `prepareResources`, `preparePathTracer`, the frame's work
  (path generation, the light pass, the sort, the tree, the camera pass, the subspace matrix
  update) and `endFrame`. The lemmas state:
  - the order of the frame's phases;
  - that the sort, the tree and the camera pass agree on the light-vertex count;
  - that resources are fixed after the first preparation;
  - the frame seeds;
  - that the gather-point double buffer alternates.
- `ReSTIRRenderPass` (`restir_pass.dfy`): class `ReSTIRPass` models the ReSTIR pass:
  - `create` and `getScriptingDictionary`, and their round trip;
  - the 32-bit reservoir pitch arithmetic;
  - the two-layer reservoir ping-pong of the initial, temporal, spatial and shading passes;
  - the `mNeedUpdateDefines` protocol.

Limits that are defined outside the shown source (`kMaxSamplesPerPixel`, `kMaxBounces`,
`kMaxFrameDimension`, `kMaxFrameDimensionY`) are parameters of the model, in a `Limits` record.
The light-vertex count that the host reads back from the GPU counter is an input of `execute`.

Notes on the code as written:

- `Bitonic64Sort::setListCount` only stores the count. It does not rebind the buffer.
- `VertexTreeBuilder` keeps one node buffer, with no double buffering across frames.
- `VertexTreeBuilder::update` uses only the vertex count. The radius that `BDPT::execute` passes is
  not used by the modelled code.
- `MordenCodeSort` is modelled as written, although the BDPT pass never creates one.
- ReSTIR's `renderUI` assigns `mNeedUpdateDefines = dirty`. A frame whose widgets did not change
  therefore cancels an update that is still pending. `RenderUI` keeps this, and states that the
  defines stay current only when no update was pending.

## Model

| member | source | states |
|---|---|---|
| PowerOfTwo.CeilLog2 | Source/RenderPasses/BDPT/Bitonic64Sort.cpp:32 | `ceil(log2(x))` is the least exponent whose power of two reaches `x` |
| PowerOfTwo.NextPow2 | Source/RenderPasses/BDPT/VertexTreeBuilder.cpp:11-15 | `1 << ceil(log2(x))` lies in `[x, 2x)` |
| PowerOfTwo.NextPow2Monotone | Source/RenderPasses/BDPT/VertexTreeBuilder.cpp:11-15 | the rounded-up node count never shrinks when the count grows |
| PowerOfTwo.CeilLog2OfPow2 | Source/RenderPasses/BDPT/Bitonic64Sort.cpp:32 | the logarithm of a power of two is its exponent |
| Bitonic64.MaxIterationsFromSource | Source/RenderPasses/BDPT/Bitonic64Sort.cpp:30-32 | the number of rounds the model counts equals `ceil(log2(max(2048, MaxNumElements))) - 10` |
| Bitonic64.IssuedLayout | Source/RenderPasses/BDPT/Bitonic64Sort.cpp:40-65 | the i-th indirect dispatch reads argument record i (offset `12 * i`), and a barrier on the keys precedes each |
| Bitonic64.IssuedFromPasses | Source/RenderPasses/BDPT/Bitonic64Sort.cpp:40-65 | every recorded command is a barrier or a dispatch of one of the passes |
| Bitonic64.SortPassCount | Source/RenderPasses/BDPT/Bitonic64Sort.cpp:36-66 | `sort()` issues `MaxIterations * (MaxIterations + 1) / 2` indirect dispatches |
| Bitonic64.SortFitsArgsBuffer | Source/RenderPasses/BDPT/Bitonic64Sort.cpp:19 | the reference schedule for any list length below 2^32 fits the `22 * 23 / 2` argument records, with at most 22 rounds; `sort()` itself reaches that schedule only for lengths up to 2^30 |
| Bitonic64.SmallListPreSortOnly | Source/RenderPasses/BDPT/Bitonic64Sort.cpp:36-44 | a list of at most 2048 keys is sorted by the pre-sort alone |
| Bitonic64.SortPassConstants | Source/RenderPasses/BDPT/Bitonic64Sort.cpp:51-65 | every pass carries the list length; every outer merge has power-of-two `k`, `j` with `2048 <= j < k <= MaxNumElements` |
| Bitonic64.OuterPassesLength | Source/RenderPasses/BDPT/Bitonic64Sort.cpp:52-60 | the `j` loop runs once per power of two from `k/2` down to 2048 |
| Bitonic64.BlocksLength | Source/RenderPasses/BDPT/Bitonic64Sort.cpp:51-66 | the blocks up to `2^top` hold a triangular number of passes |
| Bitonic64.Sorter.constructor | Source/RenderPasses/BDPT/Bitonic64Sort.cpp:11-25 | 8-byte elements, the key buffer and count given, and 253 argument records |
| Bitonic64.Sorter.SetListCount | Source/RenderPasses/BDPT/Bitonic64Sort.h:10 | only the list count changes |
| Bitonic64.Sorter.Sort | Source/RenderPasses/BDPT/Bitonic64Sort.cpp:27-67 | the recorded commands are the argument pass, the pre-sort and every merge block, each dispatch at its argument offset |
| Bitonic64.Sorter.RecordBlock | Source/RenderPasses/BDPT/Bitonic64Sort.cpp:51-66 | one `k` iteration appends the outer merges for `j = k/2 .. 2048`, then the inner sort, advancing the offset by 12 per dispatch |
| Bitonic64.Sorter.RecordPass | Source/RenderPasses/BDPT/Bitonic64Sort.cpp:55-59 | one barrier and one indirect dispatch that reads the next argument record |
| VertexTree.LeafNodes | Source/RenderPasses/BDPT/VertexTreeBuilder.cpp:28-33 | the leaf count is the vertex count rounded up to a power of two, less than twice the count |
| VertexTree.GroupEnd | Source/RenderPasses/BDPT/VertexTreeBuilder.cpp:51-55 | a dispatch adds levels while the accumulated width stays within the work load, plus the level that crosses it, never past the root |
| VertexTree.ScanGroupEnd | Source/RenderPasses/BDPT/VertexTreeBuilder.cpp:51-55 | the inner loop of `GenInternalLevel` stops at `GroupEnd` |
| VertexTree.PassesPartitionLevels | Source/RenderPasses/BDPT/VertexTreeBuilder.cpp:43-69 | the dispatches cover levels `1 .. L-1` once each, in order, each reading the level below its first destination |
| VertexTree.LevelsWidthClosedForm | Source/RenderPasses/BDPT/VertexTreeBuilder.cpp:61-63 | `(1 << (L-a)) - (1 << (L-b))` counts the nodes of levels `a .. b-1` |
| VertexTree.PassThreadsAreDestinationNodes | Source/RenderPasses/BDPT/VertexTreeBuilder.cpp:61-63 | each dispatch runs exactly one thread per node of its destination levels |
| VertexTree.PassesBuildAllInternalNodes | Source/RenderPasses/BDPT/VertexTreeBuilder.cpp:43-69 | together the dispatches build every internal node once: `2^(L-1) - 1` of them |
| VertexTree.WideLevelAlone | Source/RenderPasses/BDPT/VertexTreeBuilder.cpp:51-55 | a source level wider than the work load gets a dispatch of its own |
| VertexTree.TreeFitsNodeBuffer | Source/RenderPasses/BDPT/VertexTreeBuilder.cpp:11-15 | the tree for any count up to the construction bound fits the node buffer |
| VertexTree.Builder.constructor | Source/RenderPasses/BDPT/VertexTreeBuilder.cpp:10-26 | the node buffer holds at least `2 * maxCounter` nodes |
| VertexTree.Builder.Update | Source/RenderPasses/BDPT/VertexTreeBuilder.cpp:28-33 | leaves, levels and nodes for `counter` vertices; within the bound they fit the buffer |
| VertexTree.Builder.GenLevelZeroPass | Source/RenderPasses/BDPT/VertexTreeBuilder.cpp:35-41 | one thread per leaf slot, and every real vertex among them |
| VertexTree.Builder.GenInternalLevelPasses | Source/RenderPasses/BDPT/VertexTreeBuilder.cpp:43-69 | the loop records exactly the reference dispatches for levels `1 .. L-1`, each preceded by a barrier |
| VertexTree.Builder.Build | Source/RenderPasses/BDPT/VertexTreeBuilder.cpp:71-77 | a barrier on the sorted keys, level zero, then the internal levels |
| MortonCode.ChainEndsOnce | Source/RenderPasses/BDPT/MordenCode.cpp:56-86 | exactly one reduction pass is the last pass, and it is the final one |
| MortonCode.ChainPingPong | Source/RenderPasses/BDPT/MordenCode.cpp:56-86 | each pass reads what the previous one wrote, alternating the scratch buffers, over the groups the previous one produced |
| MortonCode.ChainSpelledOut | Source/RenderPasses/BDPT/MordenCode.cpp:56-86 | the three guarded blocks of the source are the reduction chain |
| MortonCode.ChainLength | Source/RenderPasses/BDPT/MordenCode.cpp:56-86 | for every count that does not wrap, one to three passes suffice, and the third reduces at most 1024 values |
| MortonCode.ChainCommandsAppend | Source/RenderPasses/BDPT/MordenCode.cpp:70-86 | each later pass brings barriers on both scratch buffers |
| MortonCode.MortonCodeSort.constructor | Source/RenderPasses/BDPT/MordenCode.cpp:19-40 | the key list and reduction buffers hold `positionBufferUpbound` elements; the bound holds two corners |
| MortonCode.MortonCodeSort.FindBoundingBox | Source/RenderPasses/BDPT/MordenCode.cpp:53-122 | the max chain, then the min chain over the same passes |
| MortonCode.MortonCodeSort.ReduceChain | Source/RenderPasses/BDPT/MordenCode.cpp:56-86 | the guarded passes record exactly the reference chain |
| MortonCode.MortonCodeSort.GenerateMortonCode | Source/RenderPasses/BDPT/MordenCode.cpp:124-135 | clear the keys, fence the bound, one thread per position with 1024 levels |
| MortonCode.MortonCodeSort.Execute | Source/RenderPasses/BDPT/MordenCode.cpp:42-51 | fence and read the count, then the bounding box, then the keys |
| Dictionaries.Lookup | Source/RenderPasses/BDPT/BDPT.cpp:271-313 | a key is found exactly when an entry has it, and the value found is that entry's |
| Dictionaries.LookupDistinct | Source/RenderPasses/BDPT/BDPT.cpp:387-428 | in a dictionary whose keys are distinct, each entry's value is the one found |
| BdptOptions.DefaultOptions | Source/RenderPasses/BDPT/BDPT.h:135-165 | the defaults have at least one sample, a surface count no lower than the others, a non-ray-cones LOD mode and a positive subspace size |
| BdptOptions.StoreSetsOneField | Source/RenderPasses/BDPT/BDPT.cpp:274-310 | storing under one key sets exactly the field it names; `fixedSeed` also turns the fixed seed on |
| BdptOptions.StoreAll | Source/RenderPasses/BDPT/BDPT.cpp:271-313 | storing the entries succeeds exactly when every value converts to its field's type: integers and flags for counts and flags, an enumerator of the field's own enumeration, a size within 32 bits |
| BdptOptions.StoreAllFields | Source/RenderPasses/BDPT/BDPT.cpp:271-313 | after storing, each field holds the dictionary's value for its key as converted to the field's type, or its old value when the key is missing |
| BdptOptions.ParseConvertsScalars | Source/RenderPasses/BDPT/BDPT.cpp:283-297 | an integer given for a flag reads as its truth value, a flag given for a count as 1, and an enumerator of another enumeration makes the parse fail |
| Dictionaries.AsBool | Source/RenderPasses/BDPT/BDPT.cpp:283-286 | a value read into a flag is false exactly for `false` and the integer 0 |
| Dictionaries.AsUInt32 | Source/RenderPasses/BDPT/BDPT.cpp:274-278 | a value read into a count fits 32 bits, keeps an integer's value and reads a flag as 0 or 1 |
| BdptOptions.ParseDictionary | Source/RenderPasses/BDPT/BDPT.cpp:269-338 | the loop computes the reference parse and logs the reference warnings |
| BdptOptions.ParseDefaultsBounces | Source/RenderPasses/BDPT/BDPT.cpp:315-326 | a given surface count (as converted) fills the counts left out; without one it is the largest of the other three |
| BdptOptions.ParseIgnoresUnknownKey | Source/RenderPasses/BDPT/BDPT.cpp:312 | an unknown key changes no option and adds its warning in order |
| BdptOptions.ParseFixedSeed | Source/RenderPasses/BDPT/BDPT.cpp:282 | a `fixedSeed` entry sets the seed and turns the fixed seed on; otherwise both keep their values |
| BdptOptions.ParseKeepsPathSizes | Source/RenderPasses/BDPT/BDPT.cpp:271-313 | no dictionary key reaches the light-pass and subspace sizes |
| BdptOptions.Validate | Source/RenderPasses/BDPT/BDPT.cpp:340-378 | the result is within the limits, with the surface count no lower than the others |
| BdptOptions.ValidateFixedPoints | Source/RenderPasses/BDPT/BDPT.cpp:340-378 | validation leaves exactly the valid options unchanged, so it is idempotent |
| BdptOptions.ValidateChangesOnlyWhatIsOutOfRange | Source/RenderPasses/BDPT/BDPT.cpp:349-377 | counts in range are kept, others are clamped, the surface count becomes the largest count up to the limit, and nothing else changes |
| BdptOptions.DefaultsAreValid | Source/RenderPasses/BDPT/BDPT.cpp:340-378 | the defaults pass validation unchanged |
| BdptOptions.ValidateWarnsOnChange | Source/RenderPasses/BDPT/BDPT.cpp:349-377 | validation is silent exactly when all it does is raise the surface count |
| BdptOptions.LookupEmit | Source/RenderPasses/BDPT/BDPT.cpp:387-428 | the emitted dictionary has a listed key's field value, and no unlisted key |
| BdptOptions.ScriptContents | Source/RenderPasses/BDPT/BDPT.cpp:380-429 | every key is written except `fixedSeed` without a fixed seed, `lightBVHOptions` without the BVH sampler and `fixedOutputSize` without a fixed size, each with the field it names |
| BdptOptions.SamplingKeysWritten | Source/RenderPasses/BDPT/BDPT.cpp:397-408 | a sampling key is written exactly when its condition holds |
| BdptOptions.OutputKeysWritten | Source/RenderPasses/BDPT/BDPT.cpp:424-426 | an output key is written exactly when its condition holds |
| BdptOptions.EmitAccepted | Source/RenderPasses/BDPT/BDPT.cpp:387-428 | every written entry converts back to its field's type |
| BdptOptions.FieldAccepted | Source/RenderPasses/BDPT/BDPT.cpp:387-428 | the value written for a field converts back to that field's type, and to the same value |
| BdptOptions.ScriptRoundTrip | Source/RenderPasses/BDPT/BDPT.cpp:269-429 | parsing and validating a valid pass's dictionary reproduces its options, keeping the reader's own fields that the dictionary leaves out |
| BdptOptions.ScriptFieldsReadBack | Source/RenderPasses/BDPT/BDPT.cpp:380-429 | storing the written dictionary gives every field its read-back value |
| BdptRenderPass.DivRoundUp | Source/RenderPasses/BDPT/BDPT.cpp:456 | the fewest blocks that cover the extent |
| BdptRenderPass.SamplePairsExtent | Source/RenderPasses/BDPT/BDPT.h:320-323 | 2048 texels wide and tall enough to hold `maxNum` entries, with at most one row spare |
| BdptRenderPass.FillKeepsAndAdds | Source/RenderPasses/BDPT/BDPT.cpp:1628-1730 | a resource, once created, keeps its size; a missing one gets the size wanted now |
| BdptRenderPass.ResourcesFixedAfterFirstPrepare | Source/RenderPasses/BDPT/BDPT.cpp:1628-1730 | after the first preparation nothing is re-created, and the output keeps the first frame's size |
| BdptRenderPass.GeneratePathsCoverFrame | Source/RenderPasses/BDPT/BDPT.cpp:1904-1933 | one 256-thread group per screen tile, and the tiles cover the frame |
| BdptRenderPass.SubspaceDispatchesCoverMatrices | Source/RenderPasses/BDPT/BDPT.cpp:1962-1984 | the merge covers the subspace matrices texel for texel; the prefix sums take one group of `2^(log-1)` threads per row |
| BdptRenderPass.HeadLayout | Source/RenderPasses/BDPT/BDPT.cpp:555-585 | the light pass is the fourth event before the sort, and nothing before it sorts or builds |
| BdptRenderPass.TailLayout | Source/RenderPasses/BDPT/BDPT.cpp:616-686 | the camera pass is traced with the leaf start and the counter, and nothing after the tree sorts or builds |
| BdptRenderPass.PhasesOfConcat | Source/RenderPasses/BDPT/BDPT.cpp:573-622 | in head + sort + tree + tail, the phases stay apart |
| BdptRenderPass.FramePhasesInOrder | Source/RenderPasses/BDPT/BDPT.cpp:573-622 | light paths first, then every sort pass, then every tree pass, then the camera paths |
| BdptRenderPass.SortUsesCounter | Source/RenderPasses/BDPT/BDPT.cpp:593-597 | every sort pass sorts the read-back count of keys |
| BdptRenderPass.TreeUsesCounter | Source/RenderPasses/BDPT/BDPT.cpp:602-603 | the level-zero pass builds exactly the read-back count of real leaves |
| BdptRenderPass.PassesAgreeOnCounter | Source/RenderPasses/BDPT/BDPT.cpp:593-622 | the sort, the tree and the camera pass all use the count read back after the light pass |
| BdptRenderPass.FrameCountAfterClosedForm | Source/RenderPasses/BDPT/BDPT.cpp:2112 | the 32-bit frame counter after n frames is `(c + n) mod 2^32` |
| BdptRenderPass.SeedsAfterSceneLoad | Source/RenderPasses/BDPT/BDPT.cpp:1216 | a fixed seed is the same every frame; otherwise two frames' seeds agree exactly when the counter has wrapped between them |
| BdptRenderPass.EnabledOnlyWithoutMismatch | Source/RenderPasses/BDPT/BDPT.cpp:1120-1124 | the pass stays enabled exactly when it was enabled and no frame had a size mismatch |
| BdptRenderPass.GatherPointsAlternate | Source/RenderPasses/BDPT/BDPT.cpp:2100-2102 | the gather-point sets are as they started after an even number of merging frames, and swapped otherwise |
| BdptRenderPass.Bdpt.Create | Source/RenderPasses/BDPT/BDPT.cpp:231-249 | a pass is made exactly when the device has Shader Model 6.5 and ray-tracing tier 1.1 and every dictionary value converts; it holds the parsed and validated options, with the parse and validation warnings |
| BdptRenderPass.Bdpt.constructor | Source/RenderPasses/BDPT/BDPT.cpp:250-267 | the given (parsed and validated) options, the member defaults, and no scene, programs or resources |
| BdptRenderPass.Bdpt.SetFrameDim | Source/RenderPasses/BDPT/BDPT.cpp:442-462 | the size is stored before the check that fails; within the limits the tiles are recomputed and the vars are marked changed when either moved |
| BdptRenderPass.Bdpt.SetScene | Source/RenderPasses/BDPT/BDPT.cpp:464-497 | the frame counter and size restart, scene programs are dropped, and a recompile is pending |
| BdptRenderPass.Bdpt.RenderUI | Source/RenderPasses/BDPT/BDPT.cpp:957-1091 | the switches are set, subspace only while merging is off; enabling or disabling requests a recompile; any change marks the options changed |
| BdptRenderPass.Bdpt.BeginFrame | Source/RenderPasses/BDPT/BDPT.cpp:1099-1219 | fails past the limits, skips without a scene or when disabled, and otherwise refreshes flags, the sample count and the seed |
| BdptRenderPass.Bdpt.StartFrame | Source/RenderPasses/BDPT/BDPT.cpp:1143-1218 | the refresh flags, the recompile triggers, the sample-count switch and the seed of a rendered frame |
| BdptRenderPass.Bdpt.UpdatePrograms | Source/RenderPasses/BDPT/BDPT.cpp:1352-1438 | on a pending recompile every program exists and the vars are marked changed; then no recompile is pending |
| BdptRenderPass.Bdpt.PrepareResources | Source/RenderPasses/BDPT/BDPT.cpp:1586-1756 | every missing resource is created at the size wanted now, nothing is re-created, and the sort and tree objects are made once |
| BdptRenderPass.Bdpt.PreparePathTracer | Source/RenderPasses/BDPT/BDPT.cpp:1758-1852 | the parameter block is re-created when missing or when vars changed; with merging, the previous gather points are input and the current ones output |
| BdptRenderPass.Bdpt.TraceAndBuild | Source/RenderPasses/BDPT/BDPT.cpp:555-606 | path generation, the light pass, the sort and the tree over the read-back count, and the tree fits its buffer |
| BdptRenderPass.Bdpt.ShadeAndEnd | Source/RenderPasses/BDPT/BDPT.cpp:616-686 | the camera pass, the copy, the subspace update when enabled, and `endFrame` |
| BdptRenderPass.Bdpt.BuildSubspaceWeightMatrix | Source/RenderPasses/BDPT/BDPT.cpp:1962-1984 | the merge and prefix-sum dispatches with their barriers |
| BdptRenderPass.Bdpt.EndFrame | Source/RenderPasses/BDPT/BDPT.cpp:2069-2113 | clears, swaps the gather points when merging, clears `varsChanged` and counts the frame modulo 2^32 |
| BdptRenderPass.Bdpt.RenderFrame | Source/RenderPasses/BDPT/BDPT.cpp:543-690 | the preparation, then the frame's work in phase order, leaving programs current, resources filled and the frame counted |
| BdptRenderPass.Bdpt.Prepare | Source/RenderPasses/BDPT/BDPT.cpp:543-550 | `updatePrograms`, `prepareResources` and `preparePathTracer` in that order |
| BdptRenderPass.Bdpt.Render | Source/RenderPasses/BDPT/BDPT.cpp:555-686 | the frame from path generation to `endFrame` |
| BdptRenderPass.Bdpt.Execute | Source/RenderPasses/BDPT/BDPT.cpp:535-691 | failure, skip or a full frame as `beginFrame` decides, keeping the pass's invariant |
| ReSTIRRenderPass.U32 | Source/RenderPasses/ReSTIRPass/ReSTIRPass.cpp:134-139 | a `uint32_t` result is below 2^32 and leaves in-range values unchanged |
| ReSTIRRenderPass.LogicalNot | Source/RenderPasses/ReSTIRPass/ReSTIRPass.cpp:155 | `!x` into a `uint32_t` is 1 exactly when x is 0, and otherwise 0 |
| ReSTIRRenderPass.StoreAll | Source/RenderPasses/ReSTIRPass/ReSTIRPass.cpp:70-76 | the parse succeeds exactly when every known key has a value that converts to `bool` (a flag or an integer) |
| ReSTIRRenderPass.ParseDictionary | Source/RenderPasses/ReSTIRPass/ReSTIRPass.cpp:70-76 | the loop computes the reference parse and warns once per unknown key, in order |
| ReSTIRRenderPass.StoreAllFlags | Source/RenderPasses/ReSTIRPass/ReSTIRPass.cpp:72-74 | each flag holds the dictionary's value for its key read as `bool`, or its old value when the key is missing |
| ReSTIRRenderPass.IntegerFlagConverts | Source/RenderPasses/ReSTIRPass/ReSTIRPass.cpp:72 | `{'enableTemporalResampling': n}` creates a pass whose flag is `n != 0`; a value that is not a number fails |
| ReSTIRRenderPass.UnknownKeyOnlyWarns | Source/RenderPasses/ReSTIRPass/ReSTIRPass.cpp:75 | an unknown key changes no flag and adds its own warning |
| ReSTIRRenderPass.Script | Source/RenderPasses/ReSTIRPass/ReSTIRPass.cpp:80-87 | the written dictionary has distinct known keys and `bool` values |
| ReSTIRRenderPass.KnownKeysNoWarnings | Source/RenderPasses/ReSTIRPass/ReSTIRPass.cpp:70-76 | a dictionary of known keys raises no warning |
| ReSTIRRenderPass.ScriptContents | Source/RenderPasses/ReSTIRPass/ReSTIRPass.cpp:80-87 | every flag is written under its key, and nothing else |
| ReSTIRRenderPass.ScriptRoundTrip | Source/RenderPasses/ReSTIRPass/ReSTIRPass.cpp:67-87 | creating from a pass's dictionary gives that pass's flags, with no warning |
| ReSTIRRenderPass.DictionaryRoundTrip | Source/RenderPasses/ReSTIRPass/ReSTIRPass.cpp:67-87 | writing back a created pass gives each key its creating value read as `bool` (the value itself when it was a `bool`), or the default when left out |
| ReSTIRRenderPass.BlocksCeil | Source/RenderPasses/ReSTIRPass/ReSTIRPass.cpp:136-137 | up to the largest texture, the block count is `ceil(n / 16)` |
| ReSTIRRenderPass.PitchCoversFrame | Source/RenderPasses/ReSTIRPass/ReSTIRPass.cpp:133-145 | up to the largest texture nothing wraps, a layer holds a reservoir per pixel, and the buffer holds exactly two layers |
| ReSTIRRenderPass.ReservoirPitches | Source/RenderPasses/ReSTIRPass/ReSTIRPass.cpp:133-139 | the 32-bit computation gives the reference pitches |
| ReSTIRRenderPass.ShadeLayer | Source/RenderPasses/ReSTIRPass/ReSTIRPass.cpp:160 | the shaded layer is 0 or 1 |
| ReSTIRRenderPass.FrameLayerRules | Source/RenderPasses/ReSTIRPass/ReSTIRPass.cpp:152-233 | every layer is 0 or 1; the initial pass writes the layer last frame did not shade; temporal reads last frame's as history; spatial reads one layer and writes the other |
| ReSTIRRenderPass.FrameDataFlow | Source/RenderPasses/ReSTIRPass/ReSTIRPass.cpp:155-225 | every pass after the first reads the layer the pass before it wrote |
| ReSTIRRenderPass.ShadeLayerAcrossFrames | Source/RenderPasses/ReSTIRPass/ReSTIRPass.cpp:153-162 | with spatial resampling the shaded layer stays put; without it, it alternates; the next initial pass never overwrites it |
| ReSTIRRenderPass.ReSTIRPass.constructor | Source/RenderPasses/ReSTIRPass/ReSTIRPass.h:81-91 | the member defaults with the parsed flags, and no scene or buffers |
| ReSTIRRenderPass.ReSTIRPass.UpdateDefines | Source/RenderPasses/ReSTIRPass/ReSTIRPass.cpp:325-356 | the programs get the current settings and the request is cleared |
| ReSTIRRenderPass.ReSTIRPass.SetScene | Source/RenderPasses/ReSTIRPass/ReSTIRPass.cpp:272-323 | the programs are created from the current settings |
| ReSTIRRenderPass.ReSTIRPass.RenderUI | Source/RenderPasses/ReSTIRPass/ReSTIRPass.cpp:240-270 | given sample counts in 1..32 (the sliders' clamp), the settings take them; an update is requested exactly when a setting changed |
| ReSTIRRenderPass.ReSTIRPass.PrepareFrame | Source/RenderPasses/ReSTIRPass/ReSTIRPass.cpp:105-150 | missing sampler, previous visibility and reservoir buffers are created once, and the defines are brought up to date |
| ReSTIRRenderPass.ReSTIRPass.DispatchFrame | Source/RenderPasses/ReSTIRPass/ReSTIRPass.cpp:152-233 | the four passes follow the layer rules from last frame's shaded layer, which is then kept |
| ReSTIRRenderPass.ReSTIRPass.Execute | Source/RenderPasses/ReSTIRPass/ReSTIRPass.cpp:98-239 | nothing without a scene; otherwise preparation, the passes and the visibility copy, with the defines current |
| ReSTIRRenderPass.Create | Source/RenderPasses/ReSTIRPass/ReSTIRPass.cpp:67-78 | a pass is made exactly when every value converts, with the parsed flags and a warning per unknown key |

## Left out

- Shader code (`.slang` files), the ray-tracing dispatches' contents and all GPU-side results:
  they run on the GPU and are not part of this model. Dispatches, barriers, copies and clears are
  recorded as events.
- Floating point: `radius`, `specularRoughnessThreshold` and its clamp, `misPowerExponent`,
  `lodBias` and `checkTime`. Their values come from the scene bounds, a clock or float clamps.
- External collaborators: the lighting and material preparation, the env-map, emissive and light
  BVH samplers, RTXDI, `StaticParams::getDefines`, `TracePass`, `PixelStats` and `PixelDebug`.
  They are outside the core; where their results steer the pass, they are inputs.
- `BDPT::sortPosition`, `prepareAccelerationStructure` and the culling pass: the first is empty, and
  the others are commented out of `execute`.
- `spatiotemporalReuse`: `execute` never calls it.
- The `BDPT` UI beyond the enable, vertex-merge and subspace switches, and the `useFixedSeed` and
  `fixedSeed` script properties. In the model the options are fixed once the pass is constructed
  (`Bdpt.options` is a constant). In the source, the bounce and sample sliders, the dropdowns and
  the debug seed controls change them between frames, followed by `validateOptions` and
  `mOptionsChanged`, and the script properties set the seed. The light buffers and the tree
  builder, sized from `maxSurfaceBounces` at the first preparation, then keep their first size,
  which the model does not capture. `PassesSized` and `SeedsAfterSceneLoad` are proved only for
  options that stay fixed.
- Bdpt.Execute: requires the read-back light-vertex count to be at least 1 and within the light
  buffer and the sort's bound. The source does not guard these; a zero count makes
  `ceil(log2(0))` undefined in the sort and the tree.
- Bdpt.constructor: requires `logSubspaceSize` in 1..31. With 0, `1 << (logSubspaceSize - 1)` is
  undefined in C++.
- BdptOptions.Validate: models the integer clamps and the LOD-mode fallback but not the float
  threshold clamp (floating point).
- The limits defined outside the shown source are parameters, not constants.
- The thread counts of `BDPT` dispatches are unbounded integers. The source's `uint` could wrap,
  but only for frames beyond the supported frame limits.
- ReSTIR's env-map sampler, neighbor-offset buffer, global frame index and sample generator. They
  are external collaborators or clock values, with no effect on the modelled state.
- ReSTIRRenderPass.PitchCoversFrame: proved only up to the 16384-texel Direct3D 12 texture limit.
  Above it the 32-bit pitch arithmetic may wrap; `ReservoirPitches` still models that wrap.
- Dictionaries are ordered sequences. Falcor's own iteration order is not modelled, so the warning
  order follows the sequence.
- `VertexTreeBuilder::getTree` and the other getters only return members.
- Bitonic64.Sorter.Sort: requires `1 <= listCount <= 2^30`. The source asserts a non-zero count.
  For counts in (2^30, 2^31] its `k *= 2` on a 32-bit `uint` (Bitonic64Sort.cpp:51) wraps from
  2^31 to 0, so the `k` loop never ends and the argument offset runs past the 253 records; above
  2^31, `1 << 32` is undefined. The pass sorts at most its light buffer's capacity.
- VertexTree.Builder.Update: requires `counter >= 1`. With 0 the source sets no leaves but converts
  `ceil(log2(0))`, minus infinity, to `uint`, which C++ leaves undefined.
- VertexTree.Builder.GenInternalLevelPasses: requires `treeLevels <= 31`, i.e. counts up to 2^30.
  From 32 levels on, `1 << (treeLevels - 1 - srcLevel)` overflows the source's `int`.
- VertexTree.Builder.Build: requires `treeLevels <= 31`, for the same reason.
- VertexTree.Builder.constructor: `maxNodesNum`, like `nodesNum` in `Update`, is an unbounded
  integer. In the source `1 << 31` is already on a signed `int`, and the `uint` shift `<< 1` wraps
  the node count to 0 once the leaf count reaches 2^31, i.e. for counts above 2^30.
- VertexTree.Builder.constructor: requires `maxCounter >= 1`. With 0, VertexTreeBuilder.cpp:11
  converts `ceil(log2(0))`, minus infinity, to `uint`, which C++ leaves undefined. Validation lets
  `maxSurfaceBounces` be 0, which makes the light-vertex count 0 and reaches this case.
- BdptRenderPass.Bdpt.PrepareResources: requires the light-vertex element count to be at least 1, for the tree
  builder it creates. With `maxSurfaceBounces` 0 the source reaches the undefined `ceil(log2(0))`
  above.
- MortonCode.MortonCodeSort.Execute: requires the read-back count to be at most `MaxCount`
  (2^32 - 2048). Above it, `positionBufferCount + 2047` wraps in 32 bits and the group count
  collapses. The count comes from the GPU counter of a buffer of `positionBufferUpbound` entries.
- MortonCode.MortonCodeSort.FindBoundingBox: requires the count to be at most `MaxCount`, for the
  same reason.
- MortonCode.MortonCodeSort.ReduceChain: requires the count to be at most `MaxCount`, for the same
  reason.
- BdptOptions.StoreAll: the values of the untracked keys (`misPowerExponent`,
  `specularRoughnessThreshold`, `lodBias`, `lightBVHOptions`, `RTXDIOptions`) are not modelled,
  and their conversion is taken to succeed.
- BdptOptions.StoreAll: the rarer conversions of the scripting bindings are not modelled. A float or
  `None` given for a flag converts by its truth value, and an enumerator given for a count converts
  through its integer value; the model counts these as failed conversions. The `uint2` size is taken
  to come as a pair.
- BdptOptions.StoreAll: integers are non-negative in the model. A negative integer given for a count,
  for which the `uint32_t` conversion fails, and one given for a flag, which reads as `true`, cannot
  be written.
- ReSTIRRenderPass.StoreAll: a float or `None` given for a flag, which the bindings convert by its
  truth value, counts as a failed conversion.
- ReSTIRRenderPass.StoreAll: integers are non-negative in the model. A negative integer given for a
  flag, which the bindings read as `true`, cannot be written.
- ReSTIRRenderPass.Create: as for `StoreAll`, a float or `None` given for a flag makes no pass here.
