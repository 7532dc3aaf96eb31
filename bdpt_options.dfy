// Configuration of the BDPT pass: the static parameters with their defaults,
// reading them from a scripting dictionary (`BDPT::parseDictionary`),
// bringing them into the supported range (`BDPT::validateOptions`) and
// writing them back (`BDPT::getScriptingDictionary`).

module BdptOptions {
  import opened Dictionaries

  /**
   * The static parameters (`BDPT::StaticParams`) and the seed part of the
   * runtime parameters, in the groups the pass itself lists them in.
   * Enumerations are kept by the name of their enumerator.
   */
  datatype RenderingParams = RenderingParams(
    samplesPerPixel: nat,
    maxSurfaceBounces: nat,
    maxDiffuseBounces: nat,
    maxSpecularBounces: nat,
    maxTransmissionBounces: nat)

  /** The light-path and subspace sizes, which no dictionary key reaches. */
  datatype PathParams = PathParams(
    lightPassWidth: nat,
    lightPassHeight: nat,
    cullingHashBufferSizeBytes: nat,
    logSubspaceSize: nat)

  datatype SamplingParams = SamplingParams(
    sampleGenerator: nat,
    fixedSeed: nat,
    useFixedSeed: bool,
    useBSDFSampling: bool,
    useRussianRoulette: bool,
    useNEE: bool,
    useMIS: bool,
    misHeuristic: string,
    emissiveSampler: string,
    useRTXDI: bool)

  datatype MaterialParams = MaterialParams(
    useAlphaTest: bool,
    adjustShadingNormals: bool,
    maxNestedMaterials: nat,
    useLightsInDielectricVolumes: bool,
    disableCaustics: bool,
    primaryLodMode: string)

  /** The output size selection and the internal color format. */
  datatype OutputParams = OutputParams(
    outputSize: string,
    fixedOutputSize: (nat, nat),
    colorFormat: string)

  /** Everything the scripting dictionary reaches, and the path sizes beside it. */
  datatype Options = Options(
    rendering: RenderingParams,
    path: PathParams,
    sampling: SamplingParams,
    material: MaterialParams,
    output: OutputParams)

  /**
   * The defaults of the pass.  The numeric code of the tiny uniform sample
   * generator and the seed defaults of the runtime parameter block are
   * defined outside the pass and are parameters here.
   */
  function DefaultOptions(tinyUniformGenerator: nat, fixedSeed: nat, useFixedSeed: bool): (o: Options)
    ensures 1 <= o.rendering.samplesPerPixel
    ensures o.rendering.maxDiffuseBounces <= o.rendering.maxSurfaceBounces
    ensures o.rendering.maxSpecularBounces <= o.rendering.maxSurfaceBounces
    ensures o.rendering.maxTransmissionBounces <= o.rendering.maxSurfaceBounces
    ensures o.material.primaryLodMode != "RayCones"
    ensures o.path.logSubspaceSize >= 1
  {
    Options(
      RenderingParams(samplesPerPixel := 1,
        maxSurfaceBounces := 10, maxDiffuseBounces := 10,
        maxSpecularBounces := 10, maxTransmissionBounces := 10),
      PathParams(lightPassWidth := 512, lightPassHeight := 256,
        cullingHashBufferSizeBytes := 22, logSubspaceSize := 11),
      SamplingParams(sampleGenerator := tinyUniformGenerator,
        fixedSeed := fixedSeed, useFixedSeed := useFixedSeed,
        useBSDFSampling := true, useRussianRoulette := false,
        useNEE := true, useMIS := true,
        misHeuristic := "Balance", emissiveSampler := "LightBVH",
        useRTXDI := false),
      MaterialParams(useAlphaTest := true, adjustShadingNormals := false,
        maxNestedMaterials := 2,
        useLightsInDielectricVolumes := false, disableCaustics := false,
        primaryLodMode := "Mip0"),
      OutputParams(outputSize := "Default", fixedOutputSize := (512, 512),
        colorFormat := "LogLuvHDR"))
  }

  // The dictionary keys, classified by name and grouped as above.
  datatype RenderingKey = SamplesPerPixel | MaxSurfaceBounces | MaxDiffuseBounces | MaxSpecularBounces | MaxTransmissionBounces
  datatype SamplingKey = SampleGenerator | FixedSeed | UseBSDFSampling | UseRussianRoulette | UseNEE | UseMIS
                       | MISHeuristic | EmissiveSampler | UseRTXDI
  datatype MaterialKey = UseAlphaTest | AdjustShadingNormals | MaxNestedMaterials | UseLightsInDielectricVolumes
                       | DisableCaustics | PrimaryLodMode
  datatype OutputKey = OutputSize | FixedOutputSize | ColorFormat
  /** Keys whose values (floats and option objects) are not modelled. */
  datatype UntrackedKey = MISPowerExponent | LightBVHOptions | RTXDIOptions | SpecularRoughnessThreshold | LODBias

  /** A dictionary key; any name the pass does not know is `Unknown`. */
  datatype Key =
    | Rendering(r: RenderingKey)
    | Sampling(s: SamplingKey)
    | Material(m: MaterialKey)
    | Output(out: OutputKey)
    | Untracked(u: UntrackedKey)
    | Unknown(name: string)

  predicate Tracked(k: Key)
  {
    !k.Untracked? && !k.Unknown?
  }

  /** The C++ type of the field a key names, as far as conversion goes. */
  datatype FieldType =
    | UInt32Field
    | BoolField
    | EnumField(enumType: string)
    | SizeField
    | Unconverted

  /**
   * The type each key's field has: `uint32_t` counts, `bool` flags, the
   * enumerations by their type name, the `uint2` fixed output size.  The
   * untracked keys' values and unknown keys are not converted here.
   */
  function TypeOf(k: Key): FieldType
  {
    match k
    case Rendering(_) => UInt32Field
    case Sampling(s) =>
      (match s
       case SampleGenerator | FixedSeed => UInt32Field
       case MISHeuristic => EnumField("MISHeuristic")
       case EmissiveSampler => EnumField("EmissiveLightSamplerType")
       case _ => BoolField)
    case Material(m) =>
      (match m
       case MaxNestedMaterials => UInt32Field
       case PrimaryLodMode => EnumField("TexLODMode")
       case _ => BoolField)
    case Output(out) =>
      (match out
       case OutputSize => EnumField("IOSize")
       case FixedOutputSize => SizeField
       case ColorFormat => EnumField("ColorFormat"))
    case Untracked(_) | Unknown(_) => Unconverted
  }

  /**
   * The conversion of a dictionary value to the field's C++ type succeeds:
   * an integer or a flag for a count or a flag, an enumerator of the
   * field's own enumeration, a size whose sides fit 32 bits.  When it fails
   * the conversion throws and the pass is not created.
   */
  predicate Accepts(k: Key, v: Value)
  {
    match TypeOf(k)
    case UInt32Field => ConvertsToUInt32(v)
    case BoolField => ConvertsToBool(v)
    case EnumField(t) => v.Enum? && v.enumType == t
    case SizeField => v.Size? && v.x < UInt32Limit && v.y < UInt32Limit
    case Unconverted => true
  }

  /** The value as the field holds it after the conversion. */
  function Converted(k: Key, v: Value): Value
    requires Accepts(k, v)
  {
    match TypeOf(k)
    case UInt32Field => UInt(AsUInt32(v))
    case BoolField => Bool(AsBool(v))
    case _ => v
  }

  function RenderingField(p: RenderingParams, k: RenderingKey): nat
  {
    match k
    case SamplesPerPixel => p.samplesPerPixel
    case MaxSurfaceBounces => p.maxSurfaceBounces
    case MaxDiffuseBounces => p.maxDiffuseBounces
    case MaxSpecularBounces => p.maxSpecularBounces
    case MaxTransmissionBounces => p.maxTransmissionBounces
  }

  function SamplingField(p: SamplingParams, k: SamplingKey): Value
  {
    match k
    case SampleGenerator => UInt(p.sampleGenerator)
    case FixedSeed => UInt(p.fixedSeed)
    case UseBSDFSampling => Bool(p.useBSDFSampling)
    case UseRussianRoulette => Bool(p.useRussianRoulette)
    case UseNEE => Bool(p.useNEE)
    case UseMIS => Bool(p.useMIS)
    case MISHeuristic => Enum("MISHeuristic", p.misHeuristic)
    case EmissiveSampler => Enum("EmissiveLightSamplerType", p.emissiveSampler)
    case UseRTXDI => Bool(p.useRTXDI)
  }

  function MaterialField(p: MaterialParams, k: MaterialKey): Value
  {
    match k
    case UseAlphaTest => Bool(p.useAlphaTest)
    case AdjustShadingNormals => Bool(p.adjustShadingNormals)
    case MaxNestedMaterials => UInt(p.maxNestedMaterials)
    case UseLightsInDielectricVolumes => Bool(p.useLightsInDielectricVolumes)
    case DisableCaustics => Bool(p.disableCaustics)
    case PrimaryLodMode => Enum("TexLODMode", p.primaryLodMode)
  }

  function OutputField(p: OutputParams, k: OutputKey): Value
  {
    match k
    case OutputSize => Enum("IOSize", p.outputSize)
    case FixedOutputSize => Size(p.fixedOutputSize.0, p.fixedOutputSize.1)
    case ColorFormat => Enum("ColorFormat", p.colorFormat)
  }

  /** The field a key names, as a dictionary value. */
  function FieldOf(o: Options, k: Key): (v: Value)
    ensures Tracked(k) <==> !v.Other?
  {
    match k
    case Rendering(r) => UInt(RenderingField(o.rendering, r))
    case Sampling(s) => SamplingField(o.sampling, s)
    case Material(m) => MaterialField(o.material, m)
    case Output(out) => OutputField(o.output, out)
    case Untracked(_) | Unknown(_) => Other
  }

  function StoreRendering(p: RenderingParams, k: RenderingKey, n: nat): RenderingParams
  {
    match k
    case SamplesPerPixel => p.(samplesPerPixel := n)
    case MaxSurfaceBounces => p.(maxSurfaceBounces := n)
    case MaxDiffuseBounces => p.(maxDiffuseBounces := n)
    case MaxSpecularBounces => p.(maxSpecularBounces := n)
    case MaxTransmissionBounces => p.(maxTransmissionBounces := n)
  }

  /** `fixedSeed` also turns the fixed seed on. */
  function StoreSampling(p: SamplingParams, k: SamplingKey, v: Value): SamplingParams
    requires Accepts(Sampling(k), v)
  {
    match k
    case SampleGenerator => p.(sampleGenerator := AsUInt32(v))
    case FixedSeed => p.(fixedSeed := AsUInt32(v), useFixedSeed := true)
    case UseBSDFSampling => p.(useBSDFSampling := AsBool(v))
    case UseRussianRoulette => p.(useRussianRoulette := AsBool(v))
    case UseNEE => p.(useNEE := AsBool(v))
    case UseMIS => p.(useMIS := AsBool(v))
    case MISHeuristic => p.(misHeuristic := v.tag)
    case EmissiveSampler => p.(emissiveSampler := v.tag)
    case UseRTXDI => p.(useRTXDI := AsBool(v))
  }

  function StoreMaterial(p: MaterialParams, k: MaterialKey, v: Value): MaterialParams
    requires Accepts(Material(k), v)
  {
    match k
    case UseAlphaTest => p.(useAlphaTest := AsBool(v))
    case AdjustShadingNormals => p.(adjustShadingNormals := AsBool(v))
    case MaxNestedMaterials => p.(maxNestedMaterials := AsUInt32(v))
    case UseLightsInDielectricVolumes => p.(useLightsInDielectricVolumes := AsBool(v))
    case DisableCaustics => p.(disableCaustics := AsBool(v))
    case PrimaryLodMode => p.(primaryLodMode := v.tag)
  }

  function StoreOutput(p: OutputParams, k: OutputKey, v: Value): OutputParams
    requires Accepts(Output(k), v)
  {
    match k
    case OutputSize => p.(outputSize := v.tag)
    case FixedOutputSize => p.(fixedOutputSize := (v.x, v.y))
    case ColorFormat => p.(colorFormat := v.tag)
  }

  /**
   * One arm of the if-else chain in `parseDictionary`: store the converted
   * value in the field the key names.  A key whose value is not modelled, or
   * an unknown key (which is only reported), changes nothing here.
   */
  function Store(o: Options, k: Key, v: Value): Options
    requires Accepts(k, v)
  {
    match k
    case Rendering(r) => o.(rendering := StoreRendering(o.rendering, r, AsUInt32(v)))
    case Sampling(s) => o.(sampling := StoreSampling(o.sampling, s, v))
    case Material(m) => o.(material := StoreMaterial(o.material, m, v))
    case Output(out) => o.(output := StoreOutput(o.output, out, v))
    case Untracked(_) | Unknown(_) => o
  }

  lemma StoreRenderingOneField(p: RenderingParams, k: RenderingKey, n: nat, other: RenderingKey)
    ensures RenderingField(StoreRendering(p, k, n), other) == if other == k then n else RenderingField(p, other)
  {
  }

  lemma StoreSamplingOneField(p: SamplingParams, k: SamplingKey, v: Value, other: SamplingKey)
    requires Accepts(Sampling(k), v)
    ensures SamplingField(StoreSampling(p, k, v), other) == if other == k then Converted(Sampling(k), v) else SamplingField(p, other)
    ensures StoreSampling(p, k, v).useFixedSeed == (p.useFixedSeed || k == FixedSeed)
  {
  }

  lemma StoreMaterialOneField(p: MaterialParams, k: MaterialKey, v: Value, other: MaterialKey)
    requires Accepts(Material(k), v)
    ensures MaterialField(StoreMaterial(p, k, v), other) == if other == k then Converted(Material(k), v) else MaterialField(p, other)
  {
  }

  lemma StoreOutputOneField(p: OutputParams, k: OutputKey, v: Value, other: OutputKey)
    requires Accepts(Output(k), v)
    ensures OutputField(StoreOutput(p, k, v), other) == if other == k then v else OutputField(p, other)
  {
  }

  /**
   * Storing under one key sets exactly the field that key names and leaves
   * every other field, and every field no key names, as it was.
   */
  lemma StoreSetsOneField(o: Options, k: Key, v: Value, other: Key)
    requires Accepts(k, v)
    ensures FieldOf(Store(o, k, v), other) == if other == k && Tracked(k) then Converted(k, v) else FieldOf(o, other)
    ensures Store(o, k, v).sampling.useFixedSeed == (o.sampling.useFixedSeed || k == Sampling(FixedSeed))
    ensures Store(o, k, v).path == o.path
  {
    match k
    case Rendering(r) =>
      if other.Rendering? { StoreRenderingOneField(o.rendering, r, AsUInt32(v), other.r); }
    case Sampling(s) =>
      StoreSamplingOneField(o.sampling, s, v, s);
      if other.Sampling? { StoreSamplingOneField(o.sampling, s, v, other.s); }
    case Material(m) =>
      if other.Material? { StoreMaterialOneField(o.material, m, v, other.m); }
    case Output(out) =>
      if other.Output? { StoreOutputOneField(o.output, out, v, other.out); }
    case Untracked(_) =>
    case Unknown(_) =>
  }

  lemma RenderingExtensional(a: RenderingParams, b: RenderingParams)
    requires forall k :: RenderingField(a, k) == RenderingField(b, k)
    ensures a == b
  {
    assert RenderingField(a, SamplesPerPixel) == RenderingField(b, SamplesPerPixel);
    assert RenderingField(a, MaxSurfaceBounces) == RenderingField(b, MaxSurfaceBounces);
    assert RenderingField(a, MaxDiffuseBounces) == RenderingField(b, MaxDiffuseBounces);
    assert RenderingField(a, MaxSpecularBounces) == RenderingField(b, MaxSpecularBounces);
    assert RenderingField(a, MaxTransmissionBounces) == RenderingField(b, MaxTransmissionBounces);
  }

  lemma SamplingExtensional(a: SamplingParams, b: SamplingParams)
    requires forall k :: SamplingField(a, k) == SamplingField(b, k)
    requires a.useFixedSeed == b.useFixedSeed
    ensures a == b
  {
    assert SamplingField(a, SampleGenerator) == SamplingField(b, SampleGenerator);
    assert SamplingField(a, FixedSeed) == SamplingField(b, FixedSeed);
    assert SamplingField(a, UseBSDFSampling) == SamplingField(b, UseBSDFSampling);
    assert SamplingField(a, UseRussianRoulette) == SamplingField(b, UseRussianRoulette);
    assert SamplingField(a, UseNEE) == SamplingField(b, UseNEE);
    assert SamplingField(a, UseMIS) == SamplingField(b, UseMIS);
    assert SamplingField(a, MISHeuristic) == SamplingField(b, MISHeuristic);
    assert SamplingField(a, EmissiveSampler) == SamplingField(b, EmissiveSampler);
    assert SamplingField(a, UseRTXDI) == SamplingField(b, UseRTXDI);
  }

  lemma MaterialExtensional(a: MaterialParams, b: MaterialParams)
    requires forall k :: MaterialField(a, k) == MaterialField(b, k)
    ensures a == b
  {
    assert MaterialField(a, UseAlphaTest) == MaterialField(b, UseAlphaTest);
    assert MaterialField(a, AdjustShadingNormals) == MaterialField(b, AdjustShadingNormals);
    assert MaterialField(a, MaxNestedMaterials) == MaterialField(b, MaxNestedMaterials);
    assert MaterialField(a, UseLightsInDielectricVolumes) == MaterialField(b, UseLightsInDielectricVolumes);
    assert MaterialField(a, DisableCaustics) == MaterialField(b, DisableCaustics);
    assert MaterialField(a, PrimaryLodMode) == MaterialField(b, PrimaryLodMode);
  }

  lemma OutputExtensional(a: OutputParams, b: OutputParams)
    requires forall k :: OutputField(a, k) == OutputField(b, k)
    ensures a == b
  {
    assert OutputField(a, OutputSize) == OutputField(b, OutputSize);
    assert OutputField(a, FixedOutputSize) == OutputField(b, FixedOutputSize);
    assert OutputField(a, ColorFormat) == OutputField(b, ColorFormat);
  }

  /** Options agree when every named field, the fixed-seed switch and the path sizes agree. */
  lemma OptionsExtensional(a: Options, b: Options)
    requires forall k :: Tracked(k) ==> FieldOf(a, k) == FieldOf(b, k)
    requires a.sampling.useFixedSeed == b.sampling.useFixedSeed
    requires a.path == b.path
    ensures a == b
  {
    forall k ensures RenderingField(a.rendering, k) == RenderingField(b.rendering, k) {
      assert FieldOf(a, Rendering(k)) == FieldOf(b, Rendering(k));
    }
    forall k ensures SamplingField(a.sampling, k) == SamplingField(b.sampling, k) {
      assert FieldOf(a, Sampling(k)) == FieldOf(b, Sampling(k));
    }
    forall k ensures MaterialField(a.material, k) == MaterialField(b.material, k) {
      assert FieldOf(a, Material(k)) == FieldOf(b, Material(k));
    }
    forall k ensures OutputField(a.output, k) == OutputField(b.output, k) {
      assert FieldOf(a, Output(k)) == FieldOf(b, Output(k));
    }
    RenderingExtensional(a.rendering, b.rendering);
    SamplingExtensional(a.sampling, b.sampling);
    MaterialExtensional(a.material, b.material);
    OutputExtensional(a.output, b.output);
  }

  // ---------------------------------------------------------------------
  // parseDictionary
  // ---------------------------------------------------------------------

  /** Every value converts to the type of the field its key names. */
  predicate AllAccepted(d: Dictionary<Key>)
  {
    forall i :: 0 <= i < |d| ==> Accepts(d[i].0, d[i].1)
  }

  /** The if-else chain applied to the entries in order; `None` when a conversion throws. */
  function StoreAll(o: Options, d: Dictionary<Key>): (r: Option<Options>)
    ensures r.Some? <==> AllAccepted(d)
  {
    if d == [] then Some(o)
    else
      var n := |d| - 1;
      assert forall i :: 0 <= i < n ==> d[..n][i] == d[i];
      match StoreAll(o, d[..n])
      case None => None
      case Some(o') => if Accepts(d[n].0, d[n].1) then Some(Store(o', d[n].0, d[n].1)) else None
  }

  /**
   * After the entries are stored, each named field holds the value the
   * dictionary gives its key, or its value before parsing when the
   * dictionary has no such key; the path sizes keep their values, and the
   * fixed seed is on iff it was on before or the dictionary sets a seed.
   */
  lemma {:induction false} StoreAllFields(o: Options, d: Dictionary<Key>, k: Key)
    requires AllAccepted(d) && Tracked(k)
    ensures FieldOf(StoreAll(o, d).value, k)
            == match Lookup(d, k) case Some(v) => Converted(k, v) case None => FieldOf(o, k)
    ensures StoreAll(o, d).value.sampling.useFixedSeed
            == (o.sampling.useFixedSeed || KeyExists(d, Sampling(FixedSeed)))
    ensures StoreAll(o, d).value.path == o.path
    decreases |d|
  {
    if d != [] {
      var n := |d| - 1;
      assert d == d[..n] + [d[n]];
      assert AllAccepted(d[..n]) by {
        assert forall i :: 0 <= i < n ==> d[..n][i] == d[i];
      }
      StoreAllFields(o, d[..n], k);
      var o' := StoreAll(o, d[..n]).value;
      StoreSetsOneField(o', d[n].0, d[n].1, k);
      LookupAppend(d[..n], d[n].0, d[n].1, k);
      LookupAppend(d[..n], d[n].0, d[n].1, Sampling(FixedSeed));
    }
  }

  function Max(a: nat, b: nat): nat
  {
    if a < b then b else a
  }

  function Max3(a: nat, b: nat, c: nat): nat
  {
    Max(a, Max(b, c))
  }

  /**
   * The bounce defaulting at the end of `parseDictionary`: counts the
   * dictionary omits follow `maxSurfaceBounces` when it is given, and
   * `maxSurfaceBounces` is the largest of the others when it is not.
   */
  function DefaultBounces(p: RenderingParams, d: Dictionary<Key>): RenderingParams
  {
    if KeyExists(d, Rendering(MaxSurfaceBounces)) then
      p.(maxDiffuseBounces := if KeyExists(d, Rendering(MaxDiffuseBounces)) then p.maxDiffuseBounces else p.maxSurfaceBounces,
         maxSpecularBounces := if KeyExists(d, Rendering(MaxSpecularBounces)) then p.maxSpecularBounces else p.maxSurfaceBounces,
         maxTransmissionBounces := if KeyExists(d, Rendering(MaxTransmissionBounces)) then p.maxTransmissionBounces else p.maxSurfaceBounces)
    else
      p.(maxSurfaceBounces := Max3(p.maxDiffuseBounces, p.maxSpecularBounces, p.maxTransmissionBounces))
  }

  /** `parseDictionary` on a pass whose options were `o`; `None` when it throws. */
  function Parse(o: Options, d: Dictionary<Key>): Option<Options>
  {
    match StoreAll(o, d)
    case None => None
    case Some(o') => Some(o'.(rendering := DefaultBounces(o'.rendering, d)))
  }

  /** Some bounce count exceeds the surface bounce count. */
  predicate NeedsAdjustment(p: RenderingParams)
  {
    p.maxSurfaceBounces < p.maxDiffuseBounces
    || p.maxSurfaceBounces < p.maxSpecularBounces
    || p.maxSurfaceBounces < p.maxTransmissionBounces
  }

  datatype Warning =
    | UnknownField(name: string)
    | SurfaceBouncesRaised
    | SamplesPerPixelClamped
    | BouncesClamped(key: RenderingKey)
    | LodModeReplaced

  /** One warning per unknown key, in dictionary order. */
  function UnknownNames(d: Dictionary<Key>): seq<Warning>
  {
    if d == [] then []
    else
      var n := |d| - 1;
      UnknownNames(d[..n]) + (if d[n].0.Unknown? then [UnknownField(d[n].0.name)] else [])
  }

  /** The warnings `parseDictionary` logs on a dictionary that converts. */
  function ParseWarnings(o: Options, d: Dictionary<Key>): seq<Warning>
    requires AllAccepted(d)
  {
    UnknownNames(d)
    + (if KeyExists(d, Rendering(MaxSurfaceBounces)) && NeedsAdjustment(Parse(o, d).value.rendering)
       then [SurfaceBouncesRaised] else [])
  }

  /**
   * `parseDictionary`: the entries are stored one by one, an unknown key
   * only logs a warning, a failed conversion ends the parse; then the bounce
   * counts are defaulted.
   */
  method ParseDictionary(o: Options, d: Dictionary<Key>) returns (r: Option<Options>, warnings: seq<Warning>)
    ensures r == Parse(o, d)
    ensures r.Some? ==> warnings == ParseWarnings(o, d)
  {
    var opts := o;
    warnings := [];
    var i := 0;
    while i < |d|
      invariant 0 <= i <= |d|
      invariant StoreAll(o, d[..i]) == Some(opts)
      invariant warnings == UnknownNames(d[..i])
    {
      var (key, value) := d[i];
      assert d[..i + 1][..i] == d[..i];
      if !Accepts(key, value) {
        assert !AllAccepted(d);
        return None, warnings;
      }
      if key.Unknown? {
        warnings := warnings + [UnknownField(key.name)];
      }
      opts := Store(opts, key, value);
      i := i + 1;
    }
    assert d[..i] == d;
    var p := opts.rendering;
    if KeyExists(d, Rendering(MaxSurfaceBounces)) {
      if !KeyExists(d, Rendering(MaxDiffuseBounces)) {
        p := p.(maxDiffuseBounces := p.maxSurfaceBounces);
      }
      if !KeyExists(d, Rendering(MaxSpecularBounces)) {
        p := p.(maxSpecularBounces := p.maxSurfaceBounces);
      }
      if !KeyExists(d, Rendering(MaxTransmissionBounces)) {
        p := p.(maxTransmissionBounces := p.maxSurfaceBounces);
      }
    } else {
      p := p.(maxSurfaceBounces := Max(p.maxDiffuseBounces, Max(p.maxSpecularBounces, p.maxTransmissionBounces)));
    }
    if KeyExists(d, Rendering(MaxSurfaceBounces)) && NeedsAdjustment(p) {
      warnings := warnings + [SurfaceBouncesRaised];
    }
    r := Some(opts.(rendering := p));
  }

  /**
   * With `maxSurfaceBounces` given, it holds the given value and each bounce
   * count the dictionary omits takes it too; without it, it is the largest
   * of the other three.  The counts the dictionary gives keep their values.
   */
  lemma ParseDefaultsBounces(o: Options, d: Dictionary<Key>, k: RenderingKey)
    requires Parse(o, d).Some? && k != SamplesPerPixel
    ensures var p := Parse(o, d).value.rendering;
      if KeyExists(d, Rendering(MaxSurfaceBounces)) then
        && p.maxSurfaceBounces == AsUInt32(Lookup(d, Rendering(MaxSurfaceBounces)).value)
        && RenderingField(p, k) == AsUInt32(Lookup(d, Rendering(if KeyExists(d, Rendering(k)) then k else MaxSurfaceBounces)).value)
      else
        && p.maxSurfaceBounces == Max3(p.maxDiffuseBounces, p.maxSpecularBounces, p.maxTransmissionBounces)
        && (k != MaxSurfaceBounces ==>
              RenderingField(p, k) == if KeyExists(d, Rendering(k)) then AsUInt32(Lookup(d, Rendering(k)).value)
                                      else RenderingField(o.rendering, k))
  {
    StoreAllFields(o, d, Rendering(MaxSurfaceBounces));
    StoreAllFields(o, d, Rendering(k));
  }

  /** An unknown key changes no option and adds its warning after those of the keys before it. */
  lemma ParseIgnoresUnknownKey(o: Options, d: Dictionary<Key>, name: string, v: Value)
    ensures Parse(o, d + [(Unknown(name), v)]) == Parse(o, d)
    ensures AllAccepted(d) ==>
      ParseWarnings(o, d + [(Unknown(name), v)])
        == UnknownNames(d) + [UnknownField(name)] + ParseWarnings(o, d)[|UnknownNames(d)|..]
  {
    var d' := d + [(Unknown(name), v)];
    assert d'[..|d|] == d;
    assert Accepts(Unknown(name), v);
    assert StoreAll(o, d') == StoreAll(o, d) by {
      if StoreAll(o, d).Some? {
        assert Store(StoreAll(o, d).value, Unknown(name), v) == StoreAll(o, d).value;
      }
    }
    LookupAppend(d, Unknown(name), v, Rendering(MaxSurfaceBounces));
    LookupAppend(d, Unknown(name), v, Rendering(MaxDiffuseBounces));
    LookupAppend(d, Unknown(name), v, Rendering(MaxSpecularBounces));
    LookupAppend(d, Unknown(name), v, Rendering(MaxTransmissionBounces));
    if AllAccepted(d) {
      assert AllAccepted(d');
    }
  }

  /** A `fixedSeed` entry sets the seed and turns the fixed seed on; without one both keep their values. */
  lemma ParseFixedSeed(o: Options, d: Dictionary<Key>)
    requires Parse(o, d).Some?
    ensures var r := Parse(o, d).value.sampling;
      && r.useFixedSeed == (o.sampling.useFixedSeed || KeyExists(d, Sampling(FixedSeed)))
      && (KeyExists(d, Sampling(FixedSeed)) ==> r.fixedSeed == AsUInt32(Lookup(d, Sampling(FixedSeed)).value))
      && (!KeyExists(d, Sampling(FixedSeed)) ==> r.fixedSeed == o.sampling.fixedSeed)
  {
    StoreAllFields(o, d, Sampling(FixedSeed));
  }

  /**
   * The conversions the assignments in `parseDictionary` perform: an
   * integer given for a flag is read by its truth value, a flag given for a
   * count as 0 or 1, and an enumerator of another enumeration is refused.
   */
  lemma ParseConvertsScalars(o: Options, n: nat)
    ensures var r := Parse(o, [(Sampling(UseNEE), UInt(n))]);
      r.Some? && r.value.sampling.useNEE == (n != 0)
    ensures var r := Parse(o, [(Material(MaxNestedMaterials), Bool(true))]);
      r.Some? && r.value.material.maxNestedMaterials == 1
    ensures Parse(o, [(Sampling(MISHeuristic), Enum("TexLODMode", "Mip0"))]) == None
  {
    var d: Dictionary<Key> := [(Sampling(MISHeuristic), Enum("TexLODMode", "Mip0"))];
    assert !Accepts(d[0].0, d[0].1);
  }

  /** No dictionary key reaches the light-pass and subspace sizes. */
  lemma ParseKeepsPathSizes(o: Options, d: Dictionary<Key>)
    requires Parse(o, d).Some?
    ensures Parse(o, d).value.path == o.path
  {
    StoreAllFields(o, d, Rendering(SamplesPerPixel));
  }

  // ---------------------------------------------------------------------
  // validateOptions
  // ---------------------------------------------------------------------

  /**
   * Limits defined next to the shaders (`kMaxSamplesPerPixel`,
   * `kMaxBounces`, `kMaxFrameDimension`, `kMaxFrameDimensionY`); their values
   * are not part of this model.
   */
  datatype Limits = Limits(
    maxSamplesPerPixel: nat,
    maxBounces: nat,
    maxFrameDimension: nat,
    maxFrameDimensionY: nat)

  predicate ValidLimits(lim: Limits)
  {
    lim.maxSamplesPerPixel >= 1
  }

  function Min(a: nat, b: nat): nat
  {
    if a < b then a else b
  }

  /** The state `validateOptions` guarantees. */
  predicate Validated(o: Options, lim: Limits)
  {
    var p := o.rendering;
    && 1 <= p.samplesPerPixel <= lim.maxSamplesPerPixel
    && p.maxSurfaceBounces <= lim.maxBounces
    && p.maxDiffuseBounces <= p.maxSurfaceBounces
    && p.maxSpecularBounces <= p.maxSurfaceBounces
    && p.maxTransmissionBounces <= p.maxSurfaceBounces
    && o.material.primaryLodMode != "RayCones"
  }

  /** `validateOptions` (the float threshold clamp is not modelled). */
  function Validate(o: Options, lim: Limits): (r: Options)
    requires ValidLimits(lim)
    ensures Validated(r, lim)
  {
    var p := o.rendering;
    var spp := if p.samplesPerPixel < 1 then 1
               else if p.samplesPerPixel > lim.maxSamplesPerPixel then lim.maxSamplesPerPixel
               else p.samplesPerPixel;
    var surface := Min(p.maxSurfaceBounces, lim.maxBounces);
    var diffuse := Min(p.maxDiffuseBounces, lim.maxBounces);
    var specular := Min(p.maxSpecularBounces, lim.maxBounces);
    var transmission := Min(p.maxTransmissionBounces, lim.maxBounces);
    o.(rendering := RenderingParams(spp, Max(surface, Max3(diffuse, specular, transmission)),
                                    diffuse, specular, transmission),
       material := o.material.(primaryLodMode :=
         if o.material.primaryLodMode == "RayCones" then "Mip0" else o.material.primaryLodMode))
  }

  /**
   * Validation leaves validated options alone, and only those, so applying
   * it twice is applying it once.
   */
  lemma ValidateFixedPoints(o: Options, lim: Limits)
    requires ValidLimits(lim)
    ensures Validate(o, lim) == o <==> Validated(o, lim)
    ensures Validate(Validate(o, lim), lim) == Validate(o, lim)
  {
  }

  /**
   * Validation keeps every count already in range, lowers the others to
   * their limit, makes the surface count the largest count up to the limit,
   * and touches nothing else.
   */
  lemma ValidateChangesOnlyWhatIsOutOfRange(o: Options, lim: Limits)
    requires ValidLimits(lim)
    ensures var p := o.rendering;
      var r := Validate(o, lim);
      && (r.rendering.samplesPerPixel == p.samplesPerPixel <==> 1 <= p.samplesPerPixel <= lim.maxSamplesPerPixel)
      && (r.rendering.maxDiffuseBounces == p.maxDiffuseBounces <==> p.maxDiffuseBounces <= lim.maxBounces)
      && (r.rendering.maxSpecularBounces == p.maxSpecularBounces <==> p.maxSpecularBounces <= lim.maxBounces)
      && (r.rendering.maxTransmissionBounces == p.maxTransmissionBounces <==> p.maxTransmissionBounces <= lim.maxBounces)
      && r.rendering.maxSurfaceBounces
         == Min(Max(p.maxSurfaceBounces, Max3(p.maxDiffuseBounces, p.maxSpecularBounces, p.maxTransmissionBounces)), lim.maxBounces)
      && r.(rendering := p, material := o.material) == o
      && r.material.(primaryLodMode := o.material.primaryLodMode) == o.material
  {
  }

  /** The default options are already valid whenever the limits admit them. */
  lemma DefaultsAreValid(g: nat, seed: nat, useSeed: bool, lim: Limits)
    requires ValidLimits(lim) && lim.maxBounces >= 10
    ensures Validate(DefaultOptions(g, seed, useSeed), lim) == DefaultOptions(g, seed, useSeed)
  {
    ValidateFixedPoints(DefaultOptions(g, seed, useSeed), lim);
  }

  /** The warnings `validateOptions` logs for the parameters it changes. */
  function ValidateWarnings(o: Options, lim: Limits): seq<Warning>
  {
    var p := o.rendering;
    (if p.samplesPerPixel < 1 || p.samplesPerPixel > lim.maxSamplesPerPixel then [SamplesPerPixelClamped] else [])
    + (if p.maxSurfaceBounces > lim.maxBounces then [BouncesClamped(MaxSurfaceBounces)] else [])
    + (if p.maxDiffuseBounces > lim.maxBounces then [BouncesClamped(MaxDiffuseBounces)] else [])
    + (if p.maxSpecularBounces > lim.maxBounces then [BouncesClamped(MaxSpecularBounces)] else [])
    + (if p.maxTransmissionBounces > lim.maxBounces then [BouncesClamped(MaxTransmissionBounces)] else [])
    + (if o.material.primaryLodMode == "RayCones" then [LodModeReplaced] else [])
  }

  /**
   * Validation is silent exactly when all it does is raise the surface count
   * to the largest of the others.
   */
  lemma ValidateWarnsOnChange(o: Options, lim: Limits)
    requires ValidLimits(lim)
    ensures var p := o.rendering;
      ValidateWarnings(o, lim) == []
      <==> Validate(o, lim) == o.(rendering := p.(maxSurfaceBounces :=
             Max(p.maxSurfaceBounces, Max3(p.maxDiffuseBounces, p.maxSpecularBounces, p.maxTransmissionBounces))))
  {
  }

  // ---------------------------------------------------------------------
  // getScriptingDictionary
  // ---------------------------------------------------------------------

  /** The keys `getScriptingDictionary` writes, in order, group by group. */
  function ScriptKeys(o: Options): seq<Key>
  {
    RenderingScriptKeys() + SamplingScriptKeys(o) + MaterialScriptKeys() + OutputScriptKeys(o)
  }

  function RenderingScriptKeys(): seq<Key>
  {
    [Rendering(SamplesPerPixel), Rendering(MaxSurfaceBounces), Rendering(MaxDiffuseBounces),
     Rendering(MaxSpecularBounces), Rendering(MaxTransmissionBounces)]
  }

  /** `fixedSeed` only with the fixed seed on, `lightBVHOptions` only for the light BVH sampler. */
  function SamplingScriptKeys(o: Options): seq<Key>
  {
    [Sampling(SampleGenerator)]
    + (if o.sampling.useFixedSeed then [Sampling(FixedSeed)] else [])
    + [Sampling(UseBSDFSampling), Sampling(UseRussianRoulette), Sampling(UseNEE), Sampling(UseMIS),
       Sampling(MISHeuristic), Untracked(MISPowerExponent), Sampling(EmissiveSampler)]
    + (if o.sampling.emissiveSampler == "LightBVH" then [Untracked(LightBVHOptions)] else [])
    + [Sampling(UseRTXDI), Untracked(RTXDIOptions)]
  }

  function MaterialScriptKeys(): seq<Key>
  {
    [Material(UseAlphaTest), Material(AdjustShadingNormals), Material(MaxNestedMaterials),
     Material(UseLightsInDielectricVolumes), Material(DisableCaustics),
     Untracked(SpecularRoughnessThreshold), Material(PrimaryLodMode), Untracked(LODBias)]
  }

  /** `fixedOutputSize` only when the output size is fixed. */
  function OutputScriptKeys(o: Options): seq<Key>
  {
    [Output(OutputSize)]
    + (if o.output.outputSize == "Fixed" then [Output(FixedOutputSize)] else [])
    + [Output(ColorFormat)]
  }

  /** Each listed key with the value of the field it names. */
  function Emit(o: Options, ks: seq<Key>): (d: Dictionary<Key>)
    ensures |d| == |ks|
  {
    if ks == [] then []
    else
      var n := |ks| - 1;
      Emit(o, ks[..n]) + [(ks[n], FieldOf(o, ks[n]))]
  }

  /** `getScriptingDictionary`. */
  function Script(o: Options): Dictionary<Key>
  {
    Emit(o, ScriptKeys(o))
  }

  lemma {:induction false} LookupEmit(o: Options, ks: seq<Key>, k: Key)
    ensures Lookup(Emit(o, ks), k) == if k in ks then Some(FieldOf(o, k)) else None
    decreases |ks|
  {
    if ks != [] {
      var n := |ks| - 1;
      assert ks == ks[..n] + [ks[n]];
      LookupEmit(o, ks[..n], k);
      LookupAppend(Emit(o, ks[..n]), ks[n], FieldOf(o, ks[n]), k);
    }
  }

  /** Which keys `getScriptingDictionary` writes. */
  predicate Written(o: Options, k: Key)
  {
    match k
    case Sampling(FixedSeed) => o.sampling.useFixedSeed
    case Untracked(LightBVHOptions) => o.sampling.emissiveSampler == "LightBVH"
    case Output(FixedOutputSize) => o.output.outputSize == "Fixed"
    case Unknown(_) => false
    case _ => true
  }

  lemma RenderingKeysWritten(o: Options, r: RenderingKey)
    ensures Rendering(r) in ScriptKeys(o)
  {
    var g := RenderingScriptKeys();
    var k := Rendering(r);
    assert k in g by {
      match r
      case SamplesPerPixel => assert g[0] == k;
      case MaxSurfaceBounces => assert g[1] == k;
      case MaxDiffuseBounces => assert g[2] == k;
      case MaxSpecularBounces => assert g[3] == k;
      case MaxTransmissionBounces => assert g[4] == k;
    }
  }

  lemma SamplingKeysWritten(o: Options, s: SamplingKey)
    ensures Sampling(s) in ScriptKeys(o) <==> Written(o, Sampling(s))
  {
    var g := SamplingScriptKeys(o);
    assert Sampling(s) in g <==> Written(o, Sampling(s));
  }

  lemma MaterialKeysWritten(o: Options, m: MaterialKey)
    ensures Material(m) in ScriptKeys(o)
  {
    var g := MaterialScriptKeys();
    var k := Material(m);
    assert k in g by {
      match m
      case UseAlphaTest => assert g[0] == k;
      case AdjustShadingNormals => assert g[1] == k;
      case MaxNestedMaterials => assert g[2] == k;
      case UseLightsInDielectricVolumes => assert g[3] == k;
      case DisableCaustics => assert g[4] == k;
      case PrimaryLodMode => assert g[6] == k;
    }
  }

  lemma OutputKeysWritten(o: Options, out: OutputKey)
    ensures Output(out) in ScriptKeys(o) <==> Written(o, Output(out))
  {
    var g := OutputScriptKeys(o);
    assert Output(out) in g <==> Written(o, Output(out));
  }

  lemma UntrackedKeysWritten(o: Options, u: UntrackedKey)
    ensures Untracked(u) in ScriptKeys(o) <==> Written(o, Untracked(u))
  {
    var g := SamplingScriptKeys(o) + MaterialScriptKeys();
    assert Untracked(u) in g <==> Written(o, Untracked(u));
  }

  /**
   * Every known key is written except `fixedSeed` when the fixed seed is
   * off, `lightBVHOptions` when another emissive sampler is chosen, and
   * `fixedOutputSize` when the output size is not fixed; the value written
   * is the field the key names.
   */
  lemma ScriptContents(o: Options, k: Key)
    ensures KeyExists(Script(o), k) <==> Written(o, k)
    ensures KeyExists(Script(o), k) ==> Lookup(Script(o), k) == Some(FieldOf(o, k))
  {
    LookupEmit(o, ScriptKeys(o), k);
    ScriptKeysWritten(o, k);
  }

  lemma ScriptKeysWritten(o: Options, k: Key)
    ensures k in ScriptKeys(o) <==> Written(o, k)
  {
    match k
    case Rendering(r) => RenderingKeysWritten(o, r);
    case Sampling(s) => SamplingKeysWritten(o, s);
    case Material(m) => MaterialKeysWritten(o, m);
    case Output(out) => OutputKeysWritten(o, out);
    case Untracked(u) => UntrackedKeysWritten(o, u);
    case Unknown(_) =>
  }

  /** Every integer field fits the 32 bits it is stored in. */
  predicate FitsUInt32(o: Options)
  {
    && o.rendering.samplesPerPixel < UInt32Limit
    && o.rendering.maxSurfaceBounces < UInt32Limit
    && o.rendering.maxDiffuseBounces < UInt32Limit
    && o.rendering.maxSpecularBounces < UInt32Limit
    && o.rendering.maxTransmissionBounces < UInt32Limit
    && o.sampling.sampleGenerator < UInt32Limit
    && o.sampling.fixedSeed < UInt32Limit
    && o.material.maxNestedMaterials < UInt32Limit
    && o.output.fixedOutputSize.0 < UInt32Limit && o.output.fixedOutputSize.1 < UInt32Limit
  }

  /** Every written entry converts back to its field's type. */
  lemma {:induction false} EmitAccepted(o: Options, ks: seq<Key>)
    requires FitsUInt32(o)
    ensures AllAccepted(Emit(o, ks))
    decreases |ks|
  {
    if ks != [] {
      var n := |ks| - 1;
      EmitAccepted(o, ks[..n]);
      FieldAccepted(o, ks[n]);
      AllAcceptedAppend(Emit(o, ks[..n]), ks[n], FieldOf(o, ks[n]));
    }
  }

  /** The value of any field converts back to that field's type, and to the same value. */
  lemma FieldAccepted(o: Options, k: Key)
    requires FitsUInt32(o)
    ensures Accepts(k, FieldOf(o, k))
    ensures Converted(k, FieldOf(o, k)) == FieldOf(o, k)
  {
  }

  lemma AllAcceptedAppend(d: Dictionary<Key>, k: Key, v: Value)
    requires AllAccepted(d) && Accepts(k, v)
    ensures AllAccepted(d + [(k, v)])
  {
    assert forall i :: 0 <= i < |d| ==> (d + [(k, v)])[i] == d[i];
  }

  /**
   * The options that reading back a written dictionary yields: the written
   * fields from `o`, the ones left unwritten from the pass that reads.
   */
  function ReadBack(base: Options, o: Options): Options
  {
    o.(path := base.path,
       sampling := o.sampling.(
         fixedSeed := if o.sampling.useFixedSeed then o.sampling.fixedSeed else base.sampling.fixedSeed,
         useFixedSeed := o.sampling.useFixedSeed || base.sampling.useFixedSeed),
       output := o.output.(fixedOutputSize :=
         if o.output.outputSize == "Fixed" then o.output.fixedOutputSize else base.output.fixedOutputSize))
  }

  /**
   * Round trip: parsing the dictionary a pass with validated options writes,
   * and validating, reproduces that pass's options, except for the fields
   * the dictionary leaves out, which keep the reading pass's own values.
   */
  lemma ScriptRoundTrip(base: Options, o: Options, lim: Limits)
    requires ValidLimits(lim) && Validated(o, lim) && FitsUInt32(o)
    ensures Parse(base, Script(o)).Some?
    ensures Validate(Parse(base, Script(o)).value, lim) == ReadBack(base, o)
  {
    var d := Script(o);
    EmitAccepted(o, ScriptKeys(o));
    var stored := StoreAll(base, d).value;
    var expected := ReadBack(base, o);
    ScriptFieldsReadBack(base, o);
    StoreAllFields(base, d, Sampling(FixedSeed));
    ScriptContents(o, Sampling(FixedSeed));
    OptionsExtensional(stored, expected);
    ScriptContents(o, Rendering(MaxSurfaceBounces));
    ScriptContents(o, Rendering(MaxDiffuseBounces));
    ScriptContents(o, Rendering(MaxSpecularBounces));
    ScriptContents(o, Rendering(MaxTransmissionBounces));
    assert DefaultBounces(stored.rendering, d) == stored.rendering;
    ValidateFixedPoints(expected, lim);
  }

  /** Storing the written dictionary gives every tracked field its read-back value. */
  lemma ScriptFieldsReadBack(base: Options, o: Options)
    requires FitsUInt32(o) && AllAccepted(Script(o))
    ensures forall k :: Tracked(k) ==> FieldOf(StoreAll(base, Script(o)).value, k) == FieldOf(ReadBack(base, o), k)
  {
    forall k | Tracked(k)
      ensures FieldOf(StoreAll(base, Script(o)).value, k) == FieldOf(ReadBack(base, o), k)
    {
      StoreAllFields(base, Script(o), k);
      ScriptContents(o, k);
      FieldAccepted(o, k);
    }
  }
}
