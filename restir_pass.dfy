// The host side of the ReSTIR pass (ReSTIRPass.cpp): the three flags it
// reads from and writes to its scripting dictionary, the layout of the
// two-layer reservoir buffer, and the per-frame choice of the layer each
// resampling dispatch reads and writes.  The shaders, the scene, the light
// samplers and the textures are not part of this model.

module ReSTIRRenderPass {
  import opened Dictionaries

  /** Side of the square pixel block the reservoirs are laid out in. */
  const BlockDim: nat := 16

  /** `reservoirLayers`: one layer for this frame, one for the last. */
  const ReservoirLayers: nat := 2

  /** The largest side of a 2-D texture in Direct3D 12, and so of the target frame buffer. */
  const MaxTextureDimension: nat := 16384

  /** A `uint32_t` result: the value modulo 2^32. */
  function U32(x: nat): (r: nat)
    ensures r < UInt32Limit && (x < UInt32Limit ==> r == x)
  {
    x % UInt32Limit
  }

  /** `!x` on a `uint32_t`, stored back into a `uint32_t`. */
  function LogicalNot(x: nat): (r: nat)
    ensures r <= 1 && (r == 1 <==> x == 0)
  {
    if x == 0 then 1 else 0
  }

  // ---------------------------------------------------------------------
  // create / getScriptingDictionary
  // ---------------------------------------------------------------------

  /** A dictionary key; any name the pass does not know is `Unknown`. */
  datatype Key =
    | EnableTemporalResampling
    | EnableSpatialResampling
    | StoreFinalVisibility
    | Unknown(name: string)

  /** The three flags the dictionary reaches. */
  datatype Flags = Flags(enableTemporalResampling: bool, enableSpatialResampling: bool, storeFinalVisibility: bool)

  /** The flags of a freshly constructed pass. */
  const DefaultFlags: Flags := Flags(false, false, true)

  datatype Warning = UnknownField(name: string)

  /** The flag a known key names. */
  function FlagOf(f: Flags, k: Key): bool
    requires !k.Unknown?
  {
    match k
    case EnableTemporalResampling => f.enableTemporalResampling
    case EnableSpatialResampling => f.enableSpatialResampling
    case StoreFinalVisibility => f.storeFinalVisibility
  }

  /**
   * The value converts to the type of the field its key names: a flag takes
   * a `bool`, or an integer by its truth value.  An unknown key's value is
   * never converted.
   */
  predicate Accepts(k: Key, v: Value)
  {
    k.Unknown? || ConvertsToBool(v)
  }

  predicate AllAccepted(d: Dictionary<Key>)
  {
    forall i :: 0 <= i < |d| ==> Accepts(d[i].0, d[i].1)
  }

  /** One arm of the if-else chain in `create`; an unknown key changes no flag. */
  function Store(f: Flags, k: Key, v: Value): Flags
    requires Accepts(k, v)
  {
    match k
    case EnableTemporalResampling => f.(enableTemporalResampling := AsBool(v))
    case EnableSpatialResampling => f.(enableSpatialResampling := AsBool(v))
    case StoreFinalVisibility => f.(storeFinalVisibility := AsBool(v))
    case Unknown(_) => f
  }

  /** The entries stored in order; `None` when a conversion throws and no pass is created. */
  function StoreAll(f: Flags, d: Dictionary<Key>): (r: Option<Flags>)
    ensures r.Some? <==> AllAccepted(d)
  {
    if d == [] then Some(f)
    else
      var n := |d| - 1;
      assert forall i :: 0 <= i < n ==> d[..n][i] == d[i];
      match StoreAll(f, d[..n])
      case None => None
      case Some(f') => if Accepts(d[n].0, d[n].1) then Some(Store(f', d[n].0, d[n].1)) else None
  }

  /** One warning per unknown key, in dictionary order. */
  function UnknownNames(d: Dictionary<Key>): seq<Warning>
  {
    if d == [] then []
    else
      var n := |d| - 1;
      UnknownNames(d[..n]) + (if d[n].0.Unknown? then [UnknownField(d[n].0.name)] else [])
  }

  /**
   * The loop of `create`: each known key sets its flag, an unknown key only
   * logs a warning, a value that does not convert to `bool` ends the parse.
   */
  method ParseDictionary(f: Flags, d: Dictionary<Key>) returns (r: Option<Flags>, warnings: seq<Warning>)
    ensures r == StoreAll(f, d)
    ensures r.Some? ==> warnings == UnknownNames(d)
  {
    var flags := f;
    warnings := [];
    var i := 0;
    while i < |d|
      invariant 0 <= i <= |d|
      invariant StoreAll(f, d[..i]) == Some(flags)
      invariant warnings == UnknownNames(d[..i])
    {
      var (key, value) := d[i];
      assert d[..i + 1][..i] == d[..i];
      if key == EnableTemporalResampling || key == EnableSpatialResampling || key == StoreFinalVisibility {
        if !ConvertsToBool(value) {
          assert !AllAccepted(d);
          return None, warnings;
        }
        var b := AsBool(value);
        if key == EnableTemporalResampling {
          flags := flags.(enableTemporalResampling := b);
        } else if key == EnableSpatialResampling {
          flags := flags.(enableSpatialResampling := b);
        } else {
          flags := flags.(storeFinalVisibility := b);
        }
      } else {
        warnings := warnings + [UnknownField(key.name)];
      }
      i := i + 1;
    }
    assert d[..i] == d;
    r := Some(flags);
  }

  /**
   * After parsing, each flag holds the value the dictionary gives its key,
   * or its value before parsing when the dictionary has no such key.
   */
  lemma {:induction false} StoreAllFlags(f: Flags, d: Dictionary<Key>, k: Key)
    requires AllAccepted(d) && !k.Unknown?
    ensures FlagOf(StoreAll(f, d).value, k)
            == match Lookup(d, k) case Some(v) => AsBool(v) case None => FlagOf(f, k)
    decreases |d|
  {
    if d != [] {
      var n := |d| - 1;
      assert d == d[..n] + [d[n]];
      assert AllAccepted(d[..n]) by {
        assert forall i :: 0 <= i < n ==> d[..n][i] == d[i];
      }
      StoreAllFlags(f, d[..n], k);
      LookupAppend(d[..n], d[n].0, d[n].1, k);
    }
  }

  /** An unknown key changes no flag and adds its own warning after those of the keys before it. */
  lemma UnknownKeyOnlyWarns(f: Flags, d: Dictionary<Key>, name: string, v: Value)
    ensures StoreAll(f, d + [(Unknown(name), v)]) == StoreAll(f, d)
    ensures UnknownNames(d + [(Unknown(name), v)]) == UnknownNames(d) + [UnknownField(name)]
  {
    assert (d + [(Unknown(name), v)])[..|d|] == d;
  }

  /** `getScriptingDictionary`: the three flags, each under its key. */
  function Script(f: Flags): (d: Dictionary<Key>)
    ensures AllAccepted(d) && DistinctKeys(d)
    ensures forall i :: 0 <= i < |d| ==> !d[i].0.Unknown?
  {
    [(EnableTemporalResampling, Bool(f.enableTemporalResampling)),
     (EnableSpatialResampling, Bool(f.enableSpatialResampling)),
     (StoreFinalVisibility, Bool(f.storeFinalVisibility))]
  }

  lemma {:induction false} KnownKeysNoWarnings(d: Dictionary<Key>)
    requires forall i :: 0 <= i < |d| ==> !d[i].0.Unknown?
    ensures UnknownNames(d) == []
    decreases |d|
  {
    if d != [] {
      var n := |d| - 1;
      assert forall i :: 0 <= i < n ==> d[..n][i] == d[i];
      KnownKeysNoWarnings(d[..n]);
    }
  }

  /** The written dictionary holds every flag under its key, and nothing else. */
  lemma ScriptContents(f: Flags, k: Key)
    ensures KeyExists(Script(f), k) <==> !k.Unknown?
    ensures !k.Unknown? ==> Lookup(Script(f), k) == Some(Bool(FlagOf(f, k)))
  {
    var d := Script(f);
    if !k.Unknown? {
      var i := match k case EnableTemporalResampling => 0 case EnableSpatialResampling => 1 case StoreFinalVisibility => 2;
      LookupDistinct(d, i);
    }
  }

  /** Round trip: creating a pass from the dictionary a pass writes gives it that pass's flags, with no warning. */
  lemma ScriptRoundTrip(base: Flags, f: Flags)
    ensures StoreAll(base, Script(f)) == Some(f)
    ensures UnknownNames(Script(f)) == []
  {
    var r := StoreAll(base, Script(f)).value;
    forall k: Key | !k.Unknown? ensures FlagOf(r, k) == FlagOf(f, k) {
      StoreAllFlags(base, Script(f), k);
      ScriptContents(f, k);
    }
    assert FlagOf(r, EnableTemporalResampling) == FlagOf(f, EnableTemporalResampling);
    assert FlagOf(r, EnableSpatialResampling) == FlagOf(f, EnableSpatialResampling);
    assert FlagOf(r, StoreFinalVisibility) == FlagOf(f, StoreFinalVisibility);
    KnownKeysNoWarnings(Script(f));
  }

  /**
   * The other way round: writing back a created pass gives each key the
   * flag the creating dictionary's value converted to, and the default for
   * a key it left out; a dictionary that gave `bool`s gets them back.
   */
  lemma DictionaryRoundTrip(d: Dictionary<Key>, k: Key)
    requires AllAccepted(d) && !k.Unknown?
    ensures Lookup(Script(StoreAll(DefaultFlags, d).value), k)
            == if KeyExists(d, k) then Some(Bool(AsBool(Lookup(d, k).value))) else Some(Bool(FlagOf(DefaultFlags, k)))
    ensures KeyExists(d, k) && Lookup(d, k).value.Bool? ==>
              Lookup(Script(StoreAll(DefaultFlags, d).value), k) == Lookup(d, k)
  {
    var f := StoreAll(DefaultFlags, d).value;
    StoreAllFlags(DefaultFlags, d, k);
    ScriptContents(f, k);
    if KeyExists(d, k) {
      var v := Lookup(d, k).value;
      var i :| 0 <= i < |d| && d[i] == (k, v);
      assert Accepts(d[i].0, d[i].1);
    }
  }

  /**
   * An integer given for a flag is read by its truth value, as the
   * conversion to `bool` does: `{'enableTemporalResampling': 1}` creates a
   * pass with temporal resampling on, while a non-numeric value creates none.
   */
  lemma IntegerFlagConverts(n: nat)
    ensures StoreAll(DefaultFlags, [(EnableTemporalResampling, UInt(n))])
            == Some(DefaultFlags.(enableTemporalResampling := n != 0))
    ensures StoreAll(DefaultFlags, [(EnableSpatialResampling, Other)]) == None
  {
    var d: Dictionary<Key> := [(EnableSpatialResampling, Other)];
    assert !Accepts(d[0].0, d[0].1);
  }

  // ---------------------------------------------------------------------
  // The reservoir buffer layout
  // ---------------------------------------------------------------------

  /** `(n + 16 - 1) / 16` in 32-bit arithmetic: the blocks that cover `n` pixels. */
  function Blocks(n: nat): nat
  {
    U32(n + BlockDim - 1) / BlockDim
  }

  /** `reservoirBlockRowPitch`: reservoirs in one row of blocks. */
  function RowPitch(width: nat): nat
  {
    U32(Blocks(width) * (BlockDim * BlockDim))
  }

  /** `reservoirArrayPitch`: reservoirs in one layer. */
  function ArrayPitch(width: nat, height: nat): nat
  {
    U32(RowPitch(width) * Blocks(height))
  }

  /** The element count the reservoir buffer is created with. */
  function ReservoirElements(width: nat, height: nat): nat
  {
    U32(ArrayPitch(width, height) * ReservoirLayers)
  }

  /** Up to the largest texture, the block count is the ceiling of `n / 16`. */
  lemma BlocksCeil(n: nat)
    requires n <= MaxTextureDimension
    ensures Blocks(n) * BlockDim >= n && Blocks(n) * BlockDim < n + BlockDim
    ensures Blocks(n) <= MaxTextureDimension / BlockDim
  {
  }

  lemma MulMono(a: nat, b: nat, c: nat, d: nat)
    requires a <= c && b <= d
    ensures a * b <= c * d
  {
    assert a * b <= c * b;
    assert c * b <= c * d;
  }

  /**
   * For every frame up to the largest texture, no step of the pitch
   * arithmetic wraps: a row of blocks holds 256 reservoirs per block, a
   * layer holds a reservoir for every pixel, and the buffer holds exactly
   * two layers.
   */
  lemma PitchCoversFrame(width: nat, height: nat)
    requires width <= MaxTextureDimension && height <= MaxTextureDimension
    ensures RowPitch(width) == Blocks(width) * 256
    ensures ArrayPitch(width, height) == Blocks(width) * 256 * Blocks(height)
    ensures width * height <= ArrayPitch(width, height)
    ensures ReservoirElements(width, height) == 2 * ArrayPitch(width, height)
  {
    BlocksCeil(width);
    BlocksCeil(height);
    var bw, bh := Blocks(width), Blocks(height);
    var rowPitch := bw * 256;
    assert RowPitch(width) == rowPitch;
    var blocks := bw * bh;
    MulMono(bw, bh, 1024, 1024);
    var arrayPitch := rowPitch * bh;
    assert arrayPitch == 256 * blocks;
    assert ArrayPitch(width, height) == arrayPitch;
    MulMono(width, height, bw * 16, bh * 16);
    assert (bw * 16) * (bh * 16) == 256 * blocks;
  }

  /** The pitch computation at the head of `execute`, in 32-bit arithmetic. */
  method ReservoirPitches(width: nat, height: nat) returns (rowPitch: nat, arrayPitch: nat)
    ensures rowPitch == RowPitch(width) && arrayPitch == ArrayPitch(width, height)
  {
    var widthBlocks := U32(width + 16 - 1) / 16;
    var heightBlocks := U32(height + 16 - 1) / 16;
    rowPitch := U32(widthBlocks * (16 * 16));
    arrayPitch := U32(rowPitch * heightBlocks);
  }

  // ---------------------------------------------------------------------
  // execute
  // ---------------------------------------------------------------------

  /** The target frame and the pitches every dispatch of the frame is given. */
  datatype Frame = Frame(width: nat, height: nat, rowPitch: nat, arrayPitch: nat)

  function FrameOf(width: nat, height: nat): Frame
  {
    Frame(width, height, RowPitch(width), ArrayPitch(width, height))
  }

  /** The work `execute` records, with the reservoir layers each dispatch reads and writes. */
  datatype Event =
    | CreateEmissiveSampler                  // and `CreatePasses`
    | CreatePrevVBuffer                      // `mpVBufferPrev`, a copy of the visibility buffer
    | CopyVBufferToPrev
    | CreateReservoirBuffer(elements: nat)
    | InitialSampling(frame: Frame, output: nat)
    | TemporalResampling(frame: Frame, input: nat, history: nat, output: nat)
    | SpatialResampling(frame: Frame, input: nat, output: nat)
    | Shading(frame: Frame, input: nat)

  /** The layer the shading pass reads, which becomes next frame's `mLastFrameOutputReservoir`. */
  function ShadeLayer(last: nat, spatial: bool): (r: nat)
    ensures r <= 1
  {
    var temporalOutput := LogicalNot(last);
    if spatial then LogicalNot(temporalOutput) else temporalOutput
  }

  /** The dispatches of one frame given last frame's output layer and the two resampling switches. */
  function FrameDispatches(last: nat, temporal: bool, spatial: bool, frame: Frame): seq<Event>
  {
    var initialOutput := LogicalNot(last);
    [InitialSampling(frame, initialOutput)]
    + (if temporal then [TemporalResampling(frame, initialOutput, last, initialOutput)] else [])
    + (if spatial then [SpatialResampling(frame, initialOutput, LogicalNot(initialOutput))] else [])
    + [Shading(frame, ShadeLayer(last, spatial))]
  }

  /** The layer an event reads, when it reads one. */
  function ReadLayer(e: Event): Option<nat>
  {
    match e
    case TemporalResampling(_, input, _, _) => Some(input)
    case SpatialResampling(_, input, _) => Some(input)
    case Shading(_, input) => Some(input)
    case _ => None
  }

  /** The layer an event writes, when it writes one. */
  function WriteLayer(e: Event): Option<nat>
  {
    match e
    case InitialSampling(_, output) => Some(output)
    case TemporalResampling(_, _, _, output) => Some(output)
    case SpatialResampling(_, _, output) => Some(output)
    case _ => None
  }

  /**
   * The layer rules of one frame: every layer is 0 or 1; the initial pass
   * writes the layer last frame did not shade from, which the temporal pass
   * reads as its history; the spatial pass reads one layer and writes the
   * other.
   */
  lemma FrameLayerRules(last: nat, temporal: bool, spatial: bool, frame: Frame)
    requires last <= 1
    ensures var fd := FrameDispatches(last, temporal, spatial, frame);
      && |fd| == 2 + (if temporal then 1 else 0) + (if spatial then 1 else 0)
      && fd[0] == InitialSampling(frame, fd[0].output) && fd[0].output != last
      && fd[|fd| - 1].Shading?
      && (forall e :: e in fd && ReadLayer(e).Some? ==> ReadLayer(e).value <= 1)
      && (forall e :: e in fd && WriteLayer(e).Some? ==> WriteLayer(e).value <= 1)
      && (forall e :: e in fd && e.TemporalResampling? ==> e.history == last && e.history != e.output)
      && (forall e :: e in fd && e.SpatialResampling? ==> e.input != e.output)
  {
  }

  /**
   * Data flow within the frame: every pass after the first reads the layer
   * the pass dispatched just before it wrote.
   */
  lemma FrameDataFlow(last: nat, temporal: bool, spatial: bool, frame: Frame)
    ensures var fd := FrameDispatches(last, temporal, spatial, frame);
      forall j :: 0 < j < |fd| ==> ReadLayer(fd[j]).Some? && ReadLayer(fd[j]) == WriteLayer(fd[j - 1])
  {
    var fd := FrameDispatches(last, temporal, spatial, frame);
    var initialOutput := LogicalNot(last);
    var t: seq<Event> := if temporal then [TemporalResampling(frame, initialOutput, last, initialOutput)] else [];
    var s: seq<Event> := if spatial then [SpatialResampling(frame, initialOutput, LogicalNot(initialOutput))] else [];
    assert fd == [InitialSampling(frame, initialOutput)] + t + s + [Shading(frame, ShadeLayer(last, spatial))];
  }

  /**
   * Across frames: with spatial resampling the shaded layer stays the same
   * from frame to frame; without it the shaded layer alternates.  Either
   * way, next frame's initial pass leaves this frame's shaded layer alone.
   */
  lemma ShadeLayerAcrossFrames(last: nat, spatial: bool)
    requires last <= 1
    ensures spatial ==> ShadeLayer(last, spatial) == last
    ensures !spatial ==> ShadeLayer(last, spatial) == 1 - last && ShadeLayer(ShadeLayer(last, spatial), spatial) == last
    ensures LogicalNot(ShadeLayer(last, spatial)) != ShadeLayer(last, spatial)
  {
  }

  /** What `execute` records before the dispatches when the scene is set. */
  function SetupEvents(hasEmissiveSampler: bool, hasPrevVBuffer: bool, reservoir: Option<nat>, width: nat, height: nat): seq<Event>
  {
    (if hasEmissiveSampler then [] else [CreateEmissiveSampler])
    + (if hasPrevVBuffer then [] else [CreatePrevVBuffer, CopyVBufferToPrev])
    + (if reservoir.Some? then [] else [CreateReservoirBuffer(ReservoirElements(width, height))])
  }

  /** The values `UpdateDefines` hands to the programs. */
  datatype Defines = Defines(initialEmissiveTriangleSamples: nat, initialEnvMapSamples: nat, storeFinalVisibility: bool, bruteForce: bool)

  /** The values the UI edits. */
  datatype Settings = Settings(flags: Flags, bruteForce: bool, initialEmissiveTriangleSamples: nat, initialEnvMapSamples: nat)

  /** The defines the settings call for. */
  function DefinesOf(s: Settings): Defines
  {
    Defines(s.initialEmissiveTriangleSamples, s.initialEnvMapSamples, s.flags.storeFinalVisibility, s.bruteForce)
  }

  /** The ranges the UI's sample-count sliders keep. */
  predicate UISettings(s: Settings)
  {
    1 <= s.initialEmissiveTriangleSamples <= 32 && 1 <= s.initialEnvMapSamples <= 32
  }

  class ReSTIRPass {
    var lastFrameOutputReservoir: nat
    var currentFrameOutputReservoir: nat
    var bruteForce: bool
    var enableSpatialResampling: bool
    var enableTemporalResampling: bool
    var initialEmissiveTriangleSamples: nat
    var initialEnvMapSamples: nat
    var storeFinalVisibility: bool
    var needUpdateDefines: bool
    /** `mpScene != nullptr`. */
    var hasScene: bool
    /** `mpEmissiveSampler != nullptr`. */
    var hasEmissiveSampler: bool
    /** `mpVBufferPrev != nullptr`. */
    var hasPrevVBuffer: bool
    /** `mpReservoirBuffer`, by its element count. */
    var reservoirBuffer: Option<nat>
    /** The defines the four programs were last given; `None` before the programs are created. */
    var programDefines: Option<Defines>

    /** The layer indices are 0 or 1; with a scene the programs exist, and the emissive sampler is only made with a scene. */
    predicate Valid()
      reads this`lastFrameOutputReservoir, this`currentFrameOutputReservoir, this`hasScene,
            this`hasEmissiveSampler, this`programDefines
    {
      && lastFrameOutputReservoir <= 1 && currentFrameOutputReservoir <= 1
      && (hasEmissiveSampler ==> hasScene)
      && (hasScene ==> programDefines.Some?)
    }

    function CurrentFlags(): Flags
      reads this`enableTemporalResampling, this`enableSpatialResampling, this`storeFinalVisibility
    {
      Flags(enableTemporalResampling, enableSpatialResampling, storeFinalVisibility)
    }

    function CurrentSettings(): Settings
      reads this`enableTemporalResampling, this`enableSpatialResampling, this`storeFinalVisibility,
            this`bruteForce, this`initialEmissiveTriangleSamples, this`initialEnvMapSamples
    {
      Settings(CurrentFlags(), bruteForce, initialEmissiveTriangleSamples, initialEnvMapSamples)
    }

    /** Programs that exist either carry the defines the settings call for, or an update is pending. */
    predicate DefinesTracked()
      reads this`programDefines, this`needUpdateDefines, this`enableTemporalResampling, this`enableSpatialResampling,
            this`storeFinalVisibility, this`bruteForce, this`initialEmissiveTriangleSamples, this`initialEnvMapSamples
    {
      programDefines.Some? ==> needUpdateDefines || programDefines == Some(DefinesOf(CurrentSettings()))
    }

    /** The constructor with the member defaults, then the flags `create` parsed. */
    constructor (flags: Flags)
      ensures Valid() && DefinesTracked()
      ensures CurrentFlags() == flags && !bruteForce && initialEmissiveTriangleSamples == 4 && initialEnvMapSamples == 4
      ensures lastFrameOutputReservoir == 0 && currentFrameOutputReservoir == 0 && !needUpdateDefines
      ensures !hasScene && !hasEmissiveSampler && !hasPrevVBuffer && reservoirBuffer == None && programDefines == None
    {
      lastFrameOutputReservoir := 0;
      currentFrameOutputReservoir := 0;
      bruteForce := false;
      enableSpatialResampling := flags.enableSpatialResampling;
      enableTemporalResampling := flags.enableTemporalResampling;
      initialEmissiveTriangleSamples := 4;
      initialEnvMapSamples := 4;
      storeFinalVisibility := flags.storeFinalVisibility;
      needUpdateDefines := false;
      hasScene := false;
      hasEmissiveSampler := false;
      hasPrevVBuffer := false;
      reservoirBuffer := None;
      programDefines := None;
    }

    /** `UpdateDefines`: hand the current settings to the programs and clear the request. */
    method UpdateDefines()
      modifies this`programDefines, this`needUpdateDefines
      ensures programDefines == Some(DefinesOf(CurrentSettings())) && !needUpdateDefines
    {
      programDefines := Some(Defines(initialEmissiveTriangleSamples, initialEnvMapSamples, storeFinalVisibility, bruteForce));
      needUpdateDefines := false;
    }

    /** `setScene` with a scene: the programs are created afresh from the current settings. */
    method SetScene()
      requires Valid()
      modifies this`hasScene, this`programDefines, this`needUpdateDefines
      ensures Valid() && DefinesTracked()
      ensures hasScene && programDefines == Some(DefinesOf(CurrentSettings())) && !needUpdateDefines
    {
      hasScene := true;
      UpdateDefines();
    }

    /**
     * `renderUI`: the widgets leave the settings `s`; an update of the
     * defines is requested exactly when a widget changed, which overwrites
     * a request still pending.
     */
    method RenderUI(s: Settings)
      requires UISettings(s)
      modifies this`enableTemporalResampling, this`enableSpatialResampling, this`storeFinalVisibility,
               this`bruteForce, this`initialEmissiveTriangleSamples, this`initialEnvMapSamples, this`needUpdateDefines
      ensures CurrentSettings() == s
      ensures needUpdateDefines == (s != old(CurrentSettings()))
      ensures old(DefinesTracked()) && !old(needUpdateDefines) ==> DefinesTracked()
    {
      var dirty := s != CurrentSettings();
      bruteForce := s.bruteForce;
      initialEmissiveTriangleSamples := s.initialEmissiveTriangleSamples;
      initialEnvMapSamples := s.initialEnvMapSamples;
      enableTemporalResampling := s.flags.enableTemporalResampling;
      enableSpatialResampling := s.flags.enableSpatialResampling;
      storeFinalVisibility := s.flags.storeFinalVisibility;
      needUpdateDefines := dirty;
    }

    /**
     * The first half of `execute` with a scene: create the emissive sampler
     * (and with it the programs), the previous visibility buffer and the
     * reservoir buffer when they are missing, compute the pitches, and bring
     * the defines up to date when asked.
     */
    method PrepareFrame(width: nat, height: nat) returns (events: seq<Event>, frame: Frame)
      requires Valid() && hasScene
      requires width < UInt32Limit && height < UInt32Limit
      modifies this`hasEmissiveSampler, this`hasPrevVBuffer, this`reservoirBuffer, this`programDefines, this`needUpdateDefines
      ensures Valid()
      ensures events == SetupEvents(old(hasEmissiveSampler), old(hasPrevVBuffer), old(reservoirBuffer), width, height)
      ensures frame == FrameOf(width, height)
      ensures hasEmissiveSampler && hasPrevVBuffer && !needUpdateDefines
      ensures reservoirBuffer == (if old(reservoirBuffer).Some? then old(reservoirBuffer) else Some(ReservoirElements(width, height)))
      ensures old(DefinesTracked()) ==> programDefines == Some(DefinesOf(CurrentSettings()))
    {
      var created: seq<Event> := [];
      if !hasEmissiveSampler {
        hasEmissiveSampler := true;
        created := [CreateEmissiveSampler];
        UpdateDefines();
      }
      var copied: seq<Event> := [];
      if !hasPrevVBuffer {
        hasPrevVBuffer := true;
        copied := [CreatePrevVBuffer, CopyVBufferToPrev];
      }
      var rowPitch, arrayPitch := ReservoirPitches(width, height);
      frame := Frame(width, height, rowPitch, arrayPitch);
      var reserved: seq<Event> := [];
      if reservoirBuffer == None {
        var elements := ReservoirElements(width, height);
        reservoirBuffer := Some(elements);
        reserved := [CreateReservoirBuffer(elements)];
      }
      if needUpdateDefines {
        UpdateDefines();
      }
      events := created + copied + reserved;
    }

    /**
     * The second half of `execute`: last frame's shaded layer becomes
     * `mLastFrameOutputReservoir`, the layers of the four passes follow from
     * it, and the shaded layer is kept for the next frame.
     */
    method DispatchFrame(frame: Frame) returns (events: seq<Event>)
      requires Valid()
      modifies this`lastFrameOutputReservoir, this`currentFrameOutputReservoir
      ensures Valid()
      ensures events == FrameDispatches(old(currentFrameOutputReservoir), enableTemporalResampling, enableSpatialResampling, frame)
      ensures lastFrameOutputReservoir == old(currentFrameOutputReservoir)
      ensures currentFrameOutputReservoir == ShadeLayer(lastFrameOutputReservoir, enableSpatialResampling)
    {
      lastFrameOutputReservoir := currentFrameOutputReservoir;
      var initialOutput := LogicalNot(lastFrameOutputReservoir);
      var temporalInput := lastFrameOutputReservoir;
      var temporalOutput := initialOutput;
      var spatialInput := temporalOutput;
      var spatialOutput := LogicalNot(spatialInput);
      var shadeInput := if enableSpatialResampling then spatialOutput else temporalOutput;
      currentFrameOutputReservoir := shadeInput;

      events := [InitialSampling(frame, initialOutput)];
      if enableTemporalResampling {
        events := events + [TemporalResampling(frame, initialOutput, temporalInput, temporalOutput)];
      }
      if enableSpatialResampling {
        events := events + [SpatialResampling(frame, spatialInput, spatialOutput)];
      }
      events := events + [Shading(frame, shadeInput)];
    }

    /**
     * `execute`: nothing without a scene.  Otherwise prepare, dispatch, and
     * keep this frame's visibility buffer for the next.
     */
    method Execute(width: nat, height: nat) returns (events: seq<Event>)
      requires Valid()
      requires width < UInt32Limit && height < UInt32Limit
      modifies this`lastFrameOutputReservoir, this`currentFrameOutputReservoir, this`hasEmissiveSampler,
               this`hasPrevVBuffer, this`reservoirBuffer, this`programDefines, this`needUpdateDefines
      ensures Valid()
      ensures !old(hasScene) ==> events == [] && unchanged(this)
      ensures old(hasScene) ==>
        && events == SetupEvents(old(hasEmissiveSampler), old(hasPrevVBuffer), old(reservoirBuffer), width, height)
                     + FrameDispatches(old(currentFrameOutputReservoir), enableTemporalResampling, enableSpatialResampling,
                                       FrameOf(width, height))
                     + [CopyVBufferToPrev]
        && lastFrameOutputReservoir == old(currentFrameOutputReservoir)
        && currentFrameOutputReservoir == ShadeLayer(lastFrameOutputReservoir, enableSpatialResampling)
        && hasEmissiveSampler && hasPrevVBuffer
        && reservoirBuffer == (if old(reservoirBuffer).Some? then old(reservoirBuffer) else Some(ReservoirElements(width, height)))
        && !needUpdateDefines
      ensures old(hasScene) && old(DefinesTracked()) ==> programDefines == Some(DefinesOf(CurrentSettings()))
    {
      if hasScene {
        var setup, frame := PrepareFrame(width, height);
        var dispatches := DispatchFrame(frame);
        events := setup + dispatches + [CopyVBufferToPrev];
      } else {
        events := [];
      }
    }
  }

  /**
   * `create`: parse the dictionary; a value of the wrong type throws and no
   * pass is made.
   */
  method Create(d: Dictionary<Key>) returns (pass: Option<ReSTIRPass>, warnings: seq<Warning>)
    ensures pass.Some? <==> AllAccepted(d)
    ensures pass.Some? ==>
      && fresh(pass.value) && pass.value.Valid() && !pass.value.hasScene
      && pass.value.CurrentFlags() == StoreAll(DefaultFlags, d).value
      && warnings == UnknownNames(d)
  {
    var flags;
    flags, warnings := ParseDictionary(DefaultFlags, d);
    if flags == None {
      return None, warnings;
    }
    var p := new ReSTIRPass(flags.value);
    pass := Some(p);
  }
}
