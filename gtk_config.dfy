/**
  The settings record of the GTK frontend (`Snes9xConfig` together with the
  part of the emulator's global `Settings` it validates), its defaults, how it
  is written to and read from the settings file, and the validation that runs
  after every load.

  The record holds the fields the validation, the derived flags and the
  controller ports touch; `ConfigView` is its value, and the functions over
  `ConfigView` specify the methods of the classes at the end of the module.
 */
module GtkConfig {
  import opened ConfigFile
  import opened Controllers

  /** Compile-time switches and header constants the validation depends on. */
  datatype Build = Build(
    useOpenGL: bool,          // USE_OPENGL
    useHq2x: bool,            // USE_HQ2X
    useXbrz: bool,            // USE_XBRZ
    allowCpuOverclock: bool,  // ALLOW_CPU_OVERCLOCK
    numFilters: int,          // NUM_FILTERS
    escToggleMenubar: int,    // ESC_TOGGLE_MENUBAR
    throttleSoundSync: int)   // THROTTLE_SOUND_SYNC

  /** The three CPU timing constants of `Settings`. */
  datatype ClockTiming = ClockTiming(oneClockCycle: int, oneSlowClockCycle: int, twoClockCycles: int)

  /** The value of the modelled settings, including both controller ports. */
  datatype ConfigView = ConfigView(
    scaleMethod: int,
    scanlineFilterIntensity: int,
    hiresEffect: int,
    ntscScanlineIntensity: int,
    pboFormat: int,
    fullscreen: bool,
    defaultEscBehavior: int,
    skipFrames: int,
    soundSync: bool,
    dynamicRateLimit: int,
    superFXClockMultiplier: int,
    maxSpriteTilesPerLine: int,
    clocks: ClockTiming,
    ports: seq<Port>)

  /** `HIRES_NORMAL`, "1: Leave as-is". */
  const HiresNormal: int := 1
  const DefaultEscBehavior: int := 1
  const DefaultDynamicRateLimit: int := 5
  const DefaultSuperFXClockMultiplier: int := 100

  const SpriteLimitNormal: int := 34
  const SpriteLimitRemoved: int := 128
  const StandardClocks: ClockTiming := ClockTiming(6, 8, 12)
  const OverclockedClocks: ClockTiming := ClockTiming(4, 5, 6)

  const ScaleMethodKey: string := "Display::SoftwareScaleFilter"
  const ScanlineFilterKey: string := "Display::ScanlineFilterIntensity"
  const HiresEffectKey: string := "Display::HiresEffect"
  const NtscScanlineKey: string := "NTSC::ScanlineIntensity"
  const PboFormatKey: string := "OpenGL::PixelBufferObjectBitDepth"
  const DynamicRateLimitKey: string := "Sound::DynamicRateControlLimit"
  const FullscreenKey: string := "Window State::Fullscreen"
  const EscBehaviorKey: string := "Behavior::DefaultESCKeyBehavior"
  const SpeedControlKey: string := "Emulation::SpeedControlMethod"
  const SuperFXKey: string := "Hacks::SuperFXClockMultiplier"
  const RemoveSpriteLimitKey: string := "Hacks::RemoveSpriteLimit"
  const OverclockKey: string := "Hacks::OverclockCPU"

  function PortKey(i: nat): string {
    "Input::ControllerPort" + NatText(i)
  }

  // ----- derived flags ---------------------------------------------------

  /** How save encodes the sprite limit: any limit other than 34 means "removed". */
  function RemoveSpriteLimitFlag(maxSpriteTilesPerLine: int): (removed: bool)
    ensures maxSpriteTilesPerLine == SpriteLimitNormal || maxSpriteTilesPerLine == SpriteLimitRemoved ==>
      maxSpriteTilesPerLine == if removed then SpriteLimitRemoved else SpriteLimitNormal
  {
    maxSpriteTilesPerLine != SpriteLimitNormal
  }

  /** How load expands the flag; the flag survives the expansion. */
  function MaxSpriteTilesFor(removeSpriteLimit: bool): (n: int)
    ensures n == SpriteLimitNormal || n == SpriteLimitRemoved
    ensures RemoveSpriteLimitFlag(n) == removeSpriteLimit
  {
    if removeSpriteLimit then SpriteLimitRemoved else SpriteLimitNormal
  }

  /** How save encodes overclocking: a one-cycle time other than 6 means "overclocked". */
  function OverclockFlag(t: ClockTiming): (overclocked: bool)
    ensures t == StandardClocks || t == OverclockedClocks ==>
      t == if overclocked then OverclockedClocks else StandardClocks
  {
    t.oneClockCycle != 6
  }

  function ClocksFor(overclockCPU: bool): (t: ClockTiming)
    ensures t == StandardClocks || t == OverclockedClocks
    ensures OverclockFlag(t) == overclockCPU
  {
    if overclockCPU then OverclockedClocks else StandardClocks
  }

  /** What save writes for `Fullscreen`: false unless ESC toggles the menu bar. */
  function SavedFullscreen(b: Build, v: ConfigView): (f: bool)
    ensures f <==> v.defaultEscBehavior == b.escToggleMenubar && v.fullscreen
  {
    if v.defaultEscBehavior != b.escToggleMenubar then false else v.fullscreen
  }

  // ----- validation ------------------------------------------------------

  /** GLib's `CLAMP(x, low, high)`. */
  function Clamp(x: int, low: int, high: int): (r: int)
    ensures low <= high ==> low <= r <= high
    ensures low <= x <= high ==> r == x
    ensures x < low && low <= high ==> r == low
    ensures x > high ==> r == high
  {
    if x > high then high else if x < low then low else x
  }

  /** The upper bound the first `scale_method` check applies. */
  function Hq2xFilterBound(b: Build): int {
    if b.useHq2x then b.numFilters else b.numFilters - 3
  }

  /** The upper bound the second `scale_method` check applies. */
  function XbrzFilterBound(b: Build): int {
    if b.useXbrz then b.numFilters else b.numFilters - 3
  }

  /** Both filter checks in turn: an out-of-range filter number falls back to 0. */
  function ScaleMethodChecked(b: Build, m: int): (r: int)
    ensures r == m || r == 0
    ensures r != 0 ==> r < Hq2xFilterBound(b) && r < XbrzFilterBound(b)
    ensures m < Hq2xFilterBound(b) && m < XbrzFilterBound(b) ==> r == m
  {
    var afterHq2x := if m >= Hq2xFilterBound(b) then 0 else m;
    if afterHq2x >= XbrzFilterBound(b) then 0 else afterHq2x
  }

  /** Pixel-buffer depth: anything but 32 becomes 16. */
  function PboFormatChecked(p: int): (r: int)
    ensures r == 16 || r == 32
    ensures r == 32 <==> p == 32
  {
    if p != 32 then 16 else p
  }

  /** GLib's `MAX(v, bound)`, as lines 686-687 apply it: the intensity is raised to at least `bound`. */
  function ScanlineFloorAsWritten(v: int, bound: int): (r: int)
    ensures r >= bound
    ensures v >= bound ==> r == v
    ensures v < bound ==> r == bound
  {
    if v > bound then v else bound
  }

  /**
    The validation block that ends every successful load, as written: the two
    flags read from the file expand into the sprite limit and the timing
    constants, fullscreen is switched off unless ESC toggles the menu bar, the
    filter and pixel-buffer settings are normalised, SoundSync follows the
    speed-control method, the numeric settings are clamped and the two scanline
    intensities are raised to at least 4 and 3.
   */
  function Validated(b: Build, v: ConfigView, removeSpriteLimit: bool, overclockCPU: bool): (r: ConfigView)
    ensures r.ports == v.ports && r.defaultEscBehavior == v.defaultEscBehavior && r.skipFrames == v.skipFrames
  {
    v.(maxSpriteTilesPerLine := MaxSpriteTilesFor(removeSpriteLimit),
       clocks := ClocksFor(overclockCPU),
       fullscreen := if v.defaultEscBehavior != b.escToggleMenubar then false else v.fullscreen,
       scaleMethod := ScaleMethodChecked(b, v.scaleMethod),
       pboFormat := if b.useOpenGL then PboFormatChecked(v.pboFormat) else v.pboFormat,
       soundSync := v.skipFrames == b.throttleSoundSync,
       hiresEffect := Clamp(v.hiresEffect, 0, 2),
       dynamicRateLimit := Clamp(v.dynamicRateLimit, 1, 1000),
       superFXClockMultiplier := Clamp(v.superFXClockMultiplier, 50, 400),
       ntscScanlineIntensity := ScanlineFloorAsWritten(v.ntscScanlineIntensity, 4),
       scanlineFilterIntensity := ScanlineFloorAsWritten(v.scanlineFilterIntensity, 3))
  }

  /** What the validation guarantees of its result, and what it leaves alone. */
  lemma ValidatedProperties(b: Build, v: ConfigView, removeSpriteLimit: bool, overclockCPU: bool)
    ensures var r := Validated(b, v, removeSpriteLimit, overclockCPU);
      && r.maxSpriteTilesPerLine == (if removeSpriteLimit then SpriteLimitRemoved else SpriteLimitNormal)
      && r.clocks == (if overclockCPU then OverclockedClocks else StandardClocks)
      && r.defaultEscBehavior == v.defaultEscBehavior
      && (r.fullscreen <==> v.fullscreen && v.defaultEscBehavior == b.escToggleMenubar)
      && (r.scaleMethod == v.scaleMethod || r.scaleMethod == 0)
      && (r.scaleMethod != 0 ==> r.scaleMethod < Hq2xFilterBound(b) && r.scaleMethod < XbrzFilterBound(b))
      && (v.scaleMethod < Hq2xFilterBound(b) && v.scaleMethod < XbrzFilterBound(b) ==> r.scaleMethod == v.scaleMethod)
      && (b.useOpenGL ==> (r.pboFormat == 16 || r.pboFormat == 32) && (r.pboFormat == 32 <==> v.pboFormat == 32))
      && (!b.useOpenGL ==> r.pboFormat == v.pboFormat)
      && (r.soundSync <==> v.skipFrames == b.throttleSoundSync)
      && r.skipFrames == v.skipFrames
      && 0 <= r.hiresEffect <= 2
      && 1 <= r.dynamicRateLimit <= 1000
      && 50 <= r.superFXClockMultiplier <= 400
      && (0 <= v.hiresEffect <= 2 ==> r.hiresEffect == v.hiresEffect)
      && (1 <= v.dynamicRateLimit <= 1000 ==> r.dynamicRateLimit == v.dynamicRateLimit)
      && (50 <= v.superFXClockMultiplier <= 400 ==> r.superFXClockMultiplier == v.superFXClockMultiplier)
      && r.ntscScanlineIntensity >= 4 && r.scanlineFilterIntensity >= 3
      && (v.ntscScanlineIntensity >= 4 ==> r.ntscScanlineIntensity == v.ntscScanlineIntensity)
      && (v.ntscScanlineIntensity < 4 ==> r.ntscScanlineIntensity == 4)
      && (v.scanlineFilterIntensity >= 3 ==> r.scanlineFilterIntensity == v.scanlineFilterIntensity)
      && (v.scanlineFilterIntensity < 3 ==> r.scanlineFilterIntensity == 3)
      && r.ports == v.ports
  {
  }

  // ----- the scanline check corrected --------------------------------------

  /** The top of the documented intensity range: 0 (0%) up to 4 (100%), gtk_config.cpp:250. */
  const MaxScanlineIntensity: int := 4

  /** GLib's `MIN(v, cap)`: the upper bound the scanline intensities evidently want. */
  function ScanlineCapped(v: int, cap: int): (r: int)
    ensures r <= cap
    ensures v <= cap ==> r == v
    ensures v > cap ==> r == cap
  {
    if v < cap then v else cap
  }

  /**
    The validation with the scanline check corrected: both intensities are
    capped at the top of the documented range instead of raised to a floor;
    every other field is validated as the source does it.
   */
  function ValidatedCorrected(b: Build, v: ConfigView, removeSpriteLimit: bool, overclockCPU: bool): (r: ConfigView)
    ensures r.ntscScanlineIntensity <= MaxScanlineIntensity && r.scanlineFilterIntensity <= MaxScanlineIntensity
    ensures v.ntscScanlineIntensity <= MaxScanlineIntensity ==> r.ntscScanlineIntensity == v.ntscScanlineIntensity
    ensures v.scanlineFilterIntensity <= MaxScanlineIntensity ==> r.scanlineFilterIntensity == v.scanlineFilterIntensity
    ensures r.(ntscScanlineIntensity := 0, scanlineFilterIntensity := 0)
            == Validated(b, v, removeSpriteLimit, overclockCPU).(ntscScanlineIntensity := 0, scanlineFilterIntensity := 0)
  {
    Validated(b, v, removeSpriteLimit, overclockCPU)
      .(ntscScanlineIntensity := ScanlineCapped(v.ntscScanlineIntensity, MaxScanlineIntensity),
        scanlineFilterIntensity := ScanlineCapped(v.scanlineFilterIntensity, MaxScanlineIntensity))
  }

  // ----- defaults --------------------------------------------------------

  /**
    `load_defaults`: fixed constants for every modelled field; the pixel-buffer
    depth only in an OpenGL build and the sprite limit and timing only when CPU
    overclocking is compiled in. The controller ports are not touched.
   */
  function Defaults(b: Build, before: ConfigView): (r: ConfigView)
    ensures r.ports == before.ports
    ensures !r.fullscreen && !r.soundSync
    ensures b.allowCpuOverclock ==> r.maxSpriteTilesPerLine == SpriteLimitNormal && r.clocks == StandardClocks
    ensures b.allowCpuOverclock ==> !RemoveSpriteLimitFlag(r.maxSpriteTilesPerLine) && !OverclockFlag(r.clocks)
  {
    before.(scaleMethod := 0,
            scanlineFilterIntensity := 0,
            hiresEffect := HiresNormal,
            ntscScanlineIntensity := 1,
            pboFormat := if b.useOpenGL then 0 else before.pboFormat,
            fullscreen := false,
            defaultEscBehavior := DefaultEscBehavior,
            skipFrames := 0,
            soundSync := false,
            dynamicRateLimit := DefaultDynamicRateLimit,
            superFXClockMultiplier := DefaultSuperFXClockMultiplier,
            maxSpriteTilesPerLine := if b.allowCpuOverclock then SpriteLimitNormal else before.maxSpriteTilesPerLine,
            clocks := if b.allowCpuOverclock then StandardClocks else before.clocks)
  }

  // ----- save ------------------------------------------------------------

  /** The setting keys save writes; the pixel-buffer depth only in an OpenGL build. */
  function SettingKeys(b: Build): set<string> {
    {ScaleMethodKey, ScanlineFilterKey, HiresEffectKey, NtscScanlineKey, DynamicRateLimitKey, FullscreenKey,
     EscBehaviorKey, SpeedControlKey, SuperFXKey, RemoveSpriteLimitKey, OverclockKey}
    + (if b.useOpenGL then {PboFormatKey} else {})
  }

  /** Every modelled key `save_config_file` writes before the controller ports. */
  function SavedSettings(b: Build, v: ConfigView): ConfigFile {
    var cf := map[][ScaleMethodKey := IntText(v.scaleMethod)]
                   [ScanlineFilterKey := IntText(v.scanlineFilterIntensity)]
                   [HiresEffectKey := IntText(v.hiresEffect)]
                   [NtscScanlineKey := IntText(v.ntscScanlineIntensity)];
    var cf := if b.useOpenGL then cf[PboFormatKey := IntText(v.pboFormat)] else cf;
    cf[DynamicRateLimitKey := IntText(v.dynamicRateLimit)]
      [FullscreenKey := BoolText(SavedFullscreen(b, v))]
      [EscBehaviorKey := IntText(v.defaultEscBehavior)]
      [SpeedControlKey := IntText(v.skipFrames)]
      [SuperFXKey := IntText(v.superFXClockMultiplier)]
      [RemoveSpriteLimitKey := BoolText(RemoveSpriteLimitFlag(v.maxSpriteTilesPerLine))]
      [OverclockKey := BoolText(OverclockFlag(v.clocks))]
  }

  /** `cf` with the names of the first `n` ports' controller types added. */
  function WithPorts(cf: ConfigFile, ports: seq<Port>, n: nat): (r: ConfigFile)
    requires n <= |ports|
    ensures r.Keys == cf.Keys + set j | 0 <= j < n :: PortKey(j)
  {
    if n == 0 then cf else WithPorts(cf, ports, n - 1)[PortKey(n - 1) := PortText(ports[n - 1].kind)]
  }

  /** The file `save_config_file` writes for `v` (as far as the model goes). */
  function Saved(b: Build, v: ConfigView): ConfigFile
    requires |v.ports| == NumPorts
  {
    WithPorts(SavedSettings(b, v), v.ports, NumPorts)
  }

  /** Save writes exactly the setting keys and the two port keys. */
  lemma SavedKeys(b: Build, v: ConfigView)
    requires |v.ports| == NumPorts
    ensures SavedSettings(b, v).Keys == SettingKeys(b)
    ensures Saved(b, v).Keys == SettingKeys(b) + {PortKey(0), PortKey(1)}
  {
    assert (set j | 0 <= j < NumPorts :: PortKey(j)) == {PortKey(0), PortKey(1)};
  }

  // ----- load ------------------------------------------------------------

  /** The ports after the loader has read the first `n` port names from `cf`. */
  function ReadPorts(cf: ConfigFile, ports: seq<Port>, n: nat): (r: seq<Port>)
    requires n <= |ports|
    ensures |r| == |ports|
    ensures forall i :: 0 <= i < n ==> r[i] == LoadPort(ports[i], GetString(cf, PortKey(i), ""), i)
    ensures forall i :: n <= i < |ports| ==> r[i] == ports[i]
  {
    if n == 0 then ports
    else ReadPorts(cf, ports, n - 1)[n - 1 := LoadPort(ports[n - 1], GetString(cf, PortKey(n - 1), ""), n - 1)]
  }

  /** The scalar keys `load_config_file` reads, each read into `base`. */
  function ReadValues(b: Build, cf: ConfigFile, base: ConfigView): (r: ConfigView)
    ensures r.ports == base.ports && r.soundSync == base.soundSync
    ensures r.maxSpriteTilesPerLine == base.maxSpriteTilesPerLine && r.clocks == base.clocks
    ensures !b.useOpenGL ==> r.pboFormat == base.pboFormat
  {
    base.(scaleMethod := GetInt(cf, ScaleMethodKey),
          scanlineFilterIntensity := GetInt(cf, ScanlineFilterKey),
          hiresEffect := GetInt(cf, HiresEffectKey),
          ntscScanlineIntensity := GetInt(cf, NtscScanlineKey),
          pboFormat := if b.useOpenGL then GetInt(cf, PboFormatKey) else base.pboFormat,
          dynamicRateLimit := GetInt(cf, DynamicRateLimitKey),
          fullscreen := GetBool(cf, FullscreenKey),
          defaultEscBehavior := GetInt(cf, EscBehaviorKey),
          skipFrames := GetInt(cf, SpeedControlKey),
          superFXClockMultiplier := GetInt(cf, SuperFXKey))
  }

  /** The reading part of `load_config_file`: each modelled key read into `base`. */
  function ReadFile(b: Build, cf: ConfigFile, base: ConfigView): (r: ConfigView)
    requires |base.ports| == NumPorts
    ensures |r.ports| == NumPorts
    ensures forall i :: 0 <= i < NumPorts ==> r.ports[i] == LoadPort(base.ports[i], GetString(cf, PortKey(i), ""), i)
    ensures r.soundSync == base.soundSync
    ensures r.maxSpriteTilesPerLine == base.maxSpriteTilesPerLine && r.clocks == base.clocks
    ensures !b.useOpenGL ==> r.pboFormat == base.pboFormat
  {
    ReadValues(b, cf, base).(ports := ReadPorts(cf, base.ports, NumPorts))
  }

  /** A successful `load_config_file` of `cf` over the settings `before`. */
  function LoadedView(b: Build, cf: ConfigFile, before: ConfigView): (r: ConfigView)
    requires |before.ports| == NumPorts
    ensures |r.ports| == NumPorts
    ensures Settled(b, r)
  {
    Validated(b, ReadFile(b, cf, Defaults(b, before)),
              GetBool(cf, RemoveSpriteLimitKey), GetBool(cf, OverclockKey))
  }

  // ----- save followed by load -------------------------------------------

  /** The record as it is after the text round trip, before validation. */
  function Reread(b: Build, v: ConfigView, before: ConfigView): (r: ConfigView)
    requires |v.ports| == NumPorts && |before.ports| == NumPorts
  {
    v.(fullscreen := SavedFullscreen(b, v),
       pboFormat := if b.useOpenGL then v.pboFormat else before.pboFormat,
       ports := [LoadPort(before.ports[0], PortText(v.ports[0].kind), 0),
                 LoadPort(before.ports[1], PortText(v.ports[1].kind), 1)])
  }

  /** The setting keys are told apart by length, except two pairs told apart by their first letter. */
  lemma KeyLengths()
    ensures |ScaleMethodKey| == 28 && |ScanlineFilterKey| == 32 && |HiresEffectKey| == 20
    ensures |NtscScanlineKey| == 23 && |PboFormatKey| == 33 && |DynamicRateLimitKey| == 30
    ensures |FullscreenKey| == 24 && |EscBehaviorKey| == 31 && |SpeedControlKey| == 29
    ensures |SuperFXKey| == 29 && |RemoveSpriteLimitKey| == 24 && |OverclockKey| == 19
    ensures FullscreenKey[0] != RemoveSpriteLimitKey[0] && SpeedControlKey[0] != SuperFXKey[0]
  {
  }

  /** The text save stores under the display keys. */
  lemma SavedDisplayText(b: Build, v: ConfigView)
    ensures var cf := SavedSettings(b, v);
      && ScaleMethodKey in cf && cf[ScaleMethodKey] == IntText(v.scaleMethod)
      && ScanlineFilterKey in cf && cf[ScanlineFilterKey] == IntText(v.scanlineFilterIntensity)
      && HiresEffectKey in cf && cf[HiresEffectKey] == IntText(v.hiresEffect)
      && NtscScanlineKey in cf && cf[NtscScanlineKey] == IntText(v.ntscScanlineIntensity)
  {
    KeyLengths();
  }

  /** The text save stores under the pixel-buffer and sound keys. */
  lemma SavedBufferText(b: Build, v: ConfigView)
    ensures var cf := SavedSettings(b, v);
      && (b.useOpenGL ==> PboFormatKey in cf && cf[PboFormatKey] == IntText(v.pboFormat))
      && DynamicRateLimitKey in cf && cf[DynamicRateLimitKey] == IntText(v.dynamicRateLimit)
  {
    KeyLengths();
  }

  /** The text save stores under the window, behaviour, emulation and hack keys. */
  lemma SavedBehaviorText(b: Build, v: ConfigView)
    ensures var cf := SavedSettings(b, v);
      && FullscreenKey in cf && cf[FullscreenKey] == BoolText(SavedFullscreen(b, v))
      && EscBehaviorKey in cf && cf[EscBehaviorKey] == IntText(v.defaultEscBehavior)
      && SpeedControlKey in cf && cf[SpeedControlKey] == IntText(v.skipFrames)
      && SuperFXKey in cf && cf[SuperFXKey] == IntText(v.superFXClockMultiplier)
      && RemoveSpriteLimitKey in cf && cf[RemoveSpriteLimitKey] == BoolText(RemoveSpriteLimitFlag(v.maxSpriteTilesPerLine))
      && OverclockKey in cf && cf[OverclockKey] == BoolText(OverclockFlag(v.clocks))
  {
    KeyLengths();
  }

  /** The port names are the last two entries save writes, under keys of their own. */
  lemma SavedPortText(b: Build, v: ConfigView)
    requires |v.ports| == NumPorts
    ensures Saved(b, v) == SavedSettings(b, v)[PortKey(0) := PortText(v.ports[0].kind)]
                                             [PortKey(1) := PortText(v.ports[1].kind)]
    ensures |PortKey(0)| == |PortKey(1)| == 22 && PortKey(0) != PortKey(1)
  {
    var head := SavedSettings(b, v);
    assert WithPorts(head, v.ports, 1) == head[PortKey(0) := PortText(v.ports[0].kind)];
    assert NatText(0) == "0" && NatText(1) == "1";
    assert PortKey(0)[21] != PortKey(1)[21];
  }

  /** `cf` holds, under each modelled key, the text save writes for `v`. */
  predicate StoresText(b: Build, cf: ConfigFile, v: ConfigView)
    requires |v.ports| == NumPorts
  {
    && ScaleMethodKey in cf && cf[ScaleMethodKey] == IntText(v.scaleMethod)
    && ScanlineFilterKey in cf && cf[ScanlineFilterKey] == IntText(v.scanlineFilterIntensity)
    && HiresEffectKey in cf && cf[HiresEffectKey] == IntText(v.hiresEffect)
    && NtscScanlineKey in cf && cf[NtscScanlineKey] == IntText(v.ntscScanlineIntensity)
    && (b.useOpenGL ==> PboFormatKey in cf && cf[PboFormatKey] == IntText(v.pboFormat))
    && DynamicRateLimitKey in cf && cf[DynamicRateLimitKey] == IntText(v.dynamicRateLimit)
    && FullscreenKey in cf && cf[FullscreenKey] == BoolText(SavedFullscreen(b, v))
    && EscBehaviorKey in cf && cf[EscBehaviorKey] == IntText(v.defaultEscBehavior)
    && SpeedControlKey in cf && cf[SpeedControlKey] == IntText(v.skipFrames)
    && SuperFXKey in cf && cf[SuperFXKey] == IntText(v.superFXClockMultiplier)
    && RemoveSpriteLimitKey in cf && cf[RemoveSpriteLimitKey] == BoolText(RemoveSpriteLimitFlag(v.maxSpriteTilesPerLine))
    && OverclockKey in cf && cf[OverclockKey] == BoolText(OverclockFlag(v.clocks))
    && PortKey(0) in cf && cf[PortKey(0)] == PortText(v.ports[0].kind)
    && PortKey(1) in cf && cf[PortKey(1)] == PortText(v.ports[1].kind)
  }

  /** The text of the saved file under each modelled key. */
  lemma SavedText(b: Build, v: ConfigView)
    requires |v.ports| == NumPorts
    ensures StoresText(b, Saved(b, v), v)
  {
    SavedDisplayText(b, v);
    SavedBufferText(b, v);
    SavedBehaviorText(b, v);
    SavedPortText(b, v);
    // no setting key is 22 characters long, so the port entries shadow none of them
    assert |ScaleMethodKey| != 22 && |ScanlineFilterKey| != 22 && |HiresEffectKey| != 22;
    assert |NtscScanlineKey| != 22 && |PboFormatKey| != 22 && |DynamicRateLimitKey| != 22;
    assert |FullscreenKey| != 22 && |EscBehaviorKey| != 22 && |SpeedControlKey| != 22;
    assert |SuperFXKey| != 22 && |RemoveSpriteLimitKey| != 22 && |OverclockKey| != 22;
  }

  /** `cf` reads back, key by key, as the record `v` was saved. */
  predicate ReadsBackAs(b: Build, cf: ConfigFile, v: ConfigView)
    requires |v.ports| == NumPorts
  {
    && GetInt(cf, ScaleMethodKey) == v.scaleMethod
    && GetInt(cf, ScanlineFilterKey) == v.scanlineFilterIntensity
    && GetInt(cf, HiresEffectKey) == v.hiresEffect
    && GetInt(cf, NtscScanlineKey) == v.ntscScanlineIntensity
    && (b.useOpenGL ==> GetInt(cf, PboFormatKey) == v.pboFormat)
    && GetInt(cf, DynamicRateLimitKey) == v.dynamicRateLimit
    && GetBool(cf, FullscreenKey) == SavedFullscreen(b, v)
    && GetInt(cf, EscBehaviorKey) == v.defaultEscBehavior
    && GetInt(cf, SpeedControlKey) == v.skipFrames
    && GetInt(cf, SuperFXKey) == v.superFXClockMultiplier
    && GetBool(cf, RemoveSpriteLimitKey) == RemoveSpriteLimitFlag(v.maxSpriteTilesPerLine)
    && GetBool(cf, OverclockKey) == OverclockFlag(v.clocks)
    && GetString(cf, PortKey(0), "") == PortText(v.ports[0].kind)
    && GetString(cf, PortKey(1), "") == PortText(v.ports[1].kind)
  }

  /** Decimal and boolean text reads back as the value that was written. */
  lemma TextReadsBack(b: Build, cf: ConfigFile, v: ConfigView)
    requires |v.ports| == NumPorts
    requires StoresText(b, cf, v)
    ensures ReadsBackAs(b, cf, v)
  {
    IntReadsBack(cf, ScaleMethodKey, v.scaleMethod);
    IntReadsBack(cf, ScanlineFilterKey, v.scanlineFilterIntensity);
    IntReadsBack(cf, HiresEffectKey, v.hiresEffect);
    IntReadsBack(cf, NtscScanlineKey, v.ntscScanlineIntensity);
    if b.useOpenGL {
      IntReadsBack(cf, PboFormatKey, v.pboFormat);
    }
    IntReadsBack(cf, DynamicRateLimitKey, v.dynamicRateLimit);
    IntReadsBack(cf, EscBehaviorKey, v.defaultEscBehavior);
    IntReadsBack(cf, SpeedControlKey, v.skipFrames);
    IntReadsBack(cf, SuperFXKey, v.superFXClockMultiplier);
  }

  /** Every value save writes is what load reads back under the same key. */
  lemma SavedReadBack(b: Build, v: ConfigView)
    requires |v.ports| == NumPorts
    ensures ReadsBackAs(b, Saved(b, v), v)
  {
    SavedText(b, v);
    TextReadsBack(b, Saved(b, v), v);
  }

  /** Reading a file that reads back as `v` into any base record. */
  lemma ReadFileOfSaved(b: Build, cf: ConfigFile, v: ConfigView, base: ConfigView)
    requires |v.ports| == NumPorts && |base.ports| == NumPorts
    requires ReadsBackAs(b, cf, v)
    ensures ReadFile(b, cf, base)
      == base.(scaleMethod := v.scaleMethod,
               scanlineFilterIntensity := v.scanlineFilterIntensity,
               hiresEffect := v.hiresEffect,
               ntscScanlineIntensity := v.ntscScanlineIntensity,
               pboFormat := if b.useOpenGL then v.pboFormat else base.pboFormat,
               dynamicRateLimit := v.dynamicRateLimit,
               fullscreen := SavedFullscreen(b, v),
               defaultEscBehavior := v.defaultEscBehavior,
               skipFrames := v.skipFrames,
               superFXClockMultiplier := v.superFXClockMultiplier,
               ports := [LoadPort(base.ports[0], PortText(v.ports[0].kind), 0),
                         LoadPort(base.ports[1], PortText(v.ports[1].kind), 1)])
  {
    var q0 := LoadPort(base.ports[0], PortText(v.ports[0].kind), 0);
    var q1 := LoadPort(base.ports[1], PortText(v.ports[1].kind), 1);
    assert ReadPorts(cf, base.ports, 1) == base.ports[0 := q0];
    assert ReadPorts(cf, base.ports, 2) == [q0, q1];
  }

  /**
    Loading what save wrote gives back the record validated, with Fullscreen
    as save wrote it, the two flags recovered from the sprite limit and the
    timing, and each port re-read from its type's name.
   */
  lemma {:induction false} SaveLoadRoundTrip(b: Build, v: ConfigView, before: ConfigView)
    requires |v.ports| == NumPorts && |before.ports| == NumPorts
    ensures LoadedView(b, Saved(b, v), before)
      == Validated(b, Reread(b, v, before), RemoveSpriteLimitFlag(v.maxSpriteTilesPerLine), OverclockFlag(v.clocks))
  {
    SavedReadBack(b, v);
    ReadFileOfSaved(b, Saved(b, v), v, Defaults(b, before));
  }

  /**
    The sprite limit comes back as one of its two fixed values, selected by
    the flag save derived from it, so the flag survives the round trip.
   */
  lemma {:induction false} SaveLoadSpriteLimit(b: Build, v: ConfigView, before: ConfigView)
    requires |v.ports| == NumPorts && |before.ports| == NumPorts
    ensures var r := LoadedView(b, Saved(b, v), before);
      && r.maxSpriteTilesPerLine == (if v.maxSpriteTilesPerLine == SpriteLimitNormal then SpriteLimitNormal else SpriteLimitRemoved)
      && RemoveSpriteLimitFlag(r.maxSpriteTilesPerLine) == RemoveSpriteLimitFlag(v.maxSpriteTilesPerLine)
  {
    SaveLoadRoundTrip(b, v, before);
  }

  /**
    The CPU timing comes back as the standard or the overclocked set,
    selected by the flag save derived from it, so the flag survives the round trip.
   */
  lemma {:induction false} SaveLoadTiming(b: Build, v: ConfigView, before: ConfigView)
    requires |v.ports| == NumPorts && |before.ports| == NumPorts
    ensures var r := LoadedView(b, Saved(b, v), before);
      && r.clocks == (if v.clocks.oneClockCycle == 6 then StandardClocks else OverclockedClocks)
      && OverclockFlag(r.clocks) == OverclockFlag(v.clocks)
  {
    SaveLoadRoundTrip(b, v, before);
  }

  /**
    ESC behaviour and the speed-control method come back unchanged; Fullscreen
    comes back only when ESC toggles the menu bar; SoundSync follows the
    speed-control method.
   */
  lemma {:induction false} SaveLoadBehavior(b: Build, v: ConfigView, before: ConfigView)
    requires |v.ports| == NumPorts && |before.ports| == NumPorts
    ensures var r := LoadedView(b, Saved(b, v), before);
      && r.defaultEscBehavior == v.defaultEscBehavior
      && (r.fullscreen <==> v.fullscreen && v.defaultEscBehavior == b.escToggleMenubar)
      && r.skipFrames == v.skipFrames
      && (r.soundSync <==> v.skipFrames == b.throttleSoundSync)
  {
    SaveLoadRoundTrip(b, v, before);
  }

  /**
    Bounded settings that are already in range come back unchanged; a
    scanline intensity below its floor comes back as the floor.
   */
  lemma {:induction false} SaveLoadBounded(b: Build, v: ConfigView, before: ConfigView)
    requires |v.ports| == NumPorts && |before.ports| == NumPorts
    ensures var r := LoadedView(b, Saved(b, v), before);
      && (0 <= v.hiresEffect <= 2 ==> r.hiresEffect == v.hiresEffect)
      && (1 <= v.dynamicRateLimit <= 1000 ==> r.dynamicRateLimit == v.dynamicRateLimit)
      && (50 <= v.superFXClockMultiplier <= 400 ==> r.superFXClockMultiplier == v.superFXClockMultiplier)
      && (v.ntscScanlineIntensity >= 4 ==> r.ntscScanlineIntensity == v.ntscScanlineIntensity)
      && (v.ntscScanlineIntensity < 4 ==> r.ntscScanlineIntensity == 4)
      && (v.scanlineFilterIntensity >= 3 ==> r.scanlineFilterIntensity == v.scanlineFilterIntensity)
      && (v.scanlineFilterIntensity < 3 ==> r.scanlineFilterIntensity == 3)
      && (b.useOpenGL && v.pboFormat == 32 ==> r.pboFormat == 32)
  {
    SaveLoadRoundTrip(b, v, before);
  }

  /**
    The round trip of the controller ports: a port comes back with the
    loader's ids for a recognised type and untouched for "justifier" or "none".
   */
  lemma {:induction false} SaveLoadPorts(b: Build, v: ConfigView, before: ConfigView)
    requires |v.ports| == NumPorts && |before.ports| == NumPorts
    ensures var r := LoadedView(b, Saved(b, v), before);
      forall i :: 0 <= i < NumPorts ==>
        r.ports[i] == (if Loadable(v.ports[i].kind) then AssignedPort(v.ports[i].kind, i) else before.ports[i])
  {
    SaveLoadRoundTrip(b, v, before);
    PortTextRoundTrip(v.ports[0].kind, 0);
    PortTextRoundTrip(v.ports[1].kind, 1);
  }

  /**
    A first-run file, saved from the defaults, holds the documented intensities
    0 (0%) and 1; loading it gives 3 and 4, so the defaults do not survive the
    first load.
   */
  lemma {:induction false} FirstRunLoadMovesIntensities(b: Build, before: ConfigView)
    requires |before.ports| == NumPorts
    ensures var d := Defaults(b, before);
      var r := LoadedView(b, Saved(b, d), before);
      && d.scanlineFilterIntensity == 0 && d.ntscScanlineIntensity == 1
      && r.scanlineFilterIntensity == 3 && r.ntscScanlineIntensity == 4
  {
    SaveLoadRoundTrip(b, Defaults(b, before), before);
  }

  /**
    A key missing from the file reads as the store's fallback, which the
    validation then bounds: the fields do not keep their defaults.
   */
  lemma MissingKeysLoadFallbacks(b: Build, cf: ConfigFile, before: ConfigView)
    requires |before.ports| == NumPorts
    requires HiresEffectKey !in cf && DynamicRateLimitKey !in cf && SuperFXKey !in cf
    requires ScanlineFilterKey !in cf && NtscScanlineKey !in cf && SpeedControlKey !in cf
    requires FullscreenKey !in cf && RemoveSpriteLimitKey !in cf && OverclockKey !in cf
    ensures var r := LoadedView(b, cf, before);
      && r.hiresEffect == 0 && r.dynamicRateLimit == 1 && r.superFXClockMultiplier == 50
      && r.scanlineFilterIntensity == 3 && r.ntscScanlineIntensity == 4
      && r.skipFrames == MissingInt && !r.fullscreen
      && r.maxSpriteTilesPerLine == SpriteLimitNormal && r.clocks == StandardClocks
  {
  }

  /** A successful load with the scanline check corrected. */
  function LoadedViewCorrected(b: Build, cf: ConfigFile, before: ConfigView): (r: ConfigView)
    requires |before.ports| == NumPorts
    ensures r.ntscScanlineIntensity <= MaxScanlineIntensity && r.scanlineFilterIntensity <= MaxScanlineIntensity
  {
    ValidatedCorrected(b, ReadFile(b, cf, Defaults(b, before)),
                       GetBool(cf, RemoveSpriteLimitKey), GetBool(cf, OverclockKey))
  }

  /**
    With the corrected check every documented intensity survives save and
    load; in particular the first-run defaults 0 and 1 come back as 0 and 1.
   */
  lemma {:induction false} SaveLoadCorrectedIntensities(b: Build, v: ConfigView, before: ConfigView)
    requires |v.ports| == NumPorts && |before.ports| == NumPorts
    ensures var r := LoadedViewCorrected(b, Saved(b, v), before);
      && (v.ntscScanlineIntensity <= MaxScanlineIntensity ==> r.ntscScanlineIntensity == v.ntscScanlineIntensity)
      && (v.scanlineFilterIntensity <= MaxScanlineIntensity ==> r.scanlineFilterIntensity == v.scanlineFilterIntensity)
  {
    SavedReadBack(b, v);
    ReadFileOfSaved(b, Saved(b, v), v, Defaults(b, before));
  }

  /** What every loaded record satisfies: the state the validation leaves behind. */
  predicate Settled(b: Build, r: ConfigView) {
    && (r.scaleMethod == 0 || (r.scaleMethod < Hq2xFilterBound(b) && r.scaleMethod < XbrzFilterBound(b)))
    && (b.useOpenGL ==> r.pboFormat == 16 || r.pboFormat == 32)
    && (r.fullscreen ==> r.defaultEscBehavior == b.escToggleMenubar)
    && 0 <= r.hiresEffect <= 2
    && 1 <= r.dynamicRateLimit <= 1000
    && 50 <= r.superFXClockMultiplier <= 400
    && r.ntscScanlineIntensity >= 4
    && r.scanlineFilterIntensity >= 3
    && (r.maxSpriteTilesPerLine == SpriteLimitNormal || r.maxSpriteTilesPerLine == SpriteLimitRemoved)
    && (r.clocks == StandardClocks || r.clocks == OverclockedClocks)
  }

  /** Two records that save writes identically. */
  predicate SameSaved(b: Build, v: ConfigView, w: ConfigView)
    requires |v.ports| == NumPorts && |w.ports| == NumPorts
  {
    && v.scaleMethod == w.scaleMethod
    && v.scanlineFilterIntensity == w.scanlineFilterIntensity
    && v.hiresEffect == w.hiresEffect
    && v.ntscScanlineIntensity == w.ntscScanlineIntensity
    && (b.useOpenGL ==> v.pboFormat == w.pboFormat)
    && v.dynamicRateLimit == w.dynamicRateLimit
    && SavedFullscreen(b, v) == SavedFullscreen(b, w)
    && v.defaultEscBehavior == w.defaultEscBehavior
    && v.skipFrames == w.skipFrames
    && v.superFXClockMultiplier == w.superFXClockMultiplier
    && RemoveSpriteLimitFlag(v.maxSpriteTilesPerLine) == RemoveSpriteLimitFlag(w.maxSpriteTilesPerLine)
    && OverclockFlag(v.clocks) == OverclockFlag(w.clocks)
    && v.ports[0].kind == w.ports[0].kind
    && v.ports[1].kind == w.ports[1].kind
  }

  lemma SameSavedSavesSame(b: Build, v: ConfigView, w: ConfigView)
    requires |v.ports| == NumPorts && |w.ports| == NumPorts
    requires SameSaved(b, v, w)
    ensures Saved(b, v) == Saved(b, w)
  {
    SavedPortText(b, v);
    SavedPortText(b, w);
    assert SavedSettings(b, v) == SavedSettings(b, w);
  }

  /** Saving a settled record and loading it back changes nothing save would write. */
  lemma {:induction false} ReloadOfSettled(b: Build, r: ConfigView)
    requires |r.ports| == NumPorts && Settled(b, r)
    ensures SameSaved(b, LoadedView(b, Saved(b, r), r), r)
  {
    SaveLoadRoundTrip(b, r, r);
    PortTextRoundTrip(r.ports[0].kind, 0);
    PortTextRoundTrip(r.ports[1].kind, 1);
  }

  /**
    One load settles the file: saving a loaded record, loading that file and
    saving again writes the same file.
   */
  lemma {:induction false} SaveAfterLoadIsStable(b: Build, cf: ConfigFile, before: ConfigView)
    requires |before.ports| == NumPorts
    ensures var r := LoadedView(b, cf, before);
      Saved(b, LoadedView(b, Saved(b, r), r)) == Saved(b, r)
  {
    var r := LoadedView(b, cf, before);
    ReloadOfSettled(b, r);
    SameSavedSavesSame(b, LoadedView(b, Saved(b, r), r), r);
  }
}
