/**
  The GTK frontend's settings object and the emulator settings it writes,
  with `load_defaults`, `save_config_file` and `load_config_file` as methods
  proved against the functions of `GtkConfig`.
 */
module ConfigObjects {
  import opened Option
  import opened ConfigFile
  import opened Controllers
  import opened GtkConfig

  /** The part of the emulator's global `Settings` record the frontend writes. */
  class EmulatorSettings {
    var skipFrames: int
    var soundSync: bool
    var dynamicRateLimit: int
    var superFXClockMultiplier: int
    var maxSpriteTilesPerLine: int
    var oneClockCycle: int
    var oneSlowClockCycle: int
    var twoClockCycles: int

    /** A global record starts zeroed. */
    constructor ()
      ensures skipFrames == 0 && !soundSync && dynamicRateLimit == 0 && superFXClockMultiplier == 0
      ensures maxSpriteTilesPerLine == 0 && oneClockCycle == 0 && oneSlowClockCycle == 0 && twoClockCycles == 0
    {
      skipFrames, soundSync, dynamicRateLimit, superFXClockMultiplier := 0, false, 0, 0;
      maxSpriteTilesPerLine, oneClockCycle, oneSlowClockCycle, twoClockCycles := 0, 0, 0, 0;
    }

    /** The three timing fields as one value. */
    function Timing(): ClockTiming
      reads this
    {
      ClockTiming(oneClockCycle, oneSlowClockCycle, twoClockCycles)
    }

    /** The `Settings` assignments of `load_defaults`. */
    method LoadDefaults(allowCpuOverclock: bool)
      modifies this
      ensures skipFrames == 0 && !soundSync
      ensures dynamicRateLimit == DefaultDynamicRateLimit
      ensures superFXClockMultiplier == DefaultSuperFXClockMultiplier
      ensures allowCpuOverclock ==> maxSpriteTilesPerLine == SpriteLimitNormal && Timing() == StandardClocks
      ensures !allowCpuOverclock ==> maxSpriteTilesPerLine == old(maxSpriteTilesPerLine) && Timing() == old(Timing())
    {
      skipFrames := 0;
      soundSync := false;
      dynamicRateLimit := 5;
      superFXClockMultiplier := 100;
      if allowCpuOverclock {
        maxSpriteTilesPerLine := 34;
        oneClockCycle := 6;
        oneSlowClockCycle := 8;
        twoClockCycles := 12;
      }
    }

    /** The `Settings` fields `load_config_file` reads from the file. */
    method ReadFrom(cf: ConfigFile)
      modifies this
      ensures dynamicRateLimit == GetInt(cf, DynamicRateLimitKey)
      ensures skipFrames == GetInt(cf, SpeedControlKey)
      ensures superFXClockMultiplier == GetInt(cf, SuperFXKey)
      ensures soundSync == old(soundSync) && maxSpriteTilesPerLine == old(maxSpriteTilesPerLine)
      ensures Timing() == old(Timing())
    {
      dynamicRateLimit := GetInt(cf, DynamicRateLimitKey);
      skipFrames := GetInt(cf, SpeedControlKey);
      superFXClockMultiplier := GetInt(cf, SuperFXKey);
    }

    /** The `Settings` part of the validation after a load. */
    method Validate(removeSpriteLimit: bool, overclockCPU: bool, throttleSoundSync: int)
      modifies this
      ensures maxSpriteTilesPerLine == MaxSpriteTilesFor(removeSpriteLimit)
      ensures Timing() == ClocksFor(overclockCPU)
      ensures skipFrames == old(skipFrames)
      ensures soundSync <==> skipFrames == throttleSoundSync
      ensures dynamicRateLimit == Clamp(old(dynamicRateLimit), 1, 1000)
      ensures superFXClockMultiplier == Clamp(old(superFXClockMultiplier), 50, 400)
    {
      if removeSpriteLimit {
        maxSpriteTilesPerLine := 128;
      } else {
        maxSpriteTilesPerLine := 34;
      }
      if overclockCPU {
        oneClockCycle := 4;
        oneSlowClockCycle := 5;
        twoClockCycles := 6;
      } else {
        oneClockCycle := 6;
        oneSlowClockCycle := 8;
        twoClockCycles := 12;
      }
      soundSync := skipFrames == throttleSoundSync;
      dynamicRateLimit := Clamp(dynamicRateLimit, 1, 1000);
      superFXClockMultiplier := Clamp(superFXClockMultiplier, 50, 400);
    }
  }

  /** The frontend's settings object, with the emulator settings and controller registry it writes. */
  class Snes9xConfig {
    const build: Build
    const settings: EmulatorSettings
    const controllers: ControllerRegistry

    var scaleMethod: int
    var scanlineFilterIntensity: int
    var hiresEffect: int
    var ntscScanlineIntensity: int
    var pboFormat: int
    var fullscreen: bool
    var defaultEscBehavior: int

    ghost predicate Valid()
      reads this, controllers
    {
      controllers.Valid()
    }

    /** The settings as one value. */
    function View(): (v: ConfigView)
      reads this, settings, controllers
    {
      ConfigView(scaleMethod, scanlineFilterIntensity, hiresEffect, ntscScanlineIntensity,
                 pboFormat, fullscreen, defaultEscBehavior,
                 settings.skipFrames, settings.soundSync, settings.dynamicRateLimit,
                 settings.superFXClockMultiplier, settings.maxSpriteTilesPerLine,
                 settings.Timing(), controllers.ports)
    }

    constructor (build: Build, settings: EmulatorSettings, controllers: ControllerRegistry)
      requires controllers.Valid()
      ensures Valid()
      ensures this.build == build && this.settings == settings && this.controllers == controllers
    {
      this.build := build;
      this.settings := settings;
      this.controllers := controllers;
      scaleMethod, scanlineFilterIntensity, hiresEffect, ntscScanlineIntensity := 0, 0, 0, 0;
      pboFormat, fullscreen, defaultEscBehavior := 0, false, 0;
    }

    /** `load_defaults`, for the modelled fields. */
    method LoadDefaults()
      modifies this, settings
      ensures View() == Defaults(build, old(View()))
    {
      ghost var v := View();
      fullscreen := false;
      scaleMethod := 0;
      hiresEffect := HiresNormal;
      defaultEscBehavior := DefaultEscBehavior;
      ntscScanlineIntensity := 1;
      scanlineFilterIntensity := 0;
      if build.useOpenGL {
        pboFormat := 0;
      }
      settings.LoadDefaults(build.allowCpuOverclock);
      assert controllers.ports == v.ports;
      assert View() == ConfigView(scaleMethod, scanlineFilterIntensity, hiresEffect, ntscScanlineIntensity,
                                  pboFormat, fullscreen, defaultEscBehavior,
                                  settings.skipFrames, settings.soundSync, settings.dynamicRateLimit,
                                  settings.superFXClockMultiplier, settings.maxSpriteTilesPerLine,
                                  settings.Timing(), controllers.ports);
    }

    /** `save_config_file`: the file it writes, as far as the modelled keys go. */
    method SaveConfigFile() returns (cf: ConfigFile)
      requires Valid()
      ensures cf == Saved(build, View())
    {
      cf := map[];
      cf := cf[ScaleMethodKey := IntText(scaleMethod)];
      cf := cf[ScanlineFilterKey := IntText(scanlineFilterIntensity)];
      cf := cf[HiresEffectKey := IntText(hiresEffect)];
      cf := cf[NtscScanlineKey := IntText(ntscScanlineIntensity)];
      if build.useOpenGL {
        cf := cf[PboFormatKey := IntText(pboFormat)];
      }
      cf := cf[DynamicRateLimitKey := IntText(settings.dynamicRateLimit)];
      if defaultEscBehavior != build.escToggleMenubar {
        cf := cf[FullscreenKey := BoolText(false)];
      } else {
        cf := cf[FullscreenKey := BoolText(fullscreen)];
      }
      cf := cf[EscBehaviorKey := IntText(defaultEscBehavior)];
      cf := cf[SpeedControlKey := IntText(settings.skipFrames)];
      cf := cf[SuperFXKey := IntText(settings.superFXClockMultiplier)];
      cf := cf[RemoveSpriteLimitKey := BoolText(RemoveSpriteLimitFlag(settings.maxSpriteTilesPerLine))];
      cf := cf[OverclockKey := BoolText(OverclockFlag(settings.Timing()))];
      ghost var head := cf;
      assert head == SavedSettings(build, View());
      for i := 0 to NumPorts
        invariant cf == WithPorts(head, controllers.ports, i)
      {
        var port := controllers.GetController(i);
        cf := cf[PortKey(i) := PortText(port.kind)];
      }
    }

    /** The validation block at the end of `load_config_file`. */
    method ValidateLoaded(removeSpriteLimit: bool, overclockCPU: bool)
      modifies this, settings
      ensures View() == Validated(build, old(View()), removeSpriteLimit, overclockCPU)
    {
      settings.Validate(removeSpriteLimit, overclockCPU, build.throttleSoundSync);
      if defaultEscBehavior != build.escToggleMenubar {
        fullscreen := false;
      }
      scaleMethod := ScaleMethodChecked(build, scaleMethod);
      if build.useOpenGL {
        pboFormat := PboFormatChecked(pboFormat);
      }
      hiresEffect := Clamp(hiresEffect, 0, 2);
      ntscScanlineIntensity := ScanlineFloorAsWritten(ntscScanlineIntensity, 4);
      scanlineFilterIntensity := ScanlineFloorAsWritten(scanlineFilterIntensity, 3);
      assert View() == ConfigView(scaleMethod, scanlineFilterIntensity, hiresEffect, ntscScanlineIntensity,
                                  pboFormat, fullscreen, defaultEscBehavior,
                                  settings.skipFrames, settings.soundSync, settings.dynamicRateLimit,
                                  settings.superFXClockMultiplier, settings.maxSpriteTilesPerLine,
                                  settings.Timing(), controllers.ports);
    }

    /** The scalar keys `load_config_file` reads, each over the field it sets. */
    method ReadSettings(cf: ConfigFile)
      requires Valid()
      modifies this, settings
      ensures Valid()
      ensures View() == ReadValues(build, cf, old(View()))
    {
      scaleMethod := GetInt(cf, ScaleMethodKey);
      scanlineFilterIntensity := GetInt(cf, ScanlineFilterKey);
      hiresEffect := GetInt(cf, HiresEffectKey);
      ntscScanlineIntensity := GetInt(cf, NtscScanlineKey);
      if build.useOpenGL {
        pboFormat := GetInt(cf, PboFormatKey);
      }
      fullscreen := GetBool(cf, FullscreenKey);
      defaultEscBehavior := GetInt(cf, EscBehaviorKey);
      settings.ReadFrom(cf);
      assert View() == ConfigView(scaleMethod, scanlineFilterIntensity, hiresEffect, ntscScanlineIntensity,
                                  pboFormat, fullscreen, defaultEscBehavior,
                                  settings.skipFrames, settings.soundSync, settings.dynamicRateLimit,
                                  settings.superFXClockMultiplier, settings.maxSpriteTilesPerLine,
                                  settings.Timing(), controllers.ports);
    }

    /**
      The controller-port loop of `load_config_file`: a port whose stored name
      mentions a known device gets that device; any other port keeps its device.
     */
    method ReadControllerPorts(cf: ConfigFile)
      requires Valid()
      modifies controllers
      ensures Valid()
      ensures controllers.ports == ReadPorts(cf, old(controllers.ports), NumPorts)
    {
      for i := 0 to NumPorts
        invariant controllers.Valid()
        invariant controllers.ports == ReadPorts(cf, old(controllers.ports), i)
      {
        var text := GetString(cf, PortKey(i), "");
        if Contains(text, "joypad") {
          controllers.SetController(i, Port(CtlJoypad, i, 0, 0, 0));
        } else if Contains(text, "multitap") {
          controllers.SetController(i, Port(CtlMP5, i, i + 1, i + 2, i + 3));
        } else if Contains(text, "superscope") {
          controllers.SetController(i, Port(CtlSuperScope, 0, 0, 0, 0));
        } else if Contains(text, "mouse") {
          controllers.SetController(i, Port(CtlMouse, i, 0, 0, 0));
        }
      }
    }

    /**
      `load_config_file`. What the file system reports is given: whether the
      configuration directory exists or could be created, the settings file
      if one is stored, and whether reading it succeeds. A missing file is
      first written from the defaults (`written`).
     */
    method LoadConfigFile(dirPresent: bool, mkdirOk: bool, stored: Option<ConfigFile>, readOk: bool)
      returns (status: int, written: Option<ConfigFile>)
      requires Valid()
      modifies this, settings, controllers
      ensures Valid()
      ensures status == 0 || status == -1
      ensures status == 0 <==> (dirPresent || mkdirOk) && readOk
      ensures written == if (dirPresent || mkdirOk) && stored.None?
                         then Some(Saved(build, Defaults(build, old(View())))) else None
      ensures status == -1 ==> View() == Defaults(build, old(View()))
      ensures status == 0 ==>
        View() == LoadedView(build, if stored.Some? then stored.value else written.value, old(View()))
    {
      LoadDefaults();
      written := None;
      if !dirPresent && !mkdirOk {
        // the directory is missing and cannot be created
        return -1, None;
      }
      var cf: ConfigFile;
      if stored.None? {
        cf := SaveConfigFile();
        written := Some(cf);
      } else {
        cf := stored.value;
      }
      if !readOk {
        return -1, written;
      }
      ghost var defaults := View();
      ReadSettings(cf);
      var removeSpriteLimit := GetBool(cf, RemoveSpriteLimitKey);
      var overclockCPU := GetBool(cf, OverclockKey);
      ReadControllerPorts(cf);
      assert View() == ReadFile(build, cf, defaults);
      ValidateLoaded(removeSpriteLimit, overclockCPU);
      status := 0;
    }
  }
}
