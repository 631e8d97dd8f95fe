# snes9x GTK frontend settings: a Dafny model

This project models the settings core of the snes9x GTK frontend
(`gtk/src/gtk_config.cpp`):

- where the settings file lives (`get_config_dir`, `get_config_file_name`);
- the defaults (`load_defaults`);
- what `save_config_file` writes for the settings the emulator validates,
  including the two derived flags (`RemoveSpriteLimit`, `OverclockCPU`) and
  the controller-port names;
- what `load_config_file` reads back, and the validation block that ends every
  successful load;
- the order of the calls `rebind_keys` makes into the control registry,
  including the `(joypad_i % 5) + 1` pad naming.

Modules:

- `ConfigFile` stands in for the key/value store. A file is a map from
  `Section::Name` keys to text, and integers and booleans have a text form.
- `ConfigPaths` holds the directory choice.
- `Controllers` holds the port-name codec and the controller registry class.
- `GtkConfig` holds the settings record `ConfigView`, the specification
  functions (`Defaults`, `Saved`, `ReadFile`, `Validated`, `LoadedView`) and
  the save/load lemmas.
- `ConfigObjects` holds the classes `Snes9xConfig` and `EmulatorSettings`. Their
  methods update fields in place and are proved against the `GtkConfig`
  functions.
- `KeyBindings` holds `rebind_keys`.

Compile-time switches and header constants are fields of `GtkConfig.Build`.
These are `USE_OPENGL`, `USE_HQ2X`, `USE_XBRZ`, `ALLOW_CPU_OVERCLOCK`,
`NUM_FILTERS`, `ESC_TOGGLE_MENUBAR` and `THROTTLE_SOUND_SYNC`. Every property
therefore holds for every build configuration.

What the file system and the environment report is passed in as parameters:

- `HOME` and `XDG_CONFIG_HOME`;
- the `directory_exists` probe;
- whether the directory exists or `mkdir` succeeds;
- the stored file, if any;
- whether `LoadFile` succeeds.

A key that is missing or unreadable reads as the store's fallback: `-1` for
`GetInt`, `false` for `GetBool` and `""` for `GetString`. The loader overwrites
each field with what it reads, so such a key does not keep the default set by
`load_defaults`. The code does this, and the model follows the code
(`GtkConfig.MissingKeysLoadFallbacks`). The fallbacks themselves are default
arguments of the store's getters, which are not part of this model; the model
takes them as stated here.

## Model

| member | source | states |
|---|---|---|
| ConfigPaths.ConfigDir | gtk/src/gtk_config.cpp:33-60 | with neither HOME nor XDG_CONFIG_HOME set the directory is `.snes9x`; whenever the empty candidate does not exist, the chosen directory ends in `snes9x` |
| ConfigPaths.LegacyChosenExactly | gtk/src/gtk_config.cpp:44-59 | assuming the empty candidate does not exist (`opendir("")` fails, which the XDG branch relies on), the legacy `$HOME/.snes9x` is chosen if and only if XDG_CONFIG_HOME is unset, the legacy directory exists and `$HOME/.config/snes9x` does not; otherwise the result is `$XDG_CONFIG_HOME/snes9x` or `$HOME/.config/snes9x` |
| ConfigPaths.XdgDirIsNotLegacy | gtk/src/gtk_config.cpp:47-53 | no `$XDG_CONFIG_HOME/snes9x` path equals a `$HOME/.snes9x` path |
| ConfigPaths.ConfigFileName | gtk/src/gtk_config.cpp:62-65 | the file name ends in `/snes9x.conf`, and what precedes that is exactly the chosen directory |
| ConfigFile.NatText | gtk/src/gtk_config.cpp:249 | integer text is a non-empty run of decimal digits, one digit exactly for values below 10 |
| ConfigFile.DigitsValueOfNatText | gtk/src/gtk_config.cpp:467 | the digits written for `n` have the value `n` |
| ConfigFile.ParseInt | gtk/src/gtk_config.cpp:467 | only non-empty text is readable; a run of digits reads as its decimal value |
| ConfigFile.ParseIntText | gtk/src/gtk_config.cpp:467 | the text written for any integer, negative ones included, reads back as that integer |
| ConfigFile.ParseNegativeText | gtk/src/gtk_config.cpp:467 | a minus sign followed by the digits of `n > 0` reads back as `-n` |
| ConfigFile.IntReadsBack | gtk/src/gtk_config.cpp:466-467 | a key holding the text written for `i` reads back through `GetInt` as `i` |
| ConfigFile.ParseBool | gtk/src/gtk_config.cpp:230-233 | exactly the two words written for booleans are readable, and each reads as the value it was written for |
| ConfigFile.GetInt | gtk/src/gtk_config.cpp:467 | a missing key reads as the fallback `-1` |
| ConfigFile.GetBool | gtk/src/gtk_config.cpp:466 | a missing key reads as `false`; `true` is read only from a key holding the word written for true |
| ConfigFile.GetString | gtk/src/gtk_config.cpp:598 | a present key yields its text; a missing key yields the given default |
| Controllers.Contains | gtk/src/gtk_config.cpp:600 | the search succeeds if and only if the pattern occurs at some offset of the text |
| Controllers.AssignedPort | gtk/src/gtk_config.cpp:601-607 | the port the loader assigns for a recognised device has that device type |
| Controllers.ParsePort | gtk/src/gtk_config.cpp:598-607 | a port is assigned if and only if the text mentions joypad, multitap, superscope or mouse, and it carries the loader's ids for its type; the first name in the order joypad, multitap, superscope, mouse that occurs decides: each type is chosen exactly when its name occurs and none of the earlier names does |
| Controllers.LoadPort | gtk/src/gtk_config.cpp:598-607 | a text that mentions no known device leaves the port as it was; otherwise the port becomes exactly the port `ParsePort` gives, that is, the first of joypad, multitap, superscope and mouse found in the text, with the loader's ids |
| Controllers.PortText | gtk/src/gtk_config.cpp:372-392 | no contract of its own, it only computes the name written for each controller type; `PortTextRoundTrip` proves what each name loads back as and `PortTextDistinct` that the six names differ |
| Controllers.PortTextRoundTrip | gtk/src/gtk_config.cpp:372-392 | the names saved for joypad, multitap, superscope and mouse read back as that device with the loader's ids; the names saved for justifier and none read back as nothing |
| Controllers.JoypadReadBack | gtk/src/gtk_config.cpp:375-377 | `joypad` reads back as a joypad on port `i` |
| Controllers.MultitapReadBack | gtk/src/gtk_config.cpp:384-386 | `multitap` reads back as a multitap with ids `i..i+3` |
| Controllers.SuperScopeReadBack | gtk/src/gtk_config.cpp:381-383 | `superscope` reads back as a superscope |
| Controllers.MouseReadBack | gtk/src/gtk_config.cpp:378-380 | `mouse` reads back as a mouse on port `i` |
| Controllers.JustifierNotRead | gtk/src/gtk_config.cpp:387-389 | `justifier` matches no device name, so the loader leaves the port as it was |
| Controllers.NoneNotRead | gtk/src/gtk_config.cpp:390-391 | `none` matches no device name, so the loader leaves the port as it was |
| Controllers.PortTextDistinct | gtk/src/gtk_config.cpp:372-392 | save writes a different name for each of the six controller types |
| Controllers.ControllerRegistry.constructor | gtk/src/gtk_config.cpp:371 | the registry starts with the given two ports |
| Controllers.ControllerRegistry.GetController | gtk/src/gtk_config.cpp:371 | reading a port yields what the port holds |
| Controllers.ControllerRegistry.SetController | gtk/src/gtk_config.cpp:601-607 | assigning a port replaces that port and no other |
| GtkConfig.MaxSpriteTilesFor | gtk/src/gtk_config.cpp:636-639 | the loaded flag expands to the sprite limit 34 or 128, and save derives the same flag back from it |
| GtkConfig.RemoveSpriteLimitFlag | gtk/src/gtk_config.cpp:359 | for a sprite limit that is one of the two fixed values, the flag save writes selects that value again |
| GtkConfig.ClocksFor | gtk/src/gtk_config.cpp:641-652 | the loaded flag expands to the standard (6, 8, 12) or the overclocked (4, 5, 6) timing, and save derives the same flag back from it |
| GtkConfig.OverclockFlag | gtk/src/gtk_config.cpp:360 | for a timing that is one of the two fixed sets, the flag save writes selects that set again |
| GtkConfig.SavedFullscreen | gtk/src/gtk_config.cpp:320-323 | save writes fullscreen as true if and only if ESC toggles the menu bar and fullscreen is on |
| GtkConfig.Clamp | gtk/src/gtk_config.cpp:683-685 | the result lies within the bounds; a value already inside is kept, and one outside goes to the nearer bound |
| GtkConfig.ScaleMethodChecked | gtk/src/gtk_config.cpp:657-671 | the filter is kept or becomes 0; a kept non-zero filter is below both filter bounds, and a filter below both bounds is kept |
| GtkConfig.PboFormatChecked | gtk/src/gtk_config.cpp:673-676 | the pixel-buffer depth is 16 or 32, and it is 32 if and only if it was 32 |
| GtkConfig.ScanlineFloorAsWritten | gtk/src/gtk_config.cpp:686-687 | GLib's `MAX` as the source applies it: the result is at least the bound, a value at or above the bound is kept, and a value below it becomes exactly the bound |
| GtkConfig.Validated | gtk/src/gtk_config.cpp:634-687 | the validation block as written leaves the ports, the ESC behaviour and the speed control alone; the rest of its contract is `ValidatedProperties` |
| GtkConfig.ScanlineCapped | gtk/src/gtk_config.cpp:686-687 | the corrected intensity check (`MIN`): the result is at most the cap, a value within it is kept, and a larger one becomes the cap |
| GtkConfig.ValidatedCorrected | gtk/src/gtk_config.cpp:634-687 | the validation with the scanline check corrected: both intensities are at most 4, the top of the range documented at line 250, every value up to 4 is kept, and every other field is validated as the source does it |
| GtkConfig.ValidatedProperties | gtk/src/gtk_config.cpp:634-687 | after validation: the sprite limit and timing follow the flags; fullscreen survives only when ESC toggles the menu bar; the filter and pixel-buffer rules hold; SoundSync holds if and only if the speed control is sound sync; hires, dynamic rate and SuperFX lie in 0..2, 1..1000 and 50..400, with in-range values kept; the NTSC and filter scanline intensities are at least 4 and 3, a value at or above the floor kept and one below it raised to the floor; ESC behaviour, speed control and ports are untouched |
| GtkConfig.Defaults | gtk/src/gtk_config.cpp:82-203 | the defaults leave the ports alone, switch fullscreen and SoundSync off, and, with CPU overclocking compiled in, give the sprite limit 34 and the standard timing (6, 8, 12), so both flags are false |
| GtkConfig.ReadPorts | gtk/src/gtk_config.cpp:594-608 | after the loop has read `n` ports, each port `i < n` is what the text under its own key loads into it, and the ports from `n` on are untouched |
| GtkConfig.ReadValues | gtk/src/gtk_config.cpp:473-584 | reading the scalar keys leaves the ports, SoundSync, the sprite limit, the timing and (outside OpenGL builds) the pixel-buffer depth as they were |
| GtkConfig.ReadFile | gtk/src/gtk_config.cpp:473-608 | each port is what the text under its key loads into it; SoundSync, the sprite limit, the timing and (outside OpenGL builds) the pixel-buffer depth keep their values until the validation |
| GtkConfig.LoadedView | gtk/src/gtk_config.cpp:428-690 | every successful load leaves a settled record: filter, pixel-buffer, fullscreen, hires, dynamic rate, SuperFX, sprite-limit and timing rules hold, and the NTSC and filter scanline intensities are at least 4 and 3 |
| GtkConfig.SavedDisplayText | gtk/src/gtk_config.cpp:249-272 | save stores the decimal text of the scale filter, scanline intensity, hires effect and NTSC scanline intensity under their keys |
| GtkConfig.SavedBufferText | gtk/src/gtk_config.cpp:280-294 | save stores the pixel-buffer depth (OpenGL builds only) and the dynamic rate limit under their keys |
| GtkConfig.SavedBehaviorText | gtk/src/gtk_config.cpp:320-360 | save stores fullscreen, ESC behaviour, speed control, SuperFX multiplier and the two derived flags under their keys |
| GtkConfig.SavedSettings | gtk/src/gtk_config.cpp:235-360 | no contract of its own, it only computes the modelled settings' entries; `SavedKeys` proves its key set and `SavedText`, `SavedDisplayText`, `SavedBufferText` and `SavedBehaviorText` the text under each key |
| GtkConfig.WithPorts | gtk/src/gtk_config.cpp:367-395 | after the port loop has written `n` ports, the keys are those already present plus the `n` port keys |
| GtkConfig.Saved | gtk/src/gtk_config.cpp:235-426 | no contract of its own, it only computes the modelled part of the file save writes; `SavedKeys` proves its key set, `SavedText` the settings' text and `SavedPortText` the port names |
| GtkConfig.SavedPortText | gtk/src/gtk_config.cpp:362-394 | the two port names are written after every modelled setting, under two distinct keys of their own (the source writes further unmodelled entries after them) |
| GtkConfig.SavedKeys | gtk/src/gtk_config.cpp:235-426 | save writes exactly the twelve setting keys (the pixel-buffer depth only in an OpenGL build) and the two port keys, and no other modelled key (the source writes many unmodelled keys besides) |
| GtkConfig.SavedText | gtk/src/gtk_config.cpp:235-426 | the saved file holds, under every modelled key, the text for that setting; no port entry overwrites a setting |
| GtkConfig.TextReadsBack | gtk/src/gtk_config.cpp:466-467 | a file holding the saved text for every key reads back key by key as the record |
| GtkConfig.SavedReadBack | gtk/src/gtk_config.cpp:466-608 | every value save writes is the value load reads back under the same key |
| GtkConfig.ReadFileOfSaved | gtk/src/gtk_config.cpp:473-608 | reading such a file sets each read field to the saved value, and each port to what its saved name reads back as |
| GtkConfig.SaveLoadRoundTrip | gtk/src/gtk_config.cpp:428-690 | loading the saved file gives the record with fullscreen as saved, validated with the flags derived from its own sprite limit and timing |
| GtkConfig.SaveLoadSpriteLimit | gtk/src/gtk_config.cpp:636-639 | after save and load the sprite limit is 34 if it was 34 and 128 otherwise, so the RemoveSpriteLimit flag written at line 359 survives |
| GtkConfig.SaveLoadTiming | gtk/src/gtk_config.cpp:641-652 | after save and load the timing is the standard set if the one-cycle time was 6 and the overclocked set otherwise, so the OverclockCPU flag written at line 360 survives |
| GtkConfig.SaveLoadBehavior | gtk/src/gtk_config.cpp:654-681 | after save and load ESC behaviour and speed control are unchanged, fullscreen holds if and only if it held and ESC toggles the menu bar, and SoundSync holds if and only if the speed control is sound sync |
| GtkConfig.SaveLoadBounded | gtk/src/gtk_config.cpp:673-687 | after save and load every clamped setting that was in range is unchanged, a 32-bit pixel buffer stays 32, and each scanline intensity is kept at or above its floor (4 for NTSC, 3 for the filter) and raised to the floor below it |
| GtkConfig.SaveLoadPorts | gtk/src/gtk_config.cpp:362-608 | after the round trip, a port with a recognised device holds that device with the loader's ids; a justifier or empty port keeps what it held before the load |
| GtkConfig.FirstRunLoadMovesIntensities | gtk/src/gtk_config.cpp:686-687 | a first-run file saved from the defaults holds the intensities 0 and 1 and loads them as 3 and 4 |
| GtkConfig.MissingKeysLoadFallbacks | gtk/src/gtk_config.cpp:466-590 | a file missing the hires, dynamic rate, SuperFX, scanline, speed control, fullscreen and flag keys loads hires 0, dynamic rate 1, SuperFX 50, intensities 3 and 4, speed control -1, fullscreen off, sprite limit 34 and standard timing, not the defaults |
| GtkConfig.LoadedViewCorrected | gtk/src/gtk_config.cpp:428-690 | a load with the corrected check leaves both scanline intensities at most 4 |
| GtkConfig.SaveLoadCorrectedIntensities | gtk/src/gtk_config.cpp:686-687 | with the corrected check every intensity up to 4, so every documented value, comes back unchanged after save and load |
| GtkConfig.SameSavedSavesSame | gtk/src/gtk_config.cpp:235-426 | two records that agree on every saved value and derived flag save identical files |
| GtkConfig.ReloadOfSettled | gtk/src/gtk_config.cpp:428-690 | saving a settled record and loading it back changes nothing that save writes |
| GtkConfig.SaveAfterLoadIsStable | gtk/src/gtk_config.cpp:235-690 | after any successful load, save, load and save again writes the same file as the first save |
| ConfigObjects.EmulatorSettings.LoadDefaults | gtk/src/gtk_config.cpp:167-191 | SkipFrames 0, SoundSync off, dynamic rate 5 and SuperFX 100; sprite limit 34 and timing (6, 8, 12) only when overclocking is compiled in, otherwise both unchanged |
| ConfigObjects.EmulatorSettings.ReadFrom | gtk/src/gtk_config.cpp:524-584 | dynamic rate, speed control and SuperFX are what the file gives for their keys; every other field is unchanged |
| ConfigObjects.EmulatorSettings.Validate | gtk/src/gtk_config.cpp:636-685 | the sprite limit and timing follow the flags; SoundSync holds if and only if the speed control is sound sync; dynamic rate and SuperFX are clamped |
| ConfigObjects.Snes9xConfig.constructor | gtk/src/gtk_config.cpp:71-80 | the object is tied to the build, the global settings and the controller registry |
| ConfigObjects.Snes9xConfig.LoadDefaults | gtk/src/gtk_config.cpp:82-203 | the new state is `Defaults` of the old one |
| ConfigObjects.Snes9xConfig.SaveConfigFile | gtk/src/gtk_config.cpp:235-426 | the file written is `Saved` of the current state |
| ConfigObjects.Snes9xConfig.ReadSettings | gtk/src/gtk_config.cpp:473-584 | each scalar setting is replaced by what the file gives for its key |
| ConfigObjects.Snes9xConfig.ReadControllerPorts | gtk/src/gtk_config.cpp:594-608 | the ports become `ReadPorts` of the old ports, one port per loop iteration |
| ConfigObjects.Snes9xConfig.ValidateLoaded | gtk/src/gtk_config.cpp:634-687 | the new state is `Validated` of the old one, the scanline intensities raised with `MAX` as written |
| ConfigObjects.Snes9xConfig.LoadConfigFile | gtk/src/gtk_config.cpp:428-690 | returns 0 if and only if the directory exists or can be created and the file reads; a missing file is first written from the defaults; on -1 the state is the defaults; on 0 the state is `LoadedView` of the file read |
| KeyBindings.JoypadNumber | gtk/src/gtk_config.cpp:708 | the emulated pad number lies in 1..5, is `pad + 1` for the first five pads and repeats every five pads |
| KeyBindings.RebindPlan | gtk/src/gtk_config.cpp:692-737 | the plan starts by clearing every mapping and ends with the four fixed mouse mappings |
| KeyBindings.PadCommand | gtk/src/gtk_config.cpp:703-710 | the command text is `Joypad`, the pad number's digit, a space and the button name |
| KeyBindings.RebindKeys | gtk/src/gtk_config.cpp:692-737 | the calls made are the full plan: clear, every pad button in pad-major order, the shortcuts, the four mouse mappings |
| KeyBindings.PadCallsLength | gtk/src/gtk_config.cpp:699-715 | the pad loops make one call per pad and button |
| KeyBindings.PadCallAt | gtk/src/gtk_config.cpp:699-715 | pad `p`'s button `j` is mapped by pad call `p * links + j` |
| KeyBindings.PadButtonMapped | gtk/src/gtk_config.cpp:699-715 | call `1 + p * links + j` maps pad `p`'s button `j`, unpolled, to the command of emulated pad `p % 5 + 1` |
| KeyBindings.PadsFiveApartShareCommands | gtk/src/gtk_config.cpp:708 | pads five apart map their bindings to the same commands, button by button |
| KeyBindings.PadCallsNeverPoint | gtk/src/gtk_config.cpp:713 | every pad call maps a button |
| KeyBindings.RebindPlanShape | gtk/src/gtk_config.cpp:697-736 | the plan has one call per pad button, one per shortcut in table order and four mouse calls after the clearing call; only the last four map the mouse, and no earlier call maps a pointer |

## Left out

- gtk/src/gtk_display_driver_vulkan.cpp, entirely.
- Every field of gtk_config.cpp that is only passed between the file and the object without a check. Their save and load are the same text codec the model proves for the modelled fields.
- The NTSC floating-point parameters (`infloat`), the string settings (`instr`) and the sound, netplay and joystick settings.
- File-system effects: `stat`, `mkdir`, `chmod`, `LoadFile`, `SaveTo` and the error message. Their outcomes are method parameters, and the file `save_config_file` writes is returned rather than stored. `ConfigFile` itself is not part of this model.
- ConfigFile.GetBool: the store's own parser may accept more spellings than the two words save writes; the model reads exactly those two.
- ConfigFile.ParseInt: the store's own parser is not modelled; the model reads strict decimal text with an optional minus sign.
- GtkConfig.MissingKeysLoadFallbacks: rests on two assumptions about code that is not part of this model. First, the store's getters fall back to `-1` and `false` for a missing key (their default arguments). Second, `Settings.SuperFXClockMultiplier` and `Settings.SkipFrames` hold `-1` as a signed value. If either field is unsigned 32-bit, a missing key reads as 4294967295: the SuperFX multiplier then clamps to 400, not 50, and speed control holds 4294967295, not -1.
- Controllers.PortText: the six controller types are the ones the save `switch` names; any other type of the emulator's enum falls into its `default:` and is saved as `none`, which the model covers as `CtlNone`.
- The 32-bit width of the source's integers. Integers are unbounded, so the model has no overflow on read or save.
- The conversion between `Binding` and its stored text, and the loops that load the pad and shortcut bindings from the file (lines 610-632), because they live in the `Binding` class.
- KeyBindings.RebindKeys: the registry calls (`S9xGetPortCommandT`, `S9xMapButton`, `S9xMapPointer`) are returned as a list of requests. The command text is given without the registry's lookup, and the 256-byte truncation by `snprintf` is not modelled.
- The order of independent field writes. `load_defaults` and the loader interleave writes to `Settings` and the frontend object; the model groups the `Settings` writes into `EmulatorSettings` methods. This is equivalent because no write reads a field written out of order.
- ConfigObjects.Snes9xConfig.LoadConfigFile: the configuration directory's name is not passed through; its choice is modelled separately by `ConfigPaths`.

## Findings

The model follows the source as written: `Validated`, `ValidateLoaded`,
`LoadedView` and `LoadConfigFile` apply `MAX`. The correction is kept beside
them as `ValidatedCorrected` and `LoadedViewCorrected`. The corrected cap is 4
for both intensities: 4 is the NTSC constant of line 686, and line 250
documents the filter intensity up to 4 (100%), so a cap of 3 would still move
a documented value.

| source | as written | input that shows it | evidently intended | confidence | as-written member | corrected member |
|---|---|---|---|---|---|---|
| gtk/src/gtk_config.cpp:686-687 | `MAX` with 4 and 3 raises both scanline intensities to at least 4 and 3, so the documented values 0..2 of the filter intensity (line 250) cannot be kept | a first-run file holds `ScanlineFilterIntensity=0` (0%) and the NTSC intensity 1; they load as 3 (50%) and 4 | an upper bound (`MIN`) at the top of the documented range, 4, like the `CLAMP`s just above it | medium, not executed | GtkConfig.FirstRunLoadMovesIntensities | GtkConfig.ValidatedCorrected |
