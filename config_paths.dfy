/**
  Where the frontend keeps its configuration (`get_config_dir` and
  `get_config_file_name`). The two environment variables are optional strings
  and the "does this directory exist" probe is a function parameter, so the
  decision is a pure function of what the process observes.
 */
module ConfigPaths {
  import opened Option

  /** Relative name used when neither HOME nor XDG_CONFIG_HOME is set. */
  const RelativeDir: string := ".snes9x"
  const ConfigFileSuffix: string := "/snes9x.conf"

  function LegacyDir(home: string): string {
    home + "/.snes9x"
  }

  function HomeConfigDir(home: string): string {
    home + "/.config/snes9x"
  }

  function XdgDir(xdg: string): string {
    xdg + "/snes9x"
  }

  predicate EndsWith(s: string, suffix: string) {
    |suffix| <= |s| && s[|s| - |suffix|..] == suffix
  }

  /**
    The directory `get_config_dir` picks. When XDG_CONFIG_HOME is set the source
    leaves its `legacy` candidate empty and still probes it.
   */
  function ConfigDir(home: Option<string>, xdg: Option<string>, dirExists: string -> bool): (r: string)
    ensures home.None? && xdg.None? ==> r == RelativeDir
    ensures !dirExists("") ==> EndsWith(r, "snes9x")
  {
    if home.None? && xdg.None? then RelativeDir
    else
      var config := if xdg.None? then HomeConfigDir(home.value) else XdgDir(xdg.value);
      var legacy := if xdg.None? then LegacyDir(home.value) else "";
      if dirExists(legacy) && !dirExists(config) then legacy else config
  }

  /** The settings file always sits directly inside the chosen directory. */
  function ConfigFileName(home: Option<string>, xdg: Option<string>, dirExists: string -> bool): (r: string)
    ensures EndsWith(r, ConfigFileSuffix)
    ensures r[..|r| - |ConfigFileSuffix|] == ConfigDir(home, xdg, dirExists)
  {
    ConfigDir(home, xdg, dirExists) + ConfigFileSuffix
  }

  /** No XDG-style directory name can be mistaken for a legacy one. */
  lemma XdgDirIsNotLegacy(xdg: string, home: string)
    ensures XdgDir(xdg) != LegacyDir(home)
  {
    var r, l := XdgDir(xdg), LegacyDir(home);
    if |r| == |l| {
      // the character before "snes9x" is '/' in one and '.' in the other
      assert r[|r| - 7] == '/';
      assert l[|l| - 7] == '.';
    }
  }

  /**
    The legacy `$HOME/.snes9x` is chosen exactly when XDG_CONFIG_HOME is unset,
    the legacy directory exists and `$HOME/.config/snes9x` does not; in every
    other case with some variable set the result is the XDG-style directory.
    `opendir("")` fails, so the empty candidate never exists.
   */
  lemma {:induction false} LegacyChosenExactly(home: Option<string>, xdg: Option<string>, dirExists: string -> bool)
    requires home.Some? || xdg.Some?
    requires !dirExists("")
    ensures var r := ConfigDir(home, xdg, dirExists);
      (home.Some? && r == LegacyDir(home.value))
        <==> (xdg.None? && dirExists(LegacyDir(home.value)) && !dirExists(HomeConfigDir(home.value)))
    ensures var r := ConfigDir(home, xdg, dirExists);
      !(home.Some? && r == LegacyDir(home.value)) ==>
        r == (if xdg.Some? then XdgDir(xdg.value) else HomeConfigDir(home.value))
  {
    if xdg.Some? {
      assert ConfigDir(home, xdg, dirExists) == XdgDir(xdg.value);
      if home.Some? {
        XdgDirIsNotLegacy(xdg.value, home.value);
      }
    } else {
      assert |HomeConfigDir(home.value)| != |LegacyDir(home.value)|;
    }
  }
}
