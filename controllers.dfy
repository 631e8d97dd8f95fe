/**
  The two controller ports as the settings file sees them: the name written
  for each port on save, the substring search that reads it back on load, and
  the emulator's controller registry (`S9xGetController` / `S9xSetController`)
  as a plain store of what was last assigned to each port.
 */
module Controllers {
  import opened Option

  const NumPorts: nat := 2

  datatype Controller = CtlNone | CtlJoypad | CtlMouse | CtlSuperScope | CtlJustifier | CtlMP5

  /** A port's controller type and its four device ids. */
  datatype Port = Port(kind: Controller, id0: int, id1: int, id2: int, id3: int)

  /** The name `save_config_file` writes for a port's controller type. */
  function PortText(c: Controller): string {
    match c
    case CtlJoypad => "joypad"
    case CtlMouse => "mouse"
    case CtlSuperScope => "superscope"
    case CtlMP5 => "multitap"
    case CtlJustifier => "justifier"
    case CtlNone => "none"
  }

  /** Save writes a different name for each controller type. */
  lemma PortTextDistinct(c: Controller, d: Controller)
    ensures PortText(c) == PortText(d) <==> c == d
  {
  }

  /** `s.find(t) != npos`: `t` occurs somewhere in `s`. */
  function Contains(s: string, t: string): (r: bool)
    ensures r <==> exists k :: 0 <= k <= |s| - |t| && s[k..][..|t|] == t
    decreases |s|
  {
    if |s| < |t| then false
    else if s[..|t|] == t then
      assert s[0..][..|t|] == t;
      true
    else
      var r := Contains(s[1..], t);
      assert forall k :: 1 <= k <= |s| - |t| ==> s[k..] == s[1..][k - 1..];
      r
  }

  /** Every character of a pattern that occurs in `s` is itself in `s`. */
  lemma PatternCharsOccur(s: string, t: string, j: nat)
    requires Contains(s, t) && j < |t|
    ensures t[j] in s
  {
    var k :| 0 <= k <= |s| - |t| && s[k..][..|t|] == t;
    assert s[k + j] == t[j];
  }

  /** The controller types the loader can recognise. */
  predicate Loadable(c: Controller) {
    c == CtlJoypad || c == CtlMP5 || c == CtlSuperScope || c == CtlMouse
  }

  /** The port `load_config_file` assigns to port `i` for a recognised type. */
  function AssignedPort(c: Controller, i: int): (p: Port)
    requires Loadable(c)
    ensures p.kind == c
  {
    match c
    case CtlJoypad => Port(CtlJoypad, i, 0, 0, 0)
    case CtlMP5 => Port(CtlMP5, i, i + 1, i + 2, i + 3)
    case CtlSuperScope => Port(CtlSuperScope, 0, 0, 0, 0)
    case CtlMouse => Port(CtlMouse, i, 0, 0, 0)
  }

  /**
    How the loader reads port `i`'s text: the first of "joypad", "multitap",
    "superscope", "mouse" found anywhere in it decides; no match leaves the
    port as it was (None).
   */
  function ParsePort(text: string, i: int): (r: Option<Port>)
    ensures r.Some? <==> Contains(text, "joypad") || Contains(text, "multitap")
                         || Contains(text, "superscope") || Contains(text, "mouse")
    ensures r.Some? ==> Loadable(r.value.kind) && r.value == AssignedPort(r.value.kind, i)
    ensures Contains(text, "joypad") ==> r == Some(AssignedPort(CtlJoypad, i))
    ensures r == Some(AssignedPort(CtlMP5, i)) <==> !Contains(text, "joypad") && Contains(text, "multitap")
    ensures r == Some(AssignedPort(CtlSuperScope, i))
            <==> !Contains(text, "joypad") && !Contains(text, "multitap") && Contains(text, "superscope")
    ensures r == Some(AssignedPort(CtlMouse, i))
            <==> !Contains(text, "joypad") && !Contains(text, "multitap") && !Contains(text, "superscope")
                 && Contains(text, "mouse")
  {
    if Contains(text, "joypad") then Some(AssignedPort(CtlJoypad, i))
    else if Contains(text, "multitap") then Some(AssignedPort(CtlMP5, i))
    else if Contains(text, "superscope") then Some(AssignedPort(CtlSuperScope, i))
    else if Contains(text, "mouse") then Some(AssignedPort(CtlMouse, i))
    else None
  }

  /** The port after loading text `text` into a port that held `before`. */
  function LoadPort(before: Port, text: string, i: int): (p: Port)
    ensures ParsePort(text, i).None? ==> p == before
    ensures ParsePort(text, i).Some? ==> Loadable(p.kind) && p == AssignedPort(p.kind, i)
    ensures ParsePort(text, i).Some? ==> p == ParsePort(text, i).value
  {
    match ParsePort(text, i)
    case Some(p) => p
    case None => before
  }

  /**
    Saving a port and reading the name back: the four recognised types come
    back with the loader's ids; "justifier" and "none" are not recognised, so
    the port keeps whatever it held.
   */
  lemma {:induction false} PortTextRoundTrip(c: Controller, i: int)
    ensures Loadable(c) ==> ParsePort(PortText(c), i) == Some(AssignedPort(c, i))
    ensures !Loadable(c) ==> ParsePort(PortText(c), i) == None
  {
    match c
    case CtlJoypad => JoypadReadBack(i);
    case CtlMP5 => MultitapReadBack(i);
    case CtlSuperScope => SuperScopeReadBack(i);
    case CtlMouse => MouseReadBack(i);
    case CtlJustifier => JustifierNotRead(i);
    case CtlNone => NoneNotRead(i);
  }

  lemma JoypadReadBack(i: int)
    ensures ParsePort("joypad", i) == Some(AssignedPort(CtlJoypad, i))
  {
    assert Contains("joypad", "joypad");
  }

  lemma MultitapReadBack(i: int)
    ensures ParsePort("multitap", i) == Some(AssignedPort(CtlMP5, i))
  {
    NotContains("multitap", "joypad", 0);
    assert Contains("multitap", "multitap");
  }

  lemma SuperScopeReadBack(i: int)
    ensures ParsePort("superscope", i) == Some(AssignedPort(CtlSuperScope, i))
  {
    NotContains("superscope", "joypad", 0);
    NotContains("superscope", "multitap", 0);
    assert Contains("superscope", "superscope");
  }

  lemma MouseReadBack(i: int)
    ensures ParsePort("mouse", i) == Some(AssignedPort(CtlMouse, i))
  {
    NotContains("mouse", "joypad", 0);
    NotContains("mouse", "multitap", 6);
    NotContains("mouse", "superscope", 2);
    assert Contains("mouse", "mouse");
  }

  lemma JustifierNotRead(i: int)
    ensures ParsePort("justifier", i) == None
  {
    NotContains("justifier", "joypad", 1);
    NotContains("justifier", "multitap", 0);
    NotContains("justifier", "superscope", 2);
    NotContains("justifier", "mouse", 0);
    assert ParsePort("justifier", i) == None;
  }

  lemma NoneNotRead(i: int)
    ensures ParsePort("none", i) == None
  {
    NotContains("none", "joypad", 0);
    NotContains("none", "multitap", 0);
    NotContains("none", "superscope", 0);
    NotContains("none", "mouse", 0);
  }

  /** A pattern with a character missing from `s` does not occur in `s`. */
  lemma NotContains(s: string, t: string, j: nat)
    requires j < |t| && t[j] !in s
    ensures !Contains(s, t)
  {
    if Contains(s, t) {
      PatternCharsOccur(s, t, j);
    }
  }

  /** The registry of what each port is plugged with. */
  class ControllerRegistry {
    var ports: seq<Port>

    ghost predicate Valid()
      reads this
    {
      |ports| == NumPorts
    }

    constructor (initial: seq<Port>)
      requires |initial| == NumPorts
      ensures Valid() && ports == initial
    {
      ports := initial;
    }

    method GetController(i: nat) returns (p: Port)
      requires Valid() && i < NumPorts
      ensures p == ports[i]
    {
      p := ports[i];
    }

    method SetController(i: nat, p: Port)
      requires Valid() && i < NumPorts
      modifies this
      ensures Valid() && ports == old(ports)[i := p]
    {
      ports := ports[i := p];
    }
  }
}
