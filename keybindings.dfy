/**
  `rebind_keys`: the order in which the frontend hands its bindings to the
  emulator's control registry. The registry and the command lookup are not
  part of this model, so the method returns the calls it makes, in order,
  each with the command text it looks up.
 */
module KeyBindings {
  import opened ConfigFile

  /** What a mapping is attached to. */
  datatype Binding =
    | PadButton(pad: nat, button: nat)   // `pad[pad]`'s binding for button `button`
    | Shortcut(index: nat)               // `shortcut[index]`
    | MousePointer
    | MouseButton(n: nat)

  /** One call into the control registry. */
  datatype MapCall =
    | UnmapAll
    | MapButton(binding: Binding, command: string, poll: bool)
    | MapPointer(binding: Binding, command: string, poll: bool)

  /** Emulated pad names stop at "Joypad5": pad `p` reuses the name of pad `p % 5`. */
  function JoypadNumber(pad: nat): (n: nat)
    ensures 1 <= n <= 5
    ensures pad < 5 ==> n == pad + 1
    ensures pad >= 5 ==> n == JoypadNumber(pad - 5)
  {
    pad % 5 + 1
  }

  /** The command text for pad `pad`'s button called `name`. */
  function PadCommand(pad: nat, name: string): (s: string)
    ensures s == "Joypad" + [DigitChar(JoypadNumber(pad))] + " " + name
  {
    "Joypad" + NatText(JoypadNumber(pad)) + " " + name
  }

  /** The calls for one pad, button by button. */
  function PadRow(pad: nat, names: seq<string>): (row: seq<MapCall>)
    ensures |row| == |names|
  {
    seq(|names|, j requires 0 <= j < |names| => MapButton(PadButton(pad, j), PadCommand(pad, names[j]), false))
  }

  /** The calls for the first `n` pads. */
  function PadCalls(n: nat, names: seq<string>): seq<MapCall> {
    if n == 0 then [] else PadCalls(n - 1, names) + PadRow(n - 1, names)
  }

  /** The calls for the shortcut names, which follow the pad button names in the link table. */
  function ShortcutCalls(links: seq<string>, first: nat): (calls: seq<MapCall>)
    requires first <= |links|
    ensures |calls| == |links| - first
  {
    seq(|links| - first, k requires 0 <= k < |links| - first => MapButton(Shortcut(k), links[first + k], false))
  }

  /** The four fixed mouse mappings; only the pointer is polled. */
  const PointerCalls: seq<MapCall> := [
    MapPointer(MousePointer, "Pointer Mouse1+Superscope+Justifier1", true),
    MapButton(MouseButton(0), "{Mouse1 L,Superscope Fire,Justifier1 Trigger}", false),
    MapButton(MouseButton(1), "{Justifier1 AimOffscreen Trigger,Superscope AimOffscreen}", false),
    MapButton(MouseButton(2), "{Mouse1 R,Superscope Cursor,Justifier1 Start}", false)
  ]

  /**
    Every call `rebind_keys` makes: clear the registry, map every pad's
    buttons, then the shortcuts, then the mouse.
   */
  function RebindPlan(numJoypads: nat, numJoypadLinks: nat, links: seq<string>): (plan: seq<MapCall>)
    requires numJoypadLinks <= |links|
    ensures |plan| >= 5 && plan[0] == UnmapAll && plan[|plan| - 4..] == PointerCalls
  {
    [UnmapAll] + PadCalls(numJoypads, links[..numJoypadLinks]) + ShortcutCalls(links, numJoypadLinks) + PointerCalls
  }

  /**
    `rebind_keys`. `links` is the link table's names up to its terminating
    entry; its first `numJoypadLinks` names are the pad buttons.
   */
  method RebindKeys(numJoypads: nat, numJoypadLinks: nat, links: seq<string>) returns (calls: seq<MapCall>)
    requires numJoypadLinks <= |links|
    ensures calls == RebindPlan(numJoypads, numJoypadLinks, links)
  {
    var buttons := links[..numJoypadLinks];
    calls := [UnmapAll];
    for joypad := 0 to numJoypads
      invariant calls == [UnmapAll] + PadCalls(joypad, buttons)
    {
      for button := 0 to numJoypadLinks
        invariant calls == [UnmapAll] + PadCalls(joypad, buttons) + PadRow(joypad, buttons)[..button]
      {
        var command := "Joypad" + NatText(joypad % 5 + 1) + " " + links[button];
        calls := calls + [MapButton(PadButton(joypad, button), command, false)];
      }
    }
    for i := numJoypadLinks to |links|
      invariant calls == [UnmapAll] + PadCalls(numJoypads, buttons)
                         + ShortcutCalls(links, numJoypadLinks)[..i - numJoypadLinks]
    {
      calls := calls + [MapButton(Shortcut(i - numJoypadLinks), links[i], false)];
    }
    calls := calls + [MapPointer(MousePointer, "Pointer Mouse1+Superscope+Justifier1", true)];
    calls := calls + [MapButton(MouseButton(0), "{Mouse1 L,Superscope Fire,Justifier1 Trigger}", false)];
    calls := calls + [MapButton(MouseButton(1), "{Justifier1 AimOffscreen Trigger,Superscope AimOffscreen}", false)];
    calls := calls + [MapButton(MouseButton(2), "{Mouse1 R,Superscope Cursor,Justifier1 Start}", false)];
  }

  lemma {:induction false} PadCallsLength(n: nat, names: seq<string>)
    ensures |PadCalls(n, names)| == n * |names|
  {
    if n > 0 {
      PadCallsLength(n - 1, names);
    }
  }

  /** Pad `p`'s button `j` is mapped by call `p * |names| + j` of the pad calls. */
  lemma {:induction false} PadCallAt(n: nat, names: seq<string>, p: nat, j: nat)
    requires p < n && j < |names|
    ensures p * |names| + j < |PadCalls(n, names)|
    ensures PadCalls(n, names)[p * |names| + j] == MapButton(PadButton(p, j), PadCommand(p, names[j]), false)
  {
    PadCallsLength(n, names);
    PadCallsLength(n - 1, names);
    if p < n - 1 {
      PadCallAt(n - 1, names, p, j);
      assert p * |names| + j < (n - 1) * |names| by {
        assert (p + 1) * |names| <= (n - 1) * |names|;
      }
    }
  }

  /**
    Pad `p`'s button `j` is mapped by call `1 + p * numJoypadLinks + j`, as a
    button without polling, to the command of emulated pad `p % 5 + 1`.
   */
  lemma {:induction false} PadButtonMapped(numJoypads: nat, numJoypadLinks: nat, links: seq<string>, p: nat, j: nat)
    requires numJoypadLinks <= |links| && p < numJoypads && j < numJoypadLinks
    ensures var plan := RebindPlan(numJoypads, numJoypadLinks, links);
      && 1 + p * numJoypadLinks + j < |plan|
      && plan[1 + p * numJoypadLinks + j]
         == MapButton(PadButton(p, j), "Joypad" + [DigitChar(p % 5 + 1)] + " " + links[j], false)
  {
    var buttons := links[..numJoypadLinks];
    PadCallAt(numJoypads, buttons, p, j);
    var plan := RebindPlan(numJoypads, numJoypadLinks, links);
    assert plan[1 + p * numJoypadLinks + j] == PadCalls(numJoypads, buttons)[p * numJoypadLinks + j];
  }

  /** Pads five apart are mapped to the same commands, button by button. */
  lemma {:induction false} PadsFiveApartShareCommands(numJoypads: nat, numJoypadLinks: nat, links: seq<string>,
                                                      p: nat, j: nat)
    requires numJoypadLinks <= |links| && p + 5 < numJoypads && j < numJoypadLinks
    ensures var plan := RebindPlan(numJoypads, numJoypadLinks, links);
      && 1 + (p + 5) * numJoypadLinks + j < |plan|
      && plan[1 + (p + 5) * numJoypadLinks + j].MapButton? && plan[1 + p * numJoypadLinks + j].MapButton?
      && plan[1 + (p + 5) * numJoypadLinks + j].command == plan[1 + p * numJoypadLinks + j].command
      && plan[1 + (p + 5) * numJoypadLinks + j].binding != plan[1 + p * numJoypadLinks + j].binding
  {
    PadButtonMapped(numJoypads, numJoypadLinks, links, p, j);
    PadButtonMapped(numJoypads, numJoypadLinks, links, p + 5, j);
  }

  /**
    The whole plan: one call per pad button, one per shortcut and the four
    mouse calls after the clearing call; the shortcuts keep their table order
    and nothing before the mouse calls maps a pointer.
   */
  lemma {:induction false} RebindPlanShape(numJoypads: nat, numJoypadLinks: nat, links: seq<string>)
    requires numJoypadLinks <= |links|
    ensures var plan := RebindPlan(numJoypads, numJoypadLinks, links);
      var shortcuts := 1 + numJoypads * numJoypadLinks;
      && |plan| == shortcuts + (|links| - numJoypadLinks) + 4
      && plan[0] == UnmapAll
      && (forall k :: 0 <= k < |links| - numJoypadLinks ==>
            plan[shortcuts + k] == MapButton(Shortcut(k), links[numJoypadLinks + k], false))
      && plan[|plan| - 4..] == PointerCalls
      && forall k :: 0 <= k < |plan| - 4 ==> !plan[k].MapPointer?
  {
    var buttons := links[..numJoypadLinks];
    PadCallsLength(numJoypads, buttons);
    PadCallsNeverPoint(numJoypads, buttons);
  }

  lemma {:induction false} PadCallsNeverPoint(n: nat, names: seq<string>)
    ensures forall k :: 0 <= k < |PadCalls(n, names)| ==> PadCalls(n, names)[k].MapButton?
  {
    if n > 0 {
      PadCallsNeverPoint(n - 1, names);
    }
  }
}
