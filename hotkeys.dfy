/**
 * The global hotkey that brings the launcher window forward from anywhere
 * (`GlobalHotkeyManager`), and the older window's own Win+1 hotkey. The
 * hotkey is registered with `RegisterHotKey` under id 1; a `WM_HOTKEY`
 * message carrying that id shows the window again.
 *
 * Whether the Windows API is importable, and what `RegisterHotKey`
 * answers, are parameters. The Windows calls made are kept in order in
 * `calls`; the window's own reactions go to the host log.
 */
module Hotkeys {
  import opened Wrappers
  import opened Strings
  import Host

  const HotkeyId: int := 1
  const ModAlt: bv32 := 0x0001
  const ModControl: bv32 := 0x0002
  const ModShift: bv32 := 0x0004
  const ModWin: bv32 := 0x0008
  /** Ctrl+Shift. */
  const Modifiers: bv32 := ModControl | ModShift
  /** `VK_OEM_3`, the key of the tilde and of Ё. */
  const HotkeyVk: nat := 0xC0
  /** The older window's key, Win+1. */
  const LegacyModifiers: bv32 := ModWin
  const LegacyVk: nat := 0x31

  const WmHotkey: int := 0x0312
  const SwRestore: int := 9
  const NativeEventType: string := "windows_generic_MSG"

  /** The Windows and Qt calls the hotkey code makes on the launcher window. */
  datatype WindowCall =
    | RegisterHotKey(id: int, modifiers: bv32, vk: nat)
    | UnregisterHotKey(id: int)
    | ShowWindow(command: int)
    | SetForegroundWindow
    | ShowNormal
    | ActivateWindow
    | Raise

  /** The fields of the native `MSG` structure that are read. */
  datatype Msg = Msg(message: int, wParam: int)

  /** The names of the modifier bits that are set, in the order Win, Alt, Ctrl, Shift. */
  function ModifierNames(mods: bv32): seq<string> {
    (if mods & ModWin != 0 then ["Win"] else [])
    + (if mods & ModAlt != 0 then ["Alt"] else [])
    + (if mods & ModControl != 0 then ["Ctrl"] else [])
    + (if mods & ModShift != 0 then ["Shift"] else [])
  }

  /** The readable key names: the digit keys and Ё. */
  const KeyNames: map<nat, string> := map[0x31 := "1", 0x32 := "2", 0x33 := "3", 0x34 := "4", 0x35 := "5",
    0x36 := "6", 0x37 := "7", 0x38 := "8", 0x39 := "9", 0x30 := "0", 0xC0 := "Ё"]

  /** A key's name: from the table, else `VK_` and Python's `hex` of the code. */
  function KeyName(vk: nat): string {
    if vk in KeyNames then KeyNames[vk] else "VK_" + Hex(vk)
  }

  /** `_get_hotkey_name`: the modifier names and the key name joined by `+`. */
  function HotkeyName(mods: bv32, vk: nat): string {
    Join(ModifierNames(mods) + [KeyName(vk)], "+")
  }

  function ActiveMessage(name: string): string {
    "✅ Горячая клавиша " + name + " активна"
  }

  /** The messages the hotkey code takes for itself: a `WM_HOTKEY` for id 1, on Windows. */
  predicate Handles(available: bool, eventType: string, msg: Msg) {
    available && eventType == NativeEventType && msg.message == WmHotkey && msg.wParam == HotkeyId
  }

  class GlobalHotkeyManager {
    /** `WINDOWS_HOTKEY_AVAILABLE`. */
    const available: bool
    const host: Host.Host
    var registered: bool
    var calls: seq<WindowCall>

    constructor (available: bool, host: Host.Host)
      ensures this.available == available && this.host == host && !registered && calls == []
    {
      this.available := available;
      this.host := host;
      registered := false;
      calls := [];
    }

    /** `register`: `accepted` is what `RegisterHotKey` answers. A refusal leaves the flag as it was. */
    method Register(accepted: bool)
      modifies this, host
      ensures !available ==> registered == old(registered) && calls == old(calls) && host.log == old(host.log)
      ensures available ==> (calls == old(calls) + [RegisterHotKey(HotkeyId, Modifiers, HotkeyVk)]
        && registered == (old(registered) || accepted)
        && host.log == old(host.log) + (if accepted then [Host.TimedStatus(ActiveMessage(HotkeyName(Modifiers, HotkeyVk)), 3000)] else []))
      ensures host.files == old(host.files)
    {
      if !available {
        return;
      }
      calls := calls + [RegisterHotKey(HotkeyId, Modifiers, HotkeyVk)];
      if accepted {
        registered := true;
        var name := HotkeyName(Modifiers, HotkeyVk);
        host.Record(Host.TimedStatus(ActiveMessage(name), 3000));
      }
    }

    /** `unregister`: only a hotkey this manager registered is released. */
    method Unregister()
      modifies this
      ensures registered == (old(registered) && !available)
      ensures calls == old(calls) + (if available && old(registered) then [UnregisterHotKey(HotkeyId)] else [])
    {
      if !available || !registered {
        return;
      }
      calls := calls + [UnregisterHotKey(HotkeyId)];
      registered := false;
    }

    /** `handle_native_event`: the answer is `(handled, 0)`; a handled message shows the window from the tray and forces it forward. */
    method HandleNativeEvent(eventType: string, msg: Msg) returns (handled: bool, result: int)
      modifies this, host
      ensures handled == Handles(available, eventType, msg) && result == 0
      ensures handled ==> (calls == old(calls) + [ShowWindow(SwRestore), SetForegroundWindow]
        && host.log == old(host.log) + [Host.ShownFromTray])
      ensures !handled ==> calls == old(calls) && host.log == old(host.log)
      ensures registered == old(registered) && host.files == old(host.files)
    {
      if Handles(available, eventType, msg) {
        host.Record(Host.ShownFromTray);
        calls := calls + [ShowWindow(SwRestore), SetForegroundWindow];
        return true, 0;
      }
      return false, 0;
    }
  }

  /** The hotkey of the older window: Win+1, no status message, and unhandled messages go on to the base class. */
  class LegacyHotkeyWindow {
    const available: bool
    var registered: bool
    var calls: seq<WindowCall>

    constructor (available: bool)
      ensures this.available == available && !registered && calls == []
    {
      this.available := available;
      registered := false;
      calls := [];
    }

    /** `register_global_hotkey`. */
    method Register(accepted: bool)
      modifies this
      ensures calls == old(calls) + (if available then [RegisterHotKey(HotkeyId, LegacyModifiers, LegacyVk)] else [])
      ensures registered == (old(registered) || (available && accepted))
    {
      if !available {
        return;
      }
      calls := calls + [RegisterHotKey(HotkeyId, LegacyModifiers, LegacyVk)];
      if accepted {
        registered := true;
      }
    }

    /** `unregister_global_hotkey`. */
    method Unregister()
      modifies this
      ensures registered == (old(registered) && !available)
      ensures calls == old(calls) + (if available && old(registered) then [UnregisterHotKey(HotkeyId)] else [])
    {
      if !available || !registered {
        return;
      }
      calls := calls + [UnregisterHotKey(HotkeyId)];
      registered := false;
    }

    /**
     * `nativeEvent`: `Some((True, 0))` for a handled message, `None` where
     * the base class's answer is returned. `minimized` is `isMinimized()`.
     */
    method NativeEvent(eventType: string, msg: Msg, minimized: bool) returns (answer: Option<(bool, int)>)
      modifies this
      ensures answer.Some? <==> Handles(available, eventType, msg)
      ensures answer.Some? ==> (answer.value == (true, 0)
        && calls == old(calls) + (if minimized then [ShowNormal] else []) + [ActivateWindow, Raise, ShowWindow(SwRestore), SetForegroundWindow])
      ensures answer.None? ==> calls == old(calls)
      ensures registered == old(registered)
    {
      if Handles(available, eventType, msg) {
        if minimized {
          calls := calls + [ShowNormal];
        }
        calls := calls + [ActivateWindow, Raise, ShowWindow(SwRestore), SetForegroundWindow];
        return Some((true, 0));
      }
      return None;
    }
  }

  // Properties of the names.

  /** Each modifier's name is listed exactly when its bit is set. */
  lemma ModifierNamesExact(mods: bv32)
    ensures ("Win" in ModifierNames(mods)) <==> mods & ModWin != 0
    ensures ("Alt" in ModifierNames(mods)) <==> mods & ModAlt != 0
    ensures ("Ctrl" in ModifierNames(mods)) <==> mods & ModControl != 0
    ensures ("Shift" in ModifierNames(mods)) <==> mods & ModShift != 0
  {
  }

  /** The configured hotkey is Ctrl+Shift+Ё; the older window's is Win+1. */
  lemma ConfiguredNames()
    ensures HotkeyName(Modifiers, HotkeyVk) == "Ctrl+Shift+Ё"
    ensures HotkeyName(LegacyModifiers, LegacyVk) == "Win+1"
  {
    CtrlShiftName();
    WinOneName();
  }

  lemma CtrlShiftName()
    ensures HotkeyName(Modifiers, HotkeyVk) == "Ctrl+Shift+Ё"
  {
    assert ModifierNames(Modifiers) == ["Ctrl", "Shift"];
    assert KeyName(HotkeyVk) == "Ё";
    assert ["Ctrl", "Shift"] + ["Ё"] == ["Ctrl", "Shift", "Ё"];
    assert ["Ctrl"] + ["Shift"] == ["Ctrl", "Shift"];
    JoinSnoc(["Ctrl"], "Shift", "+");
    JoinSnoc(["Ctrl", "Shift"], "Ё", "+");
  }

  lemma WinOneName()
    ensures HotkeyName(LegacyModifiers, LegacyVk) == "Win+1"
  {
    assert ModifierNames(LegacyModifiers) == ["Win"];
    assert KeyName(LegacyVk) == "1";
    assert ["Win"] + ["1"] == ["Win", "1"];
    JoinSnoc(["Win"], "1", "+");
  }

  /** One hexadecimal digit names its value. */
  lemma HexDigitInjective(a: nat, b: nat)
    requires a < 16 && b < 16 && HexDigit(a) == HexDigit(b)
    ensures a == b
  {
    var digits := "0123456789abcdef";
    forall i, j | 0 <= i < j < 16 ensures digits[i] != digits[j] {
    }
  }

  /** A number of sixteen or more has at least two digits. */
  lemma HexDigitsLength(n: nat)
    ensures (|HexDigits(n)| == 1) <==> n < 16
  {
    if n >= 16 {
      assert |HexDigits(n / 16)| >= 1;
    }
  }

  /** Different numbers have different hexadecimal spellings. */
  lemma {:induction false} HexDigitsInjective(a: nat, b: nat)
    requires HexDigits(a) == HexDigits(b)
    ensures a == b
    decreases a
  {
    HexDigitsLength(a);
    HexDigitsLength(b);
    if a < 16 {
      HexDigitInjective(a, b);
    } else {
      var da, db := HexDigits(a), HexDigits(b);
      assert da[..|da| - 1] == HexDigits(a / 16) && db[..|db| - 1] == HexDigits(b / 16);
      HexDigitsInjective(a / 16, b / 16);
      HexDigitInjective(a % 16, b % 16);
    }
  }

  /** The code a table name stands for: a digit's own character code, and `VK_OEM_3` for Ё. */
  function NameCode(name: string): int
    requires name != []
  {
    if name == "Ё" then HotkeyVk else name[0] as int
  }

  /** Every name in the table is one character and leads back to its code. */
  lemma KeyNamesInverse()
    ensures forall k :: k in KeyNames ==> |KeyNames[k]| == 1 && NameCode(KeyNames[k]) == k
  {
    assert "Ё" != "0" && "Ё"[0] as int == 0x401;
  }

  /** A key's name identifies its code: two keys with the same name are the same key. */
  lemma KeyNameInjective(a: nat, b: nat)
    requires KeyName(a) == KeyName(b)
    ensures a == b
  {
    if a in KeyNames && b in KeyNames {
      KeyNamesInverse();
    } else if a !in KeyNames && b !in KeyNames {
      var ha, hb := Hex(a), Hex(b);
      assert KeyName(a)[3..] == ha && KeyName(b)[3..] == hb;
      assert ha[2..] == HexDigits(a) && hb[2..] == HexDigits(b);
      HexDigitsInjective(a, b);
    }
  }
}
