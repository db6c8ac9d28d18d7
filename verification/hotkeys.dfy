/**
 * Hotkey names: the display name of a configured key (`get_hotkey_name`),
 * the reverse mapping used when the settings are saved (`hotkey_map` in
 * `SettingsWindow.save`), and the keyboard keys a configured hotkey
 * answers to (`Dictation.get_pynput_key`).
 */
module Hotkeys {

  /** The keyboard keys the listener reports; every other key is `Other`. */
  datatype Key =
    | Alt | AltL | AltR
    | Ctrl | CtrlL | CtrlR
    | Shift | ShiftL | ShiftR
    | CapsLock
    | F(n: nat)
    | Other(name: string)

  /** The table inside `get_hotkey_name`. */
  const DisplayNames: map<string, string> := map[
    "alt" := "Alt", "alt_l" := "Left Alt", "alt_r" := "Right Alt",
    "ctrl" := "Ctrl", "ctrl_l" := "Left Ctrl", "ctrl_r" := "Right Ctrl",
    "shift" := "Shift", "caps_lock" := "Caps Lock",
    "f1" := "F1", "f2" := "F2", "f3" := "F3", "f4" := "F4",
    "f5" := "F5", "f6" := "F6", "f7" := "F7", "f8" := "F8",
    "f9" := "F9", "f10" := "F10", "f11" := "F11", "f12" := "F12"
  ]

  /** `get_hotkey_name(key)`; `title` stands for Python's `str.title`. */
  function DisplayName(key: string, title: string -> string): string {
    if key in DisplayNames then DisplayNames[key] else title(key)
  }

  /** The choices offered by the settings window's hotkey box, in order. */
  const ComboChoices: seq<string> := [
    "Alt", "Left Alt", "Right Alt", "Ctrl", "Left Ctrl", "Right Ctrl",
    "Shift", "Caps Lock", "F1", "F2", "F3", "F4", "F5", "F6", "F7", "F8"
  ]

  /** The table inside `SettingsWindow.save`. */
  const KeyNames: map<string, string> := map[
    "Alt" := "alt", "Left Alt" := "alt_l", "Right Alt" := "alt_r",
    "Ctrl" := "ctrl", "Left Ctrl" := "ctrl_l", "Right Ctrl" := "ctrl_r",
    "Shift" := "shift", "Caps Lock" := "caps_lock",
    "F1" := "f1", "F2" := "f2", "F3" := "f3", "F4" := "f4",
    "F5" := "f5", "F6" := "f6", "F7" := "f7", "F8" := "f8"
  ]

  /** `hotkey_map.get(display, 'alt')`: the key name saved for a chosen display name. */
  function KeyForDisplay(display: string): string {
    if display in KeyNames then KeyNames[display] else "alt"
  }

  /** The table inside `get_pynput_key`. */
  const ListenerKeys: map<string, seq<Key>> := map[
    "alt" := [AltL, AltR, Alt], "alt_l" := [AltL], "alt_r" := [AltR],
    "ctrl" := [CtrlL, CtrlR, Ctrl], "ctrl_l" := [CtrlL], "ctrl_r" := [CtrlR],
    "shift" := [ShiftL, ShiftR, Shift], "caps_lock" := [CapsLock],
    "f1" := [F(1)], "f2" := [F(2)], "f3" := [F(3)], "f4" := [F(4)],
    "f5" := [F(5)], "f6" := [F(6)], "f7" := [F(7)], "f8" := [F(8)]
  ]

  /** `get_pynput_key()` for the configured hotkey name. */
  function HotkeyKeys(hotkey: string): seq<Key> {
    if hotkey in ListenerKeys then ListenerKeys[hotkey] else [AltL, AltR]
  }

  /** Every choice the settings window offers is saved as a key whose display
      name is that choice, so reopening the settings shows the same choice. */
  lemma ComboRoundTrip(display: string, title: string -> string)
    requires display in ComboChoices
    ensures DisplayName(KeyForDisplay(display), title) == display
  {
    if display in {"Alt", "Left Alt", "Right Alt", "Ctrl"} {
      AltCtrlChoicesRoundTrip(display, title);
    } else if display in {"Left Ctrl", "Right Ctrl", "Shift", "Caps Lock"} {
      CtrlShiftChoicesRoundTrip(display, title);
    } else if display in {"F1", "F2", "F3", "F4"} {
      LowFunctionChoicesRoundTrip(display, title);
    } else {
      HighFunctionChoicesRoundTrip(display, title);
    }
  }

  // The table lookups are proved four names at a time, which keeps each proof small.

  lemma AltCtrlChoicesRoundTrip(display: string, title: string -> string)
    requires display in {"Alt", "Left Alt", "Right Alt", "Ctrl"}
    ensures DisplayName(KeyForDisplay(display), title) == display
  {
  }

  lemma CtrlShiftChoicesRoundTrip(display: string, title: string -> string)
    requires display in {"Left Ctrl", "Right Ctrl", "Shift", "Caps Lock"}
    ensures DisplayName(KeyForDisplay(display), title) == display
  {
  }

  lemma LowFunctionChoicesRoundTrip(display: string, title: string -> string)
    requires display in {"F1", "F2", "F3", "F4"}
    ensures DisplayName(KeyForDisplay(display), title) == display
  {
  }

  lemma HighFunctionChoicesRoundTrip(display: string, title: string -> string)
    requires display in {"F5", "F6", "F7", "F8"}
    ensures DisplayName(KeyForDisplay(display), title) == display
  {
  }

  /** The reverse table is defined on exactly the offered choices; anything else is saved as 'alt'. */
  lemma KeyForDisplayDomain(display: string)
    ensures display in KeyNames <==> display in ComboChoices
    ensures display !in ComboChoices ==> KeyForDisplay(display) == "alt"
  {
  }

  /** A key name with a display name survives display-then-save exactly when
      the listener recognises it ('f9' to 'f12' come back as 'alt'). */
  lemma DisplayRoundTrip(key: string, title: string -> string)
    requires key in DisplayNames
    ensures KeyForDisplay(DisplayName(key, title)) == key <==> key in ListenerKeys
  {
    if key in {"alt", "alt_l", "alt_r", "ctrl"} {
      AltCtrlKeysRoundTrip(key, title);
    } else if key in {"ctrl_l", "ctrl_r", "shift", "caps_lock"} {
      CtrlShiftKeysRoundTrip(key, title);
    } else if key in {"f1", "f2", "f3", "f4"} {
      LowFunctionKeysRoundTrip(key, title);
    } else if key in {"f5", "f6", "f7", "f8"} {
      HighFunctionKeysRoundTrip(key, title);
    } else {
      UnlistenedKeysReset(key, title);
    }
  }

  lemma AltCtrlKeysRoundTrip(key: string, title: string -> string)
    requires key in {"alt", "alt_l", "alt_r", "ctrl"}
    ensures KeyForDisplay(DisplayName(key, title)) == key && key in ListenerKeys
  {
  }

  lemma CtrlShiftKeysRoundTrip(key: string, title: string -> string)
    requires key in {"ctrl_l", "ctrl_r", "shift", "caps_lock"}
    ensures KeyForDisplay(DisplayName(key, title)) == key && key in ListenerKeys
  {
  }

  lemma LowFunctionKeysRoundTrip(key: string, title: string -> string)
    requires key in {"f1", "f2", "f3", "f4"}
    ensures KeyForDisplay(DisplayName(key, title)) == key && key in ListenerKeys
  {
  }

  lemma HighFunctionKeysRoundTrip(key: string, title: string -> string)
    requires key in {"f5", "f6", "f7", "f8"}
    ensures KeyForDisplay(DisplayName(key, title)) == key && key in ListenerKeys
  {
  }

  lemma UnlistenedKeysReset(key: string, title: string -> string)
    requires key in {"f9", "f10", "f11", "f12"}
    ensures KeyForDisplay(DisplayName(key, title)) == "alt" && key !in ListenerKeys
  {
  }

  /** A hotkey saved from the settings window is always one the listener
      recognises, so it never falls back. */
  lemma SavedHotkeyRecognised(display: string)
    ensures KeyForDisplay(display) in ListenerKeys
  {
  }

  /** An unrecognised hotkey name falls back to the two physical Alt keys;
      every hotkey answers to at least one key. */
  lemma HotkeyKeysFallback(hotkey: string)
    ensures hotkey !in ListenerKeys ==> HotkeyKeys(hotkey) == [AltL, AltR]
    ensures |HotkeyKeys(hotkey)| >= 1
  {
  }
}
