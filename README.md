# Urdu keyboard: key-event state machine

This project models the key-event handling of the Urdu keyboard component. The
component listens to key presses on a Latin keyboard and builds Urdu text from
them. Its session state is the typed text (`output`) and two flags: Shift held
(`isShiftActive`) and Caps Lock on (`isCapsLock`).

A key-down event is classified in a fixed order:

1. A modifier (Shift, Control, Alt, Meta or Caps Lock, compared after
   lowercasing). Shift sets the Shift flag. Caps Lock flips the Caps Lock flag.
   The other three change nothing.
2. A special key, whose raw name has a truthy entry in the special table.
   Backspace drops the last character. Enter, Tab and `"Space"` append a
   newline, a tab and a space.
3. A character key: a one-character key, or one whose lowercased name is a key
   of either character table. Its lowercased name is looked up in the shifted
   table first when Shift is held on the event or Caps Lock is on, then in the
   unshifted table. If neither has a non-empty entry, the key is dropped.
4. Anything else is ignored.

The browser default is suppressed for every non-modifier key pressed without
Control, Alt or Meta. This includes keys that are then ignored. A key-up of
Shift clears the Shift flag.

Files:

- `KeyLogic.dfy` (module `KeyLogic`) is the reducer. It holds the state and
  event datatypes and the lowercasing, and the functions `Classify`,
  `MappedText`, `SpecialEdit`, `KeyDownState`, `KeyUpState`, `PreventsDefault`,
  `Step` and `Run`.
- `Keyboard.dfy` (module `Keyboard`) has the class `UrduKeyboard`. Its mutable
  fields are `output`, `shiftActive` and `capsLock`, and its tables are fixed
  at construction. Each handler updates the fields in place. Each is proved to
  leave exactly the state that the reducer gives for the old state.
- `KeyProperties.dfy` (module `KeyProperties`) holds the properties. Some are
  about one event, on each classification path. Others are about a whole
  sequence of events, proved by induction: Caps Lock parity, Shift following
  its last event, typing a word, and text that only grows when no Backspace is
  pressed.

The three key tables (unshifted, shifted, special) are defined outside this
component and are not part of this model. They are parameters of type
`map<string, string>`. A lookup that JavaScript treats as true is modelled by
`Truthy`: the key is present and its value is a non-empty string. The
presence test `keyLower in urduKeyMap` is modelled as plain map membership.

Consequences of the code as written:

- A mapped text may hold several characters, while Backspace drops one
  character. `KeyProperties.TypeThenBackspace` proves that typing a key and
  then pressing Backspace restores the text exactly when the key's mapped text
  is one character long.
- The special lookup (line 30) and the character lookups (lines 66 and 68)
  test the looked-up value for truthiness. The classification at line 34 tests
  presence only. The model does the same.
- The special case for a space uses the literal name `"Space"`. A space-bar
  press reported as `" "` changes nothing if the special table has a truthy
  entry for `" "`. Otherwise it takes the character path and is dropped unless
  a character table maps it (`KeyProperties.SpaceBarKey`).

## Model

| member | source | states |
|---|---|---|
| KeyLogic.LowerCase | src/components/UrduKeyboard.jsx:20 | lowercasing keeps the length, folds each character on its own, and leaves no capital A-Z |
| Keyboard.UrduKeyboard.constructor | src/components/UrduKeyboard.jsx:9-11 | a session starts with empty text and both flags off |
| Keyboard.UrduKeyboard.KeyDown | src/components/UrduKeyboard.jsx:18-37 | the new fields are `KeyDownState` (built on `Classify`, `SpecialEdit` and `MappedText`) of the old fields; the result is `PreventsDefault`, whether the default was suppressed; text is edited only at its end; a modifier leaves the text alone and is not suppressed; any other key keeps both flags |
| Keyboard.UrduKeyboard.KeyUp | src/components/UrduKeyboard.jsx:39-43 | the new fields are `KeyUpState` of the old fields: only a Shift release changes anything, and it clears the Shift flag |
| Keyboard.UrduKeyboard.HandleSpecialKey | src/components/UrduKeyboard.jsx:45-62 | the text becomes `SpecialEdit` of the old text, which touches only its end |
| Keyboard.UrduKeyboard.HandleCharacterInput | src/components/UrduKeyboard.jsx:64-75 | the text becomes the old text followed by `MappedText` of the key (shifted table first when shift is in effect, then the unshifted table) |
| KeyProperties.ModifierKeyDown | src/components/UrduKeyboard.jsx:22-26 | a modifier never changes the text and is never suppressed; Shift sets the Shift flag, Caps Lock flips the Caps Lock flag |
| KeyProperties.ControlAltMetaKeyDown | src/components/UrduKeyboard.jsx:22-25 | Control, Alt and Meta leave the whole state unchanged |
| KeyProperties.CapsLockTwice | src/components/UrduKeyboard.jsx:24 | two Caps Lock presses restore the state they started from |
| KeyProperties.ShiftDownUp | src/components/UrduKeyboard.jsx:23-41 | Shift down then Shift up leaves the Shift flag off whatever it was before, and nothing else changed |
| KeyProperties.KeyUpOnlyShift | src/components/UrduKeyboard.jsx:39-43 | a key-up keeps text and Caps Lock; the Shift flag is on afterwards exactly when it was on and the key was not Shift |
| KeyProperties.PreventDefaultRule | src/components/UrduKeyboard.jsx:22-29 | the default is suppressed exactly when the key is not a modifier and none of Control, Alt, Meta is held, ignored keys included |
| KeyProperties.SpecialKeyPath | src/components/UrduKeyboard.jsx:30-61 | a key with a truthy special entry takes the special path; Backspace drops the last character and leaves empty text empty; Enter, Tab, Space append newline, tab, space whatever the flags; other names change nothing; flags unchanged |
| KeyProperties.CharacterKeyPath | src/components/UrduKeyboard.jsx:34-74 | a character key appends the shifted text when (event Shift or Caps Lock) and the shifted entry is truthy, else the unshifted text when truthy, else nothing; flags unchanged |
| KeyProperties.ShiftFlagNotConsulted | src/components/UrduKeyboard.jsx:35 | the Shift flag of the state has no influence on the text a key-down produces; only the event's own Shift and Caps Lock do |
| KeyProperties.IgnoredKeyNoChange | src/components/UrduKeyboard.jsx:30-36 | a multi-character key that is no modifier, has no truthy special entry and is in neither character table is ignored and changes no state |
| KeyProperties.StepEditsAtEnd | src/components/UrduKeyboard.jsx:45-74 | every event either appends to the text or drops exactly its last character; among key-downs, only a modifier changes a flag |
| KeyProperties.CtrlStillTypes | src/components/UrduKeyboard.jsx:27-35 | Control, Alt or Meta held does not change what a character key types; they only decide whether the default is suppressed |
| KeyProperties.SpaceBarKey | src/components/UrduKeyboard.jsx:30-35 | a key reported as a single space changes nothing when the special table has a truthy entry for it, and otherwise appends its character-table text, if any |
| KeyProperties.TypeThenBackspace | src/components/UrduKeyboard.jsx:48-73 | a character key with mapped text, followed by Backspace, restores the text if and only if the key's mapped text is one character long |
| KeyProperties.CapsLockParity | src/components/UrduKeyboard.jsx:24 | after any sequence of events, Caps Lock is flipped exactly when it was pressed an odd number of times |
| KeyProperties.ShiftFollowsLastShiftEvent | src/components/UrduKeyboard.jsx:23-41 | after any sequence of events, the Shift flag is set by the last Shift press or release, or is as before when there is none |
| KeyProperties.TypingAppendsMappedText | src/components/UrduKeyboard.jsx:34-74 | typing keys that each take the character path appends their mapped texts in order and keeps both flags |
| KeyProperties.WithoutBackspaceTextGrows | src/components/UrduKeyboard.jsx:46-74 | over any sequence of events without Backspace, the old text stays a prefix of the new text |
| KeyProperties.DemoSession | src/components/UrduKeyboard.jsx:18-75 | with one-entry tables, "a", Shift down, "A", Shift up, "a" types alef, alef madda, alef and ends with both flags off |

## Left out

- The rendering: markup, style classes, placeholder text and the ON/OFF badges. They show the state and change none of it.
- Focus handling: the focus on mount and on click are browser side effects.
- The application wrapper: it only lays out the page and has no logic.
- The contents of the three key tables: they are defined in a file that is not part of this model, so they are parameters.
- The browser event object: `preventDefault` is modelled as the result of `KeyDown`, not as a call.
- React's scheduling of state updates: each event is handled to completion, in order, before the next one.
- KeyLogic.LowerCase: folds only the ASCII letters A-Z. JavaScript's `toLowerCase` also folds every other capital letter, Latin ones such as "Ä" included, and can change a string's length ("İ"). The model is exact for ASCII key names; a non-ASCII capital is looked up unfolded.
- Text and `key.length` count Dafny characters (Unicode scalar values), not UTF-16 code units, so Backspace drops one character where `slice(0, -1)` drops one code unit.
- JavaScript property lookups also see inherited names such as `constructor`; the tables are plain maps here.
- Table values are strings; a JavaScript table could hold other values, whose truthiness is not modelled.
