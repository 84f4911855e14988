/**
 The key-event logic of the Urdu keyboard as a pure reducer: the session state,
 the key events, the classification of a key-down event, and the state each
 event leads to. The class in Keyboard.dfy is specified by these functions.
 */
module KeyLogic {

  datatype Option<T> = None | Some(value: T)

  /** The three key tables. They are fixed for the whole session. */
  datatype KeyMaps = KeyMaps(
    urdu: map<string, string>,     // unshifted: lowercased key -> Urdu text
    shifted: map<string, string>,  // shifted: lowercased key -> Urdu text
    special: map<string, string>)  // raw key name -> any non-empty value marks the key special

  /** The session state: the typed text and the two modifier flags. */
  datatype State = State(output: string, shiftActive: bool, capsLock: bool)

  /** A session starts with no text and both flags off. */
  const Initial := State("", false, false)

  /** The two kinds of keyboard event the component listens to. */
  datatype Event =
    | KeyDown(key: string, shiftKey: bool, ctrlKey: bool, altKey: bool, metaKey: bool)
    | KeyUp(key: string)

  /** Lower-casing of one character; only the ASCII letters A-Z are folded. */
  function LowerChar(c: char): char
  {
    if 'A' <= c <= 'Z' then (c as int + 32) as char else c
  }

  /** Lower-casing of a key name, character by character. */
  function LowerCase(s: string): (r: string)
    ensures |r| == |s|
    ensures forall i :: 0 <= i < |s| ==> r[i] == LowerChar(s[i])
    ensures forall i :: 0 <= i < |r| ==> !('A' <= r[i] <= 'Z')
  {
    seq(|s|, i requires 0 <= i < |s| => LowerChar(s[i]))
  }

  /** A table lookup that JavaScript treats as true: the key is present and
      its value is a non-empty string. */
  predicate Truthy(m: map<string, string>, k: string)
  {
    k in m && m[k] != ""
  }

  /** The lowercased names of the modifier keys. */
  const ModifierNames: seq<string> := ["shift", "control", "alt", "meta", "capslock"]

  predicate IsModifier(keyLower: string)
  {
    keyLower in ModifierNames
  }

  /** What a key-down event is taken to be, tested in this order. */
  datatype Disposition = Modifier | Special | Character | Ignored

  function Classify(maps: KeyMaps, key: string): Disposition
  {
    var keyLower := LowerCase(key);
    if IsModifier(keyLower) then Modifier
    else if Truthy(maps.special, key) then Special
    else if |key| == 1 || keyLower in maps.urdu || keyLower in maps.shifted then Character
    else Ignored
  }

  /** Shift held on the event, or Caps Lock on: a logical OR, not an XOR. */
  function EffectiveShift(shiftKey: bool, capsLock: bool): bool
  {
    shiftKey || capsLock
  }

  /** The edit a special key makes; a name without an action changes nothing. */
  function SpecialEdit(key: string, output: string): string
  {
    if key == "Backspace" then (if output == "" then "" else output[..|output| - 1])
    else if key == "Enter" then output + "\n"
    else if key == "Tab" then output + "\t"
    else if key == "Space" then output + " "
    else output
  }

  /** The text a character key appends: the shifted table first when shift is
      in effect, else the unshifted table, else nothing. */
  function MappedText(maps: KeyMaps, keyLower: string, isShift: bool): string
  {
    if isShift && Truthy(maps.shifted, keyLower) then maps.shifted[keyLower]
    else if Truthy(maps.urdu, keyLower) then maps.urdu[keyLower]
    else ""
  }

  /** The state after a key-down event. */
  function KeyDownState(maps: KeyMaps, s: State, key: string, shiftKey: bool): State
  {
    var keyLower := LowerCase(key);
    match Classify(maps, key)
    case Modifier =>
      s.(shiftActive := if keyLower == "shift" then true else s.shiftActive,
         capsLock := if keyLower == "capslock" then !s.capsLock else s.capsLock)
    case Special => s.(output := SpecialEdit(key, s.output))
    case Character =>
      var text := MappedText(maps, keyLower, EffectiveShift(shiftKey, s.capsLock));
      if text == "" then s else s.(output := s.output + text)
    case Ignored => s
  }

  /** Whether a key-down event has its browser default suppressed. */
  function PreventsDefault(key: string, ctrlKey: bool, altKey: bool, metaKey: bool): bool
  {
    !IsModifier(LowerCase(key)) && !ctrlKey && !altKey && !metaKey
  }

  /** The state after a key-up event. */
  function KeyUpState(s: State, key: string): State
  {
    if LowerCase(key) == "shift" then s.(shiftActive := false) else s
  }

  function Step(maps: KeyMaps, s: State, e: Event): State
  {
    match e
    case KeyDown(key, shiftKey, _, _, _) => KeyDownState(maps, s, key, shiftKey)
    case KeyUp(key) => KeyUpState(s, key)
  }

  /** Events are handled one at a time, each to completion, in arrival order. */
  function Run(maps: KeyMaps, s: State, events: seq<Event>): State
    decreases |events|
  {
    if events == [] then s else Run(maps, Step(maps, s, events[0]), events[1..])
  }

  /** The text changed only at its end: either it was appended to, or exactly
      its last character was dropped. */
  predicate EditsAtEnd(before: string, after: string)
  {
    before <= after || (after <= before && |before| == |after| + 1)
  }
}
