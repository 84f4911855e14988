/**
 Properties of the key-event reducer: what one key-down or key-up event does
 on each path of the classification, and what follows for a whole sequence of
 events.
 */
module KeyProperties {
  import opened KeyLogic

  // ---------------------------------------------------------------------------
  // One event

  /** A modifier key never touches the text and is never suppressed; Shift
      sets the Shift flag, Caps Lock flips the Caps Lock flag. */
  lemma ModifierKeyDown(maps: KeyMaps, s: State, key: string, shiftKey: bool,
                        ctrlKey: bool, altKey: bool, metaKey: bool)
    requires IsModifier(LowerCase(key))
    ensures var r := KeyDownState(maps, s, key, shiftKey);
      && r.output == s.output
      && !PreventsDefault(key, ctrlKey, altKey, metaKey)
      && r.shiftActive == (LowerCase(key) == "shift" || s.shiftActive)
      && r.capsLock == (s.capsLock != (LowerCase(key) == "capslock"))
  {
  }

  /** Control, Alt and Meta change no state at all. */
  lemma ControlAltMetaKeyDown(maps: KeyMaps, s: State, key: string, shiftKey: bool)
    requires LowerCase(key) in ["control", "alt", "meta"]
    ensures KeyDownState(maps, s, key, shiftKey) == s
  {
  }

  /** Two Caps Lock presses give back the state they started from. */
  lemma CapsLockTwice(maps: KeyMaps, s: State, key1: string, key2: string, shift1: bool, shift2: bool)
    requires LowerCase(key1) == "capslock" && LowerCase(key2) == "capslock"
    ensures KeyDownState(maps, KeyDownState(maps, s, key1, shift1), key2, shift2) == s
  {
  }

  /** Shift down then Shift up leaves the Shift flag off, whatever it was. */
  lemma ShiftDownUp(maps: KeyMaps, s: State, down: string, up: string, shiftKey: bool)
    requires LowerCase(down) == "shift" && LowerCase(up) == "shift"
    ensures KeyUpState(KeyDownState(maps, s, down, shiftKey), up) == s.(shiftActive := false)
  {
  }

  /** A key-up event only ever clears the Shift flag, and only for Shift. */
  lemma KeyUpOnlyShift(s: State, key: string)
    ensures var r := KeyUpState(s, key);
      && r.output == s.output
      && r.capsLock == s.capsLock
      && (r.shiftActive <==> s.shiftActive && LowerCase(key) != "shift")
  {
  }

  /** The default action is suppressed exactly for the non-modifier keys
      pressed without Control, Alt or Meta, ignored keys included. */
  lemma PreventDefaultRule(maps: KeyMaps, key: string, ctrlKey: bool, altKey: bool, metaKey: bool)
    ensures PreventsDefault(key, ctrlKey, altKey, metaKey) <==>
            Classify(maps, key) != Modifier && !ctrlKey && !altKey && !metaKey
  {
  }

  /** A key with a truthy special-table entry takes the special path and never
      the character path; Backspace drops the last character (nothing on empty
      text), Enter, Tab and Space append a newline, a tab and a space, in every
      Shift and Caps Lock state. */
  lemma SpecialKeyPath(maps: KeyMaps, s: State, key: string, shiftKey: bool)
    requires !IsModifier(LowerCase(key)) && Truthy(maps.special, key)
    ensures Classify(maps, key) == Special
    ensures var r := KeyDownState(maps, s, key, shiftKey);
      && r.shiftActive == s.shiftActive && r.capsLock == s.capsLock
      && (key == "Backspace" ==>
            r.output == if s.output == "" then "" else s.output[..|s.output| - 1])
      && (key == "Enter" ==> r.output == s.output + "\n")
      && (key == "Tab" ==> r.output == s.output + "\t")
      && (key == "Space" ==> r.output == s.output + " ")
      && (key !in ["Backspace", "Enter", "Tab", "Space"] ==> r.output == s.output)
  {
  }

  /** A character key appends the shifted text when Shift is held on the event
      or Caps Lock is on and the shifted table has the key, else the unshifted
      text when that table has it, else nothing; the flags stay as they were. */
  lemma CharacterKeyPath(maps: KeyMaps, s: State, key: string, shiftKey: bool)
    requires !IsModifier(LowerCase(key)) && !Truthy(maps.special, key)
    requires |key| == 1 || LowerCase(key) in maps.urdu || LowerCase(key) in maps.shifted
    ensures Classify(maps, key) == Character
    ensures var r := KeyDownState(maps, s, key, shiftKey);
      var k := LowerCase(key);
      var shifted := (shiftKey || s.capsLock) && Truthy(maps.shifted, k);
      && r.shiftActive == s.shiftActive && r.capsLock == s.capsLock
      && (shifted ==> r.output == s.output + maps.shifted[k])
      && (!shifted && Truthy(maps.urdu, k) ==> r.output == s.output + maps.urdu[k])
      && (!shifted && !Truthy(maps.urdu, k) ==> r.output == s.output)
  {
  }

  /** The Shift flag of the state is not what selects the shifted table: only
      the event's own Shift and the Caps Lock flag are. */
  lemma ShiftFlagNotConsulted(maps: KeyMaps, s: State, key: string, shiftKey: bool, flag: bool)
    ensures KeyDownState(maps, s.(shiftActive := flag), key, shiftKey).output ==
            KeyDownState(maps, s, key, shiftKey).output
  {
  }

  /** A named key that is no modifier, has no special action and is in
      neither character table changes nothing. */
  lemma IgnoredKeyNoChange(maps: KeyMaps, s: State, key: string, shiftKey: bool)
    requires |key| > 1 && !IsModifier(LowerCase(key)) && !Truthy(maps.special, key)
    requires LowerCase(key) !in maps.urdu && LowerCase(key) !in maps.shifted
    ensures Classify(maps, key) == Ignored
    ensures KeyDownState(maps, s, key, shiftKey) == s
  {
  }

  /** Control, Alt or Meta held does not stop a character key from typing:
      only the suppression of the default depends on them. */
  lemma CtrlStillTypes(maps: KeyMaps, s: State, key: string, shiftKey: bool,
                       ctrlKey: bool, altKey: bool, metaKey: bool)
    requires Classify(maps, key) == Character
    ensures Step(maps, s, KeyDown(key, shiftKey, ctrlKey, altKey, metaKey)) ==
            Step(maps, s, KeyDown(key, shiftKey, false, false, false))
    ensures var text := MappedText(maps, LowerCase(key), EffectiveShift(shiftKey, s.capsLock));
      Step(maps, s, KeyDown(key, shiftKey, ctrlKey, altKey, metaKey)) == s.(output := s.output + text)
    ensures PreventsDefault(key, ctrlKey, altKey, metaKey) <==> !ctrlKey && !altKey && !metaKey
  {
  }

  /** A space-bar press, reported as a single space, is dropped unless a
      table maps it: with a truthy special entry it takes the special path,
      whose edit for that name changes nothing; otherwise it takes the
      character path. */
  lemma SpaceBarKey(maps: KeyMaps, s: State, shiftKey: bool)
    ensures Truthy(maps.special, " ") ==> KeyDownState(maps, s, " ", shiftKey) == s
    ensures !Truthy(maps.special, " ") ==>
              KeyDownState(maps, s, " ", shiftKey).output ==
              s.output + MappedText(maps, " ", EffectiveShift(shiftKey, s.capsLock))
  {
    assert LowerCase(" ") == " ";
  }

  /** Every event edits the text only at its end; among key-downs, only a
      modifier changes a flag. */
  lemma StepEditsAtEnd(maps: KeyMaps, s: State, e: Event)
    ensures EditsAtEnd(s.output, Step(maps, s, e).output)
    ensures e.KeyDown? && !IsModifier(LowerCase(e.key)) ==>
              Step(maps, s, e).shiftActive == s.shiftActive &&
              Step(maps, s, e).capsLock == s.capsLock
  {
  }

  /** Typing a key and then Backspace restores the text exactly when the key
      appended a single character: Backspace drops one character, not one
      table entry. */
  lemma TypeThenBackspace(maps: KeyMaps, s: State, key: string, shiftKey: bool)
    requires Classify(maps, key) == Character && Truthy(maps.special, "Backspace")
    requires MappedText(maps, LowerCase(key), EffectiveShift(shiftKey, s.capsLock)) != ""
    ensures var typed := MappedText(maps, LowerCase(key), EffectiveShift(shiftKey, s.capsLock));
      var r := Run(maps, s, [KeyDown(key, shiftKey, false, false, false),
                             KeyDown("Backspace", false, false, false, false)]);
      r.output == s.output <==> |typed| == 1
  {
    var typed := MappedText(maps, LowerCase(key), EffectiveShift(shiftKey, s.capsLock));
    var s1 := KeyDownState(maps, s, key, shiftKey);
    assert s1.output == s.output + typed;
    var bk := LowerCase("Backspace");
    assert bk[0] == 'b';
    assert !IsModifier(bk);
    var s2 := KeyDownState(maps, s1, "Backspace", false);
    assert s2.output == (s.output + typed)[..|s.output| + |typed| - 1];
    var events := [KeyDown(key, shiftKey, false, false, false),
                   KeyDown("Backspace", false, false, false, false)];
    assert events[1..] == [KeyDown("Backspace", false, false, false, false)];
    assert Run(maps, s, events) == Run(maps, s1, events[1..]);
    assert Run(maps, s1, events[1..]) == s2;
    if |typed| == 1 {
      assert s2.output == s.output;
    } else {
      assert |s2.output| > |s.output|;
    }
  }

  // ---------------------------------------------------------------------------
  // Sequences of events

  /** The number of Caps Lock key-down events. */
  function CapsLockPresses(events: seq<Event>): nat
  {
    if events == [] then 0
    else (if events[0].KeyDown? && LowerCase(events[0].key) == "capslock" then 1 else 0)
         + CapsLockPresses(events[1..])
  }

  /** Caps Lock ends up flipped exactly when it was pressed an odd number of times. */
  lemma {:induction false} CapsLockParity(maps: KeyMaps, s: State, events: seq<Event>)
    ensures Run(maps, s, events).capsLock == (s.capsLock != (CapsLockPresses(events) % 2 == 1))
    decreases |events|
  {
    if events != [] {
      CapsLockParity(maps, Step(maps, s, events[0]), events[1..]);
    }
  }

  /** What a single event says about Shift: pressed, released or nothing. */
  function ShiftEffect(e: Event): Option<bool>
  {
    match e
    case KeyDown(key, _, _, _, _) => if LowerCase(key) == "shift" then Some(true) else None
    case KeyUp(key) => if LowerCase(key) == "shift" then Some(false) else None
  }

  /** The effect of the last Shift event of a sequence, if there is one. */
  function LastShiftEffect(events: seq<Event>): Option<bool>
  {
    if events == [] then None
    else match LastShiftEffect(events[1..])
      case Some(b) => Some(b)
      case None => ShiftEffect(events[0])
  }

  /** The Shift flag follows the last Shift press or release, and is left as
      it was by a sequence without one. */
  lemma {:induction false} ShiftFollowsLastShiftEvent(maps: KeyMaps, s: State, events: seq<Event>)
    ensures Run(maps, s, events).shiftActive ==
            match LastShiftEffect(events) case Some(b) => b case None => s.shiftActive
    decreases |events|
  {
    if events != [] {
      ShiftFollowsLastShiftEvent(maps, Step(maps, s, events[0]), events[1..]);
    }
  }

  /** Key-down events for a list of keys, all with the same Shift and no
      Control, Alt or Meta. */
  function Presses(keys: seq<string>, shiftKey: bool): seq<Event>
  {
    if keys == [] then [] else [KeyDown(keys[0], shiftKey, false, false, false)] + Presses(keys[1..], shiftKey)
  }

  /** The Urdu text of a list of character keys, key by key. */
  function Transliterate(maps: KeyMaps, keys: seq<string>, isShift: bool): string
  {
    if keys == [] then "" else MappedText(maps, LowerCase(keys[0]), isShift) + Transliterate(maps, keys[1..], isShift)
  }

  /** Typing character keys appends their mapped texts in order and leaves
      both flags as they were. */
  lemma {:induction false} TypingAppendsMappedText(maps: KeyMaps, s: State, keys: seq<string>, shiftKey: bool)
    requires forall i :: 0 <= i < |keys| ==> Classify(maps, keys[i]) == Character
    ensures Run(maps, s, Presses(keys, shiftKey)) ==
            s.(output := s.output + Transliterate(maps, keys, EffectiveShift(shiftKey, s.capsLock)))
    decreases |keys|
  {
    if keys != [] {
      var isShift := EffectiveShift(shiftKey, s.capsLock);
      var k := keys[0];
      var s1 := Step(maps, s, KeyDown(k, shiftKey, false, false, false));
      CtrlStillTypes(maps, s, k, shiftKey, false, false, false);
      assert Presses(keys, shiftKey)[1..] == Presses(keys[1..], shiftKey);
      TypingAppendsMappedText(maps, s1, keys[1..], shiftKey);
      assert s1.output + Transliterate(maps, keys[1..], isShift) ==
             s.output + Transliterate(maps, keys, isShift);
    }
  }

  /** Without Backspace the old text stays a prefix: text only grows. */
  lemma {:induction false} WithoutBackspaceTextGrows(maps: KeyMaps, s: State, events: seq<Event>)
    requires forall i :: 0 <= i < |events| ==> events[i].KeyDown? ==> events[i].key != "Backspace"
    ensures s.output <= Run(maps, s, events).output
    decreases |events|
  {
    if events != [] {
      var s1 := Step(maps, s, events[0]);
      assert s.output <= s1.output;
      WithoutBackspaceTextGrows(maps, s1, events[1..]);
    }
  }

  /** A short session on a one-key table: "a", Shift down, "A" with Shift held,
      Shift up, "a" types alef, alef madda, alef. */
  lemma DemoSession()
    ensures var maps := KeyMaps(map["a" := "\U{0627}"], map["a" := "\U{0622}"], map[]);
      Run(maps, Initial, [KeyDown("a", false, false, false, false),
                          KeyDown("Shift", true, false, false, false),
                          KeyDown("A", true, false, false, false),
                          KeyUp("Shift"),
                          KeyDown("a", false, false, false, false)])
      == State("\U{0627}\U{0622}\U{0627}", false, false)
  {
    var maps := KeyMaps(map["a" := "\U{0627}"], map["a" := "\U{0622}"], map[]);
    assert LowerCase("a") == "a";
    assert LowerCase("A") == "a";
    assert LowerCase("Shift") == "shift";
    var s1 := Step(maps, Initial, KeyDown("a", false, false, false, false));
    assert s1 == State("\U{0627}", false, false);
    var s2 := Step(maps, s1, KeyDown("Shift", true, false, false, false));
    assert s2 == State("\U{0627}", true, false);
    var s3 := Step(maps, s2, KeyDown("A", true, false, false, false));
    assert s3 == State("\U{0627}\U{0622}", true, false);
    var s4 := Step(maps, s3, KeyUp("Shift"));
    assert s4 == State("\U{0627}\U{0622}", false, false);
    var s5 := Step(maps, s4, KeyDown("a", false, false, false, false));
    assert s5 == State("\U{0627}\U{0622}\U{0627}", false, false);
  }
}
