/**
 The keyboard component: the session state lives in three mutable fields, and
 the key-down and key-up handlers update them in place. Each handler is proved
 against the reducer in module KeyLogic.
 */
module Keyboard {
  import opened KeyLogic

  class UrduKeyboard {
    const maps: KeyMaps
    var output: string
    var shiftActive: bool
    var capsLock: bool

    /** The fields, read as one session state. */
    function Session(): State
      reads this
    {
      State(output, shiftActive, capsLock)
    }

    constructor (maps: KeyMaps)
      ensures this.maps == maps
      ensures Session() == Initial
    {
      this.maps := maps;
      output := "";
      shiftActive := false;
      capsLock := false;
    }

    /** Handles a key-down event; `prevented` tells whether the browser's
        default action is suppressed. */
    method KeyDown(key: string, shiftKey: bool, ctrlKey: bool, altKey: bool, metaKey: bool)
      returns (prevented: bool)
      modifies this
      ensures Session() == KeyDownState(maps, old(Session()), key, shiftKey)
      ensures prevented == PreventsDefault(key, ctrlKey, altKey, metaKey)
      ensures EditsAtEnd(old(output), output)
      ensures IsModifier(LowerCase(key)) ==> !prevented && output == old(output)
      ensures !IsModifier(LowerCase(key)) ==>
                shiftActive == old(shiftActive) && capsLock == old(capsLock)
    {
      var keyLower := LowerCase(key);
      if IsModifier(keyLower) {
        if keyLower == "shift" {
          shiftActive := true;
        }
        if keyLower == "capslock" {
          capsLock := !capsLock;
        }
        prevented := false;
        return;
      }
      prevented := !ctrlKey && !altKey && !metaKey;
      if Truthy(maps.special, key) {
        HandleSpecialKey(key);
        return;
      }
      if |key| == 1 || keyLower in maps.urdu || keyLower in maps.shifted {
        HandleCharacterInput(keyLower, shiftKey || capsLock);
      }
    }

    /** Handles a key-up event: releasing Shift clears the Shift flag. */
    method KeyUp(key: string)
      modifies this
      ensures Session() == KeyUpState(old(Session()), key)
      ensures output == old(output) && capsLock == old(capsLock)
      ensures shiftActive == (old(shiftActive) && LowerCase(key) != "shift")
    {
      if LowerCase(key) == "shift" {
        shiftActive := false;
      }
    }

    /** Applies the editing action of a special key to the text. */
    method HandleSpecialKey(key: string)
      modifies this`output
      ensures output == SpecialEdit(key, old(output))
      ensures EditsAtEnd(old(output), output)
    {
      if key == "Backspace" {
        if output != "" {
          output := output[..|output| - 1];
        }
      } else if key == "Enter" {
        output := output + "\n";
      } else if key == "Tab" {
        output := output + "\t";
      } else if key == "Space" {
        output := output + " ";
      }
    }

    /** Appends the Urdu text mapped to a lowercased key, if there is any. */
    method HandleCharacterInput(key: string, isShift: bool)
      modifies this`output
      ensures output == old(output) + MappedText(maps, key, isShift)
    {
      var urduChar: string := "";
      if isShift && Truthy(maps.shifted, key) {
        urduChar := maps.shifted[key];
      } else if Truthy(maps.urdu, key) {
        urduChar := maps.urdu[key];
      }
      if urduChar != "" {
        output := output + urduChar;
      }
    }
  }
}
