/**
  The on-screen keyboard of the mobile terminal (`VirtualKeyboard`): three
  layouts, a one-shot shift on the letter layout, the keys it hands to the
  terminal, the labels it draws, and the suggestion buttons that type a
  whole word.
 */
module VirtualKeyboard {
  import opened Wrappers
  import opened Text

  /** `keyboardLayouts`' three keys. */
  datatype Layout = Qwerty | Numbers | Symbols

  /** The keys that do not stand for themselves. */
  predicate IsSpecial(key: string)
  {
    key == "shift" || key == "backspace" || key == "enter" || key == "space" ||
    key == "123" || key == "#+=" || key == "ABC"
  }

  /** The key an ordinary key types: upper-cased while shift is on over
      the letter layout. */
  function Typed(layout: Layout, shift: bool, key: string): string
  {
    if shift && layout == Qwerty then Upper(key) else key
  }

  /** `handleKeyPress`, as the layout and shift after the press and the
      key handed to the terminal, if any. */
  function Press(layout: Layout, shift: bool, key: string): (r: (Layout, bool, Option<string>))
    ensures key == "shift" ==> r == (layout, !shift, None)
    ensures key == "123" ==> r == (Numbers, shift, None)
    ensures key == "#+=" ==> r == (Symbols, shift, None)
    ensures key == "ABC" ==> r == (Qwerty, shift, None)
    ensures key == "backspace" ==> r == (layout, shift, Some("Backspace"))
    ensures key == "enter" ==> r == (layout, shift, Some("Enter"))
    ensures key == "space" ==> r == (layout, shift, Some(" "))
    ensures !IsSpecial(key) ==> r.0 == layout && r.2 == Some(Typed(layout, shift, key))
    ensures !IsSpecial(key) ==> (r.1 <==> shift && layout != Qwerty)
  {
    if key == "shift" then (layout, !shift, None)
    else if key == "backspace" then (layout, shift, Some("Backspace"))
    else if key == "enter" then (layout, shift, Some("Enter"))
    else if key == "space" then (layout, shift, Some(" "))
    else if key == "123" then (Numbers, shift, None)
    else if key == "#+=" then (Symbols, shift, None)
    else if key == "ABC" then (Qwerty, shift, None)
    else (layout, shift && layout != Qwerty, Some(Typed(layout, shift, key)))
  }

  /** `getKeyLabel`: what the key shows. */
  function Label(layout: Layout, shift: bool, key: string): (s: string)
    ensures key == "shift" ==> s == "⇧"
    ensures key == "backspace" ==> s == "⌫"
    ensures key == "enter" ==> s == "↵"
    ensures key == "space" ==> s == "SPACE"
  {
    if key == "shift" then "⇧"
    else if key == "backspace" then "⌫"
    else if key == "enter" then "↵"
    else if key == "space" then "SPACE"
    else Typed(layout, shift, key)
  }

  /** An ordinary key shows exactly what pressing it types. */
  lemma LabelIsTyped(layout: Layout, shift: bool, key: string)
    requires !IsSpecial(key)
    ensures Press(layout, shift, key).2 == Some(Label(layout, shift, key))
  {
  }

  /** Shift is one-shot on the letter layout: after an ordinary key it is
      off, and a second ordinary key is typed as it is. */
  lemma ShiftIsOneShot(k1: string, k2: string)
    requires !IsSpecial(k1) && !IsSpecial(k2)
    ensures var r := Press(Qwerty, true, k1);
      r.2 == Some(Upper(k1)) && !r.1 && Press(r.0, r.1, k2).2 == Some(k2)
  {
  }

  /** The keyboard's state. */
  class Keyboard {
    var layout: Layout
    var shift: bool

    /** Letters, shift off. */
    constructor ()
      ensures layout == Qwerty && !shift
    {
      layout := Qwerty;
      shift := false;
    }

    /** `handleKeyPress`: the key handed to the terminal, if any. */
    method PressKey(key: string) returns (emitted: Option<string>)
      modifies this
      ensures (layout, shift, emitted) == Press(old(layout), old(shift), key)
    {
      match key
      case "shift" => shift := !shift; emitted := None;
      case "backspace" => emitted := Some("Backspace");
      case "enter" => emitted := Some("Enter");
      case "space" => emitted := Some(" ");
      case "123" => layout := Numbers; emitted := None;
      case "#+=" => layout := Symbols; emitted := None;
      case "ABC" => layout := Qwerty; emitted := None;
      case _ =>
        emitted := Some(if shift && layout == Qwerty then Upper(key) else key);
        if shift && layout == Qwerty {
          shift := false;
        }
    }
  }

  /** The suggestion buttons. */
  const SuggestionWords: seq<string> := ["help", "clear", "ls", "whoami", "status"]

  /** A suggestion button: each character of the word handed to the
      terminal on its own, in order, bypassing layout and shift. */
  method TypeWord(word: string) returns (keys: seq<string>)
    ensures |keys| == |word|
    ensures forall i :: 0 <= i < |word| ==> keys[i] == [word[i]]
    ensures Concat(keys) == word
  {
    keys := [];
    var k := 0;
    while k < |word|
      invariant 0 <= k <= |word|
      invariant |keys| == k
      invariant forall i :: 0 <= i < k ==> keys[i] == [word[i]]
      invariant Concat(keys) == word[..k]
    {
      ConcatAppend(keys, [word[k]]);
      keys := keys + [[word[k]]];
      assert word[..k + 1] == word[..k] + [word[k]];
      k := k + 1;
    }
    assert word[..|word|] == word;
  }

  /** The strings of `parts` written one after another. */
  function Concat(parts: seq<string>): string
  {
    if parts == [] then "" else Concat(parts[..|parts| - 1]) + parts[|parts| - 1]
  }

  lemma ConcatAppend(parts: seq<string>, s: string)
    ensures Concat(parts + [s]) == Concat(parts) + s
  {
    assert (parts + [s])[..|parts|] == parts;
  }
}
