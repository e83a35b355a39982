/**
 * Keyboard events as the pages see them: `event.key` and `event.keyCode`, the TV-remote
 * key-code mapping the handlers apply first (ymt/js/navigation.js and ymt/player.js carry
 * the same mapping), and the digit test `key >= '0' && key <= '9'`, which JavaScript
 * evaluates as a comparison of strings.
 */
module KeyEvents {
  import opened JsBuiltins
  import opened JsArrays

  /** `event.key` and `event.keyCode` (0 where a browser reports none). */
  datatype KeyEvent = KeyEvent(key: string, keyCode: int)

  /** The key after the remote mapping: 13 is Enter, 37-40 are the arrows, and 8, 27 and
      461 are Back; any other code keeps `event.key`. */
  function RemoteKey(e: KeyEvent): (key: string)
    ensures e.keyCode == 13 ==> key == "Enter"
    ensures e.keyCode == 8 || e.keyCode == 27 || e.keyCode == 461 ==> key == "Back"
    ensures e.keyCode !in {8, 13, 27, 37, 38, 39, 40, 461} ==> key == e.key
  {
    if e.keyCode == 8 || e.keyCode == 27 || e.keyCode == 461 then "Back"
    else if e.keyCode == 40 then "ArrowDown"
    else if e.keyCode == 39 then "ArrowRight"
    else if e.keyCode == 38 then "ArrowUp"
    else if e.keyCode == 37 then "ArrowLeft"
    else if e.keyCode == 13 then "Enter"
    else e.key
  }

  lemma RemoteArrows(e: KeyEvent)
    ensures e.keyCode == 37 ==> RemoteKey(e) == "ArrowLeft"
    ensures e.keyCode == 38 ==> RemoteKey(e) == "ArrowUp"
    ensures e.keyCode == 39 ==> RemoteKey(e) == "ArrowRight"
    ensures e.keyCode == 40 ==> RemoteKey(e) == "ArrowDown"
  {
  }

  /** `key >= '0' && key <= '9'` on strings: code-unit order, a prefix sorting first. */
  predicate DigitRange(key: string)
  {
    !StrLess(key, "0") && !StrLess("9", key)
  }

  /** The string test admits exactly the texts that start with '0'..'8', and "9" alone; on
      a one-character key it is the digit test. */
  lemma DigitRangeChars(key: string)
    ensures DigitRange(key) <==>
      key != [] && IsDecimalDigit(key[0]) && (key[0] == '9' ==> |key| == 1)
    ensures |key| == 1 ==> (DigitRange(key) <==> IsDecimalDigit(key[0]))
  {
    var zero, nine := "0", "9";
    assert zero[0] == '0' && zero[1..] == [] && nine[0] == '9' && nine[1..] == [];
    if key != [] {
      assert !StrLess(key[1..], zero[1..]);
      assert StrLess(nine[1..], key[1..]) <==> key[1..] != [];
    }
  }
}
