/** Lines of text. */
module Text {

  /** The position of the first newline, or the length of the text. */
  function FindNewline(text: string): (i: nat)
    ensures i <= |text|
    ensures forall k :: 0 <= k < i ==> text[k] != '\n'
    ensures i < |text| ==> text[i] == '\n'
  {
    if text == "" || text[0] == '\n' then 0 else 1 + FindNewline(text[1..])
  }
}
