/** Character classes of Python's `str`. */
module Characters {
  /** `str.isspace`, and what `str.strip` removes: the whitespace code points of Python's Unicode tables. */
  predicate IsSpace(c: char) {
    var p := c as int;
    || 0x09 <= p <= 0x0D
    || 0x1C <= p <= 0x20
    || p == 0x85 || p == 0xA0 || p == 0x1680
    || 0x2000 <= p <= 0x200A
    || p == 0x2028 || p == 0x2029 || p == 0x202F || p == 0x205F || p == 0x3000
  }

  /** The letters that case conversion of ASCII text pairs. */
  const SMALL := "abcdefghijklmnopqrstuvwxyz"
  const CAPITAL := "ABCDEFGHIJKLMNOPQRSTUVWXYZ"
  const DIGITS := "0123456789"

  lemma LetterCodes(c: char)
    ensures forall i :: 0 <= i < 26 ==> SMALL[i] as int == i + 97 && CAPITAL[i] as int == i + 65
    ensures 'a' <= c <= 'z' ==> c == SMALL[c as int - 97]
    ensures 'A' <= c <= 'Z' ==> c == CAPITAL[c as int - 65]
  {
  }

  lemma LetterRanges(c: char)
    ensures c in SMALL <==> 'a' <= c <= 'z'
    ensures c in CAPITAL <==> 'A' <= c <= 'Z'
    ensures c in DIGITS <==> '0' <= c <= '9'
  {
    LetterCodes(c);
    assert forall i :: 0 <= i < 26 ==> 'a' <= SMALL[i] <= 'z' && 'A' <= CAPITAL[i] <= 'Z';
    assert |SMALL| == 26 && |CAPITAL| == 26;
  }
}
