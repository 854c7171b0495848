/** Hexadecimal digits, as JSON and percent escapes use them. */
module Hex {
  import opened Basics
  import opened Text

  function HexDigit(d: nat): char
    requires d < 16
  {
    if d < 10 then (d + 48) as char else (d + 87) as char
  }

  function HexValue(c: char): (v: Option<nat>)
    ensures v.Some? ==> v.value < 16
  {
    if '0' <= c <= '9' then Some(c as int - 48)
    else if 'a' <= c <= 'f' then Some(c as int - 87)
    else if 'A' <= c <= 'F' then Some(c as int - 55)
    else None
  }

  lemma HexRoundTrip(d: nat)
    requires d < 16
    ensures HexValue(HexDigit(d)) == Some(d)
  {
  }

  const DIGITS := "0123456789abcdef"

  /** The digits, and that a character reads as a value exactly when it is its digit
      in either case. */
  lemma DigitMeaning(c: char, v: nat)
    requires v < 16
    ensures HexDigit(v) == DIGITS[v]
    ensures HexValue(c) == Some(v) <==> LowerChar(c) == DIGITS[v]
  {
  }
}
