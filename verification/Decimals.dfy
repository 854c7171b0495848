/** Integers in decimal notation. */
module Decimals {

  predicate IsDigit(c: char) { '0' <= c <= '9' }

  function Digit(d: nat): char
    requires d < 10
  {
    (d + 48) as char
  }

  function DecimalNat(n: nat): string {
    if n < 10 then [Digit(n)] else DecimalNat(n / 10) + [Digit(n % 10)]
  }

  function Decimal(n: int): string {
    if n < 0 then "-" + DecimalNat(-n) else DecimalNat(n)
  }

  /** Reads digits as long as there are any; returns the number and the rest. */
  function ReadDigits(s: string, soFar: nat): (r: (nat, string))
    ensures |r.1| <= |s|
  {
    if s != [] && IsDigit(s[0]) then ReadDigits(s[1..], soFar * 10 + (s[0] as int - 48)) else (soFar, s)
  }

  lemma {:induction false} ReadDecimal(n: nat, rest: string)
    ensures ReadDigits(DecimalNat(n) + rest, 0) == ReadDigits(rest, n)
  {
    if n < 10 {
      assert (DecimalNat(n) + rest)[1..] == rest;
    } else {
      var last := [Digit(n % 10)];
      ReadDecimal(n / 10, last + rest);
      assert DecimalNat(n) + rest == DecimalNat(n / 10) + (last + rest);
      assert (last + rest)[1..] == rest;
    }
  }

  lemma {:induction false} DecimalShape(n: nat)
    ensures DecimalNat(n) != [] && (n > 0 ==> DecimalNat(n)[0] != '0')
    ensures forall k :: 0 <= k < |DecimalNat(n)| ==> IsDigit(DecimalNat(n)[k])
  {
    if n >= 10 {
      DecimalShape(n / 10);
    }
  }

  lemma DecimalIsInjective(m: int, n: int)
    requires Decimal(m) == Decimal(n)
    ensures m == n
  {
    var a, b := if m < 0 then -m else m, if n < 0 then -n else n;
    DecimalShape(a);
    DecimalShape(b);
    ReadDecimal(a, "");
    ReadDecimal(b, "");
    assert DecimalNat(a) + "" == DecimalNat(a) && DecimalNat(b) + "" == DecimalNat(b);
    if m < 0 {
      assert Decimal(m)[1..] == DecimalNat(a);
    }
    if n < 0 {
      assert Decimal(n)[1..] == DecimalNat(b);
    }
  }
}
