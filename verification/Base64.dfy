/** Base64 as Go's encoding/base64 reads and writes it: the standard alphabet
    (section 4 of RFC 4648) and the URL-safe one (section 5), with padding or
    without (section 3.2). */
module Base64 {
  import opened Basics
  import opened Text

  type Byte = x: int | 0 <= x < 256
  type Sextet = x: int | 0 <= x < 64

  datatype Encoding = Encoding(urlSafe: bool, padded: bool)

  const RAW_URL := Encoding(true, false)
  const STANDARD := Encoding(false, true)
  const RAW_STANDARD := Encoding(false, false)

  function Symbol(e: Encoding, v: Sextet): char {
    if v < 26 then (v + 65) as char
    else if v < 52 then (v + 71) as char
    else if v < 62 then (v - 4) as char
    else if v == 62 then (if e.urlSafe then '-' else '+')
    else (if e.urlSafe then '_' else '/')
  }

  function ValueOf(e: Encoding, c: char): Option<Sextet> {
    if 'A' <= c <= 'Z' then Some(c as int - 65)
    else if 'a' <= c <= 'z' then Some(c as int - 71)
    else if '0' <= c <= '9' then Some(c as int + 4)
    else if c == (if e.urlSafe then '-' else '+') then Some(62)
    else if c == (if e.urlSafe then '_' else '/') then Some(63)
    else None
  }

  function Padding(e: Encoding, n: nat): string {
    if !e.padded then "" else if n == 1 then "=" else "=="
  }

  function Encode(e: Encoding, data: seq<Byte>): string {
    if |data| == 0 then ""
    else if |data| == 1 then
      [Symbol(e, data[0] / 4), Symbol(e, data[0] % 4 * 16)] + Padding(e, 2)
    else if |data| == 2 then
      [Symbol(e, data[0] / 4), Symbol(e, data[0] % 4 * 16 + data[1] / 16), Symbol(e, data[1] % 16 * 4)]
      + Padding(e, 1)
    else
      [Symbol(e, data[0] / 4), Symbol(e, data[0] % 4 * 16 + data[1] / 16),
       Symbol(e, data[1] % 16 * 4 + data[2] / 64), Symbol(e, data[2] % 64)]
      + Encode(e, data[3..])
  }

  /** The bytes of a group of up to four sextets; leftover bits are ignored. */
  function Bytes(a: Sextet, b: Sextet, c: Sextet, d: Sextet): (Byte, Byte, Byte) {
    (a * 4 + b / 16, b % 16 * 16 + c / 4, c % 4 * 64 + d)
  }

  function WithoutNewlines(s: string): string {
    if s == [] then []
    else (if s[0] == '\n' || s[0] == '\r' then [] else [s[0]]) + WithoutNewlines(s[1..])
  }

  /** A text without line ends. The last group may be short: marked with '=' when
      the encoding is padded, unmarked otherwise. */
  function DecodeLine(e: Encoding, s: string): Option<seq<Byte>> {
    if s == [] then Some([])
    else if |s| == 1 then None
    else
      var a, b := ValueOf(e, s[0]), ValueOf(e, s[1]);
      if a.None? || b.None? then None
      else if |s| == 2 then
        if e.padded then None else Some([Bytes(a.value, b.value, 0, 0).0])
      else if e.padded && s[2] == '=' then
        if s[3..] == "=" then Some([Bytes(a.value, b.value, 0, 0).0]) else None
      else
        var c := ValueOf(e, s[2]);
        if c.None? then None
        else
          var two := Bytes(a.value, b.value, c.value, 0);
          if |s| == 3 then
            if e.padded then None else Some([two.0, two.1])
          else if e.padded && s[3] == '=' then
            if |s| == 4 then Some([two.0, two.1]) else None
          else
            var d := ValueOf(e, s[3]);
            var rest := DecodeLine(e, s[4..]);
            if d.None? || rest.None? then None
            else
              var three := Bytes(a.value, b.value, c.value, d.value);
              Some([three.0, three.1, three.2] + rest.value)
  }

  function Decode(e: Encoding, s: string): Option<seq<Byte>> {
    DecodeLine(e, WithoutNewlines(s))
  }

  // -------------------------------------------------------------- lemmas

  lemma SymbolRoundTrip(e: Encoding, v: Sextet)
    ensures ValueOf(e, Symbol(e, v)) == Some(v)
  {
  }

  predicate UrlSafe(c: char) {
    'A' <= c <= 'Z' || 'a' <= c <= 'z' || '0' <= c <= '9' || c == '-' || c == '_'
  }

  predicate Printable(s: string) {
    forall k :: 0 <= k < |s| ==> s[k] != '\n' && s[k] != '\r' && !IsSpace(s[k])
  }

  lemma SymbolIsPrintable(e: Encoding, v: Sextet)
    ensures !IsSpace(Symbol(e, v))
  {
  }

  lemma {:induction false} EncodedIsPrintable(e: Encoding, data: seq<Byte>)
    ensures Printable(Encode(e, data))
    ensures data != [] ==> Encode(e, data) != []
  {
    if |data| > 0 {
      SymbolIsPrintable(e, data[0] / 4);
      SymbolIsPrintable(e, data[0] % 4 * 16);
    }
    if |data| > 1 {
      SymbolIsPrintable(e, data[0] % 4 * 16 + data[1] / 16);
      SymbolIsPrintable(e, data[1] % 16 * 4);
    }
    if |data| > 2 {
      SymbolIsPrintable(e, data[1] % 16 * 4 + data[2] / 64);
      SymbolIsPrintable(e, data[2] % 64);
      EncodedIsPrintable(e, data[3..]);
    }
  }

  /** The URL-safe form without padding needs no escaping, and holds no '.'. */
  lemma {:induction false} EncodedIsUrlSafe(data: seq<Byte>)
    ensures forall k :: 0 <= k < |Encode(RAW_URL, data)| ==> UrlSafe(Encode(RAW_URL, data)[k])
  {
    if |data| > 2 {
      EncodedIsUrlSafe(data[3..]);
    }
  }

  lemma {:induction false} PrintableIsOneLine(s: string)
    requires Printable(s)
    ensures WithoutNewlines(s) == s
  {
    if s != [] {
      PrintableIsOneLine(s[1..]);
      assert [s[0]] + s[1..] == s;
    }
  }

  lemma BytesOfOne(x: Byte)
    ensures Bytes(x / 4, x % 4 * 16, 0, 0).0 == x
  {
  }

  lemma BytesOfTwo(x: Byte, y: Byte)
    ensures Bytes(x / 4, x % 4 * 16 + y / 16, y % 16 * 4, 0).0 == x
    ensures Bytes(x / 4, x % 4 * 16 + y / 16, y % 16 * 4, 0).1 == y
  {
  }

  lemma BytesOfThree(x: Byte, y: Byte, z: Byte)
    ensures Bytes(x / 4, x % 4 * 16 + y / 16, y % 16 * 4 + z / 64, z % 64) == (x, y, z)
  {
  }

  lemma SymbolIsNotPadding(e: Encoding, v: Sextet)
    ensures Symbol(e, v) != '='
  {
  }

  lemma DecodePair(e: Encoding, a: Sextet, b: Sextet)
    ensures DecodeLine(e, [Symbol(e, a), Symbol(e, b)] + Padding(e, 2)) == Some([Bytes(a, b, 0, 0).0])
  {
    SymbolRoundTrip(e, a);
    SymbolRoundTrip(e, b);
    var s := [Symbol(e, a), Symbol(e, b)] + Padding(e, 2);
    if e.padded {
      assert s[3..] == "=";
    }
  }

  lemma DecodeTriple(e: Encoding, a: Sextet, b: Sextet, c: Sextet)
    ensures DecodeLine(e, [Symbol(e, a), Symbol(e, b), Symbol(e, c)] + Padding(e, 1))
         == Some([Bytes(a, b, c, 0).0, Bytes(a, b, c, 0).1])
  {
    SymbolRoundTrip(e, a);
    SymbolRoundTrip(e, b);
    SymbolRoundTrip(e, c);
    SymbolIsNotPadding(e, c);
  }

  /** A full group decodes to three bytes, before whatever follows. */
  lemma DecodeGroup(e: Encoding, a: Sextet, b: Sextet, c: Sextet, d: Sextet, rest: string)
    ensures DecodeLine(e, [Symbol(e, a), Symbol(e, b), Symbol(e, c), Symbol(e, d)] + rest)
         == match DecodeLine(e, rest)
            case None => None
            case Some(data) =>
              var three := Bytes(a, b, c, d);
              Some([three.0, three.1, three.2] + data)
  {
    SymbolRoundTrip(e, a);
    SymbolRoundTrip(e, b);
    SymbolRoundTrip(e, c);
    SymbolRoundTrip(e, d);
    SymbolIsNotPadding(e, c);
    SymbolIsNotPadding(e, d);
    assert ([Symbol(e, a), Symbol(e, b), Symbol(e, c), Symbol(e, d)] + rest)[4..] == rest;
  }

  lemma DecodeGroupOf(e: Encoding, data: seq<Byte>, rest: string)
    requires |data| > 2
    ensures DecodeLine(e, Encode(e, data[..3]) + rest)
         == match DecodeLine(e, rest)
            case None => None
            case Some(tail) => Some(data[..3] + tail)
  {
    var x, y, z := data[0], data[1], data[2];
    BytesOfThree(x, y, z);
    DecodeGroup(e, x / 4, x % 4 * 16 + y / 16, y % 16 * 4 + z / 64, z % 64, rest);
    assert data[..3] == [x, y, z];
    assert data[..3][3..] == [];
  }

  lemma EncodeGroups(e: Encoding, data: seq<Byte>)
    requires |data| > 2
    ensures Encode(e, data) == Encode(e, data[..3]) + Encode(e, data[3..])
  {
    assert data[..3][3..] == [];
  }

  lemma DecodeOne(e: Encoding, x: Byte)
    ensures DecodeLine(e, Encode(e, [x])) == Some([x])
  {
    BytesOfOne(x);
    DecodePair(e, x / 4, x % 4 * 16);
  }

  lemma DecodeTwo(e: Encoding, x: Byte, y: Byte)
    ensures DecodeLine(e, Encode(e, [x, y])) == Some([x, y])
  {
    BytesOfTwo(x, y);
    DecodeTriple(e, x / 4, x % 4 * 16 + y / 16, y % 16 * 4);
  }

  lemma {:induction false} DecodeLineOfEncode(e: Encoding, data: seq<Byte>)
    ensures DecodeLine(e, Encode(e, data)) == Some(data)
  {
    if |data| == 1 {
      assert data == [data[0]];
      DecodeOne(e, data[0]);
    } else if |data| == 2 {
      assert data == [data[0], data[1]];
      DecodeTwo(e, data[0], data[1]);
    } else if |data| > 2 {
      EncodeGroups(e, data);
      DecodeLineOfEncode(e, data[3..]);
      DecodeGroupOf(e, data, Encode(e, data[3..]));
      assert data == data[..3] + data[3..];
    }
  }

  /** Decoding an encoding gives the data back, in every variant. */
  lemma DecodeOfEncode(e: Encoding, data: seq<Byte>)
    ensures Decode(e, Encode(e, data)) == Some(data)
  {
    EncodedIsPrintable(e, data);
    PrintableIsOneLine(Encode(e, data));
    DecodeLineOfEncode(e, data);
  }

  // ------------------------------------------------- alphabet and layout

  /** The alphabets of tables 1 and 2 of RFC 4648: capitals, small letters, digits,
      each in order, and two more. */
  lemma AlphabetMeaning(e: Encoding, v: Sextet)
    ensures Symbol(e, 0) == 'A' && Symbol(e, 25) == 'Z' && Symbol(e, 26) == 'a' && Symbol(e, 51) == 'z'
    ensures Symbol(e, 52) == '0' && Symbol(e, 61) == '9'
    ensures v < 61 && v !in {25, 51} ==> Symbol(e, v + 1) as int == Symbol(e, v) as int + 1
    ensures Symbol(STANDARD, 62) == '+' && Symbol(STANDARD, 63) == '/'
    ensures Symbol(RAW_STANDARD, 62) == '+' && Symbol(RAW_STANDARD, 63) == '/'
    ensures Symbol(RAW_URL, 62) == '-' && Symbol(RAW_URL, 63) == '_'
  {
  }

  /** A character has a value exactly when it is that value's symbol. */
  lemma ValueMeaning(e: Encoding, c: char, v: Sextet)
    ensures ValueOf(e, c) == Some(v) <==> Symbol(e, v) == c
  {
  }

  /** Three bytes and their four sextets are the same number of 24 bits, the first
      ones the most significant. */
  lemma GroupMeaning(e: Encoding, x: Byte, y: Byte, z: Byte, a: Sextet, b: Sextet, c: Sextet, d: Sextet)
    requires ((a * 64 + b) * 64 + c) * 64 + d == (x * 256 + y) * 256 + z
    ensures Encode(e, [x, y, z]) == [Symbol(e, a), Symbol(e, b), Symbol(e, c), Symbol(e, d)]
  {
    SextetsAreDetermined(x, y, z, a, b, c, d);
    assert [x, y, z][3..] == [];
  }

  lemma SextetsAreDetermined(x: Byte, y: Byte, z: Byte, a: Sextet, b: Sextet, c: Sextet, d: Sextet)
    requires ((a * 64 + b) * 64 + c) * 64 + d == (x * 256 + y) * 256 + z
    ensures a == x / 4 && b == x % 4 * 16 + y / 16 && c == y % 16 * 4 + z / 64 && d == z % 64
  {
  }

  /** One byte, or two, are encoded as if zeros followed, without the sextets that are
      then only zeros, which padding replaces. */
  lemma ShortGroupMeaning(e: Encoding, x: Byte, y: Byte)
    ensures Encode(e, [x]) == Encode(e, [x, 0, 0])[..2] + if e.padded then "==" else ""
    ensures Encode(e, [x, y]) == Encode(e, [x, y, 0])[..3] + if e.padded then "=" else ""
  {
    assert [x, 0, 0][3..] == [] && [x, y, 0][3..] == [];
  }
}
