/** JSON objects with string and integer members, as Go's encoding/json prints and
    reads them (sections 4 to 7 of RFC 8259), over ASCII text. */
module Json {
  import opened Basics
  import opened Hex
  import opened Text
  import opened Decimals

  predicate Ascii(s: string) {
    forall k :: 0 <= k < |s| ==> s[k] as int < 128
  }

  datatype Value = Null | Bool(b: bool) | Number(n: int) | String(s: string)

  // ------------------------------------------------------------- printing

  /** Quotes, backslashes, control characters and the three characters that are
      special in HTML are escaped. */
  function EscapeChar(c: char): string
    requires c as int < 128
  {
    if c == '"' || c == '\\' then ['\\', c]
    else if c as int == 8 then "\\b"
    else if c as int == 12 then "\\f"
    else if c == '\n' then "\\n"
    else if c == '\r' then "\\r"
    else if c == '\t' then "\\t"
    else if c as int < 32 || c == '<' || c == '>' || c == '&' then
      ['\\', 'u', '0', '0', HexDigit(c as int / 16), HexDigit(c as int % 16)]
    else [c]
  }

  function Escape(s: string): string
    requires Ascii(s)
  {
    if s == [] then [] else EscapeChar(s[0]) + Escape(s[1..])
  }

  function Quote(s: string): string
    requires Ascii(s)
  {
    ['"'] + Escape(s) + ['"']
  }

  // -------------------------------------------------------------- reading

  predicate IsJsonSpace(c: char) {
    c == ' ' || c == '\t' || c == '\n' || c == '\r'
  }

  function SkipSpace(s: string): (r: string)
    ensures |r| <= |s|
  {
    if s != [] && IsJsonSpace(s[0]) then SkipSpace(s[1..]) else s
  }

  /** The character of a four-digit escape; surrogates become U+FFFD. */
  function ReadHex(s: string): Option<char>
    requires |s| >= 4
  {
    var (a, b, c, d) := (HexValue(s[0]), HexValue(s[1]), HexValue(s[2]), HexValue(s[3]));
    if a.None? || b.None? || c.None? || d.None? then None
    else
      var code := ((a.value * 16 + b.value) * 16 + c.value) * 16 + d.value;
      if 0 <= code < 0xD800 || 0xE000 <= code < 0x10000 then Some(code as char) else Some('\U{FFFD}')
  }

  function UnescapeShort(c: char): Option<char> {
    if c == '"' || c == '\\' || c == '/' then Some(c)
    else if c == 'b' then Some(8 as char)
    else if c == 'f' then Some(12 as char)
    else if c == 'n' then Some('\n')
    else if c == 'r' then Some('\r')
    else if c == 't' then Some('\t')
    else None
  }

  /** Reads one possibly escaped character. */
  function ReadChar(s: string): (r: Option<(char, string)>)
    requires s != []
    ensures r.Some? ==> |r.value.1| < |s|
  {
    if s[0] == '\\' then
      if |s| >= 6 && s[1] == 'u' then
        match ReadHex(s[2..6])
        case None => None
        case Some(c) => Some((c, s[6..]))
      else if |s| >= 2 then
        match UnescapeShort(s[1])
        case None => None
        case Some(c) => Some((c, s[2..]))
      else None
    else if s[0] as int < 32 then None
    else Some((s[0], s[1..]))
  }

  /** Reads a string after its opening quote. */
  function ReadString(s: string): (r: Option<(string, string)>)
    ensures r.Some? ==> |r.value.1| < |s|
    decreases |s|
  {
    if s == [] then None
    else if s[0] == '"' then Some(([], s[1..]))
    else match ReadChar(s)
      case None => None
      case Some((c, rest)) =>
        match ReadString(rest)
        case None => None
        case Some((tail, after)) => Some(([c] + tail, after))
  }

  function ReadNumber(s: string): (r: Option<(int, string)>)
    ensures r.Some? ==> |r.value.1| < |s|
  {
    if s == [] then None
    else if s[0] == '-' then
      match ReadNatural(s[1..])
      case None => None
      case Some((n, rest)) => Some((-n, rest))
    else ReadNatural(s)
  }

  /** No leading zeros; what follows the digits is the caller's business. */
  function ReadNatural(s: string): (r: Option<(int, string)>)
    ensures r.Some? ==> |r.value.1| < |s|
  {
    if s == [] || !IsDigit(s[0]) then None
    else if s[0] == '0' then Some((0, s[1..]))
    else
      var (n, rest) := ReadDigits(s[1..], s[0] as int - 48);
      Some((n, rest))
  }

  function ReadValue(s: string): (r: Option<(Value, string)>)
    ensures r.Some? ==> |r.value.1| < |s|
  {
    if s == [] then None
    else if s[0] == '"' then
      match ReadString(s[1..])
      case None => None
      case Some((text, rest)) => Some((String(text), rest))
    else if "null" <= s then Some((Null, s[4..]))
    else if "true" <= s then Some((Bool(true), s[4..]))
    else if "false" <= s then Some((Bool(false), s[5..]))
    else
      match ReadNumber(s)
      case None => None
      case Some((n, rest)) => Some((Number(n), rest))
  }

  /** Reads `"name" :` and leaves what follows, spaces skipped. */
  function ReadName(s: string): (r: Option<(string, string)>)
    ensures r.Some? ==> |r.value.1| < |s|
  {
    if s == [] || s[0] != '"' then None
    else match ReadString(s[1..])
      case None => None
      case Some((name, rest)) =>
        var colon := SkipSpace(rest);
        if colon == [] || colon[0] != ':' then None else Some((name, SkipSpace(colon[1..])))
  }

  /** Reads `"name" : value` and leaves what follows, spaces skipped. */
  function ReadMember(s: string): (r: Option<((string, Value), string)>)
    ensures r.Some? ==> |r.value.1| < |s|
  {
    match ReadName(s)
    case None => None
    case Some((name, rest)) =>
      match ReadValue(rest)
      case None => None
      case Some((value, after)) => Some(((name, value), SkipSpace(after)))
  }

  /** Reads the members of an object after its opening brace, up to the end. */
  function ReadMembers(s: string): Option<seq<(string, Value)>>
    decreases |s|
  {
    match ReadMember(s)
    case None => None
    case Some((member, rest)) =>
      if rest == [] then None
      else if rest[0] == '}' then
        if SkipSpace(rest[1..]) == [] then Some([member]) else None
      else if rest[0] == ',' then
        match ReadMembers(SkipSpace(rest[1..]))
        case None => None
        case Some(members) => Some([member] + members)
      else None
  }

  function ReadObject(s: string): Option<seq<(string, Value)>> {
    var start := SkipSpace(s);
    if start == [] || start[0] != '{' then None
    else
      var body := SkipSpace(start[1..]);
      if body != [] && body[0] == '}' then
        if SkipSpace(body[1..]) == [] then Some([]) else None
      else ReadMembers(body)
  }

  // --------------------------------------------------------------- lemmas

  lemma EscapeCharRoundTrip(c: char, rest: string)
    requires c as int < 128
    ensures EscapeChar(c)[0] != '"'
    ensures ReadChar(EscapeChar(c) + rest) == Some((c, rest))
  {
    var s := EscapeChar(c) + rest;
    var n := |EscapeChar(c)|;
    assert s[n..] == rest;
    if n == 6 {
      HexRoundTrip(c as int / 16);
      HexRoundTrip(c as int % 16);
      assert s[2..6] == EscapeChar(c)[2..];
    }
  }

  /** Reading a quoted string gives the string back, and the text after it. */
  lemma {:induction false} QuoteRoundTrip(x: string, rest: string)
    requires Ascii(x)
    ensures ReadString(Escape(x) + ['"'] + rest) == Some((x, rest))
  {
    var s := Escape(x) + ['"'] + rest;
    if x == [] {
      assert s[1..] == rest;
    } else {
      var tail := Escape(x[1..]) + ['"'] + rest;
      assert s == EscapeChar(x[0]) + tail;
      EscapeCharRoundTrip(x[0], tail);
      QuoteRoundTrip(x[1..], rest);
      assert [x[0]] + x[1..] == x;
    }
  }

  lemma NumberRoundTrip(n: int, rest: string)
    requires rest != [] && !IsDigit(rest[0])
    ensures ReadValue(Decimal(n) + rest) == Some((Number(n), rest))
  {
    var text := Decimal(n) + rest;
    SignedRoundTrip(n, rest);
    DecimalShape(if n < 0 then -n else n);
    assert text[0] == '-' || IsDigit(text[0]);
  }

  lemma SignedRoundTrip(n: int, rest: string)
    requires rest != [] && !IsDigit(rest[0])
    ensures ReadNumber(Decimal(n) + rest) == Some((n, rest))
  {
    var m := if n < 0 then -n else n;
    NaturalRoundTrip(m, rest);
    if n < 0 {
      assert (Decimal(n) + rest)[1..] == DecimalNat(m) + rest;
    } else {
      DecimalShape(m);
    }
  }

  lemma NaturalRoundTrip(m: nat, rest: string)
    requires rest != [] && !IsDigit(rest[0])
    ensures ReadNatural(DecimalNat(m) + rest) == Some((m, rest))
  {
    DecimalShape(m);
    ReadDecimal(m, rest);
    var s := DecimalNat(m) + rest;
    if m == 0 {
      assert s[1..] == rest;
    } else {
      assert ReadDigits(s, 0) == ReadDigits(s[1..], s[0] as int - 48);
    }
  }

  predicate StartsText(s: string) {
    s != [] && !IsJsonSpace(s[0])
  }

  lemma NameRoundTrip(name: string, rest: string)
    requires Ascii(name) && StartsText(rest)
    ensures ReadName(Quote(name) + ":" + rest) == Some((name, rest))
  {
    var s := Quote(name) + ":" + rest;
    var colon := ":" + rest;
    assert s[1..] == Escape(name) + ['"'] + colon;
    QuoteRoundTrip(name, colon);
    assert colon[1..] == rest;
  }

  /** A member whose value text reads as `value`. */
  lemma MemberRoundTrip(name: string, text: string, value: Value, rest: string)
    requires Ascii(name) && StartsText(text + rest) && StartsText(rest)
    requires ReadValue(text + rest) == Some((value, rest))
    ensures ReadMember(Quote(name) + ":" + text + rest) == Some(((name, value), rest))
  {
    assert Quote(name) + ":" + text + rest == Quote(name) + ":" + (text + rest);
    NameRoundTrip(name, text + rest);
  }

  lemma StringMember(name: string, value: string, rest: string)
    requires Ascii(name) && Ascii(value) && StartsText(rest)
    ensures ReadMember(Quote(name) + ":" + Quote(value) + rest) == Some(((name, String(value)), rest))
  {
    var text := Quote(value) + rest;
    assert text[1..] == Escape(value) + ['"'] + rest;
    QuoteRoundTrip(value, rest);
    MemberRoundTrip(name, Quote(value), String(value), rest);
  }

  lemma NumberMember(name: string, n: int, rest: string)
    requires Ascii(name) && StartsText(rest) && !IsDigit(rest[0])
    ensures ReadMember(Quote(name) + ":" + Decimal(n) + rest) == Some(((name, Number(n)), rest))
  {
    NumberRoundTrip(n, rest);
    DecimalShape(if n < 0 then -n else n);
    MemberRoundTrip(name, Decimal(n), Number(n), rest);
  }
}
