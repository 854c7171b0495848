/** Favicons embedded in `data:` URLs (RFC 2397), as pkg/favicon/resolver.go reads
    them. */
module DataUrl {
  import opened Basics
  import opened Hex
  import opened Text
  import opened Base64

  const SCHEME := "data:"
  const BASE64_FLAG := "base64"
  const DEFAULT_TYPE := "application/octet-stream"

  datatype Asset = Asset(contentType: string, data: seq<Byte>)

  datatype Error =
    | EmptyUrl | InvalidUrl | EmptyBase64 | BadBase64 | BadEscape | EmptyPayload | TooLarge | UnsupportedType

  /** The first position of a character, or -1. */
  function IndexOf(s: string, c: char): (k: int)
    ensures -1 <= k < |s|
    ensures k == -1 <==> c !in s
    ensures k >= 0 ==> s[k] == c && c !in s[..k]
  {
    if s == [] then -1
    else if s[0] == c then 0
    else
      var k := IndexOf(s[1..], c);
      assert s == [s[0]] + s[1..];
      assert k >= 0 ==> s[..k + 1] == [s[0]] + s[1..][..k];
      if k < 0 then -1 else k + 1
  }

  predicate Contains(s: string, part: string) {
    exists k :: 0 <= k <= |s| && part <= s[k..]
  }

  predicate IsSupported(contentType: string) {
    var normalized := ToLower(TrimSpace(contentType));
    || normalized in {"", "application/octet-stream", "binary/octet-stream"}
    || "image/" <= normalized
    || Contains(normalized, "icon")
    || Contains(normalized, "svg")
  }

  // ------------------------------------------------------------ the payload

  /** The standard encoding, or else the one without padding. */
  function DecodeBase64(value: string): Result<seq<Byte>, Error> {
    var trimmed := TrimSpace(value);
    if trimmed == "" then Failure(EmptyBase64)
    else
      match Decode(STANDARD, trimmed)
      case Some(data) => Success(data)
      case None =>
        match Decode(RAW_STANDARD, trimmed)
        case Some(data) => Success(data)
        case None => Failure(BadBase64)
  }

  function ByteOf(c: char): Byte {
    c as int % 256
  }

  /** Percent escapes; every other character stands for itself. */
  function Unescape(s: string): Option<seq<Byte>> {
    if s == [] then Some([])
    else if s[0] != '%' then
      match Unescape(s[1..])
      case None => None
      case Some(rest) => Some([ByteOf(s[0])] + rest)
    else if |s| < 3 then None
    else
      var high, low := HexValue(s[1]), HexValue(s[2]);
      if high.None? || low.None? then None
      else match Unescape(s[3..])
        case None => None
        case Some(rest) => Some([ByteOf((high.value * 16 + low.value) as char)] + rest)
  }

  function DecodePayload(isBase64: bool, payload: string): Result<seq<Byte>, Error> {
    if isBase64 then DecodeBase64(payload)
    else match Unescape(payload)
      case Some(data) => Success(data)
      case None => Failure(BadEscape)
  }

  // ----------------------------------------------------------- the metadata

  function MediaType(segments: seq<string>): string
    requires segments != []
  {
    var primary := TrimSpace(segments[0]);
    if primary == "" then DEFAULT_TYPE else primary
  }

  predicate IsFlag(segment: string) {
    EqualFold(TrimSpace(segment), BASE64_FLAG)
  }

  /** The flag stands in some segment after the first. */
  predicate Flagged(segments: seq<string>) {
    exists k :: 1 <= k < |segments| && IsFlag(segments[k])
  }

  function Accept(contentType: string, decoded: Result<seq<Byte>, Error>, maxBytes: nat): Result<Asset, Error> {
    match decoded
    case Failure(error) => Failure(error)
    case Success(data) =>
      if data == [] then Failure(EmptyPayload)
      else if |data| > maxBytes then Failure(TooLarge)
      else if !IsSupported(contentType) then Failure(UnsupportedType)
      else Success(Asset(contentType, data))
  }

  function Parsed(value: string, maxBytes: nat): Result<Asset, Error> {
    var trimmed := TrimSpace(value);
    if trimmed == "" then Failure(EmptyUrl)
    else if |trimmed| < |SCHEME| || ToLower(trimmed[..|SCHEME|]) != SCHEME then Failure(InvalidUrl)
    else ParsedBody(trimmed[|SCHEME|..], maxBytes)
  }

  /** What follows the scheme: metadata, a comma, the payload. */
  function ParsedBody(body: string, maxBytes: nat): Result<Asset, Error> {
    var comma := IndexOf(body, ',');
    if comma < 0 then Failure(InvalidUrl)
    else ParsedParts(body[..comma], body[comma + 1..], maxBytes)
  }

  function ParsedParts(metadata: string, payload: string, maxBytes: nat): Result<Asset, Error> {
    var segments := Split(metadata, ';');
    Accept(MediaType(segments), DecodePayload(Flagged(segments), payload), maxBytes)
  }

  /** parseDataURL. The search for the comma covers the scheme too, which holds none. */
  method ParseDataURL(value: string, maxBytes: nat) returns (result: Result<Asset, Error>)
    ensures result == Parsed(value, maxBytes)
  {
    var trimmed := TrimSpace(value);
    if trimmed == "" { return Failure(EmptyUrl); }
    if !(SCHEME <= ToLower(trimmed)) {
      SchemeIsAPrefix(trimmed);
      return Failure(InvalidUrl);
    }
    SchemeIsAPrefix(trimmed);
    var comma := IndexOf(trimmed, ',');
    CommaAfterScheme(trimmed);
    if comma < 0 { return Failure(InvalidUrl); }
    var metadata := trimmed[|SCHEME|..comma];
    var payload := trimmed[comma + 1..];
    ghost var body := trimmed[|SCHEME|..];
    assert metadata == body[..comma - |SCHEME|] && payload == body[comma - |SCHEME| + 1..];
    var mediaType, isBase64 := ReadMetadata(metadata);
    var decoded := DecodePayload(isBase64, payload);
    if decoded.Failure? { return Failure(decoded.error); }
    if |decoded.value| == 0 { return Failure(EmptyPayload); }
    if |decoded.value| > maxBytes { return Failure(TooLarge); }
    if !IsSupported(mediaType) { return Failure(UnsupportedType); }
    return Success(Asset(mediaType, decoded.value));
  }

  method ReadMetadata(metadata: string) returns (mediaType: string, isBase64: bool)
    ensures mediaType == MediaType(Split(metadata, ';'))
    ensures isBase64 <==> Flagged(Split(metadata, ';'))
  {
    mediaType, isBase64 := DEFAULT_TYPE, false;
    if metadata != "" {
      var segments := Split(metadata, ';');
      var primary := TrimSpace(segments[0]);
      if primary != "" { mediaType := primary; }
      for k := 1 to |segments|
        invariant isBase64 <==> exists j :: 1 <= j < k && IsFlag(segments[j])
      {
        if EqualFold(TrimSpace(segments[k]), BASE64_FLAG) { isBase64 := true; }
      }
    }
  }

  lemma SchemeIsAPrefix(s: string)
    ensures SCHEME <= ToLower(s) <==> |s| >= |SCHEME| && ToLower(s[..|SCHEME|]) == SCHEME
  {
    if |s| >= |SCHEME| {
      LowerOfPrefix(s, |SCHEME|);
    }
  }

  lemma CommaAfterScheme(s: string)
    requires SCHEME <= ToLower(s)
    ensures IndexOf(s, ',') == if IndexOf(s[|SCHEME|..], ',') < 0 then -1 else IndexOf(s[|SCHEME|..], ',') + |SCHEME|
  {
    var body := s[|SCHEME|..];
    assert s == s[..|SCHEME|] + body;
    forall k | 0 <= k < |SCHEME| ensures s[k] != ',' {
      assert LowerChar(s[k]) == ToLower(s)[k] == SCHEME[k];
    }
    var j := IndexOf(body, ',');
    if j >= 0 {
      FirstIndexIs(s, ',', j + |SCHEME|);
    }
  }

  lemma FirstIndexIs(s: string, c: char, k: nat)
    requires k < |s| && s[k] == c && forall j :: 0 <= j < k ==> s[j] != c
    ensures IndexOf(s, c) == k
  {
    var i := IndexOf(s, c);
    assert forall j :: 0 <= j < i ==> s[..i][j] == s[j];
  }

  // ------------------------------------------------------------- round trips

  /** The same alphabet, with padding and without. */
  predicate Variants(padded: Encoding, raw: Encoding) {
    padded.padded && !raw.padded && padded.urlSafe == raw.urlSafe
  }

  function IfWhole(data: seq<Byte>): Option<seq<Byte>> {
    if |data| % 3 == 0 then Some(data) else None
  }

  /** A padded reading of an unpadded encoding succeeds only when there is nothing
      to pad, and then agrees. */
  lemma {:induction false} PaddedReadingOfRaw(padded: Encoding, raw: Encoding, data: seq<Byte>)
    requires Variants(padded, raw)
    ensures DecodeLine(padded, Encode(raw, data)) == IfWhole(data)
  {
    if |data| <= 2 {
      PaddedReadingOfShort(padded, raw, data);
    } else {
      PaddedReadingOfRaw(padded, raw, data[3..]);
      PaddedReadingOfGroup(padded, raw, data, IfWhole(data[3..]));
      WholeAfterGroup(data, data[3..], DecodeLine(padded, Encode(raw, data)));
    }
  }

  lemma PaddedReadingOfGroup(padded: Encoding, raw: Encoding, data: seq<Byte>, tail: Option<seq<Byte>>)
    requires Variants(padded, raw)
    requires |data| > 2 && DecodeLine(padded, Encode(raw, data[3..])) == tail
    requires tail.Some? ==> tail.value == data[3..]
    ensures DecodeLine(padded, Encode(raw, data)) == if tail.Some? then Some(data) else None
  {
    EncodeGroups(raw, data);
    SameFullGroup(padded, raw, data);
    DecodeGroupOf(padded, data, Encode(raw, data[3..]));
    assert data == data[..3] + data[3..];
  }

  lemma WholeAfterGroup(data: seq<Byte>, rest: seq<Byte>, reading: Option<seq<Byte>>)
    requires |data| == |rest| + 3
    requires reading == if IfWhole(rest).Some? then Some(data) else None
    ensures reading == IfWhole(data)
  {
    assert |data| % 3 == |rest| % 3;
  }

  lemma PaddedReadingOfShort(padded: Encoding, raw: Encoding, data: seq<Byte>)
    requires Variants(padded, raw) && |data| <= 2
    ensures DecodeLine(padded, Encode(raw, data)) == IfWhole(data)
  {
    if |data| == 2 {
      ShortGroupIsRejected(padded, raw, data[0] / 4, data[0] % 4 * 16 + data[1] / 16, data[1] % 16 * 4);
    }
  }

  lemma ShortGroupIsRejected(padded: Encoding, raw: Encoding, a: Sextet, b: Sextet, c: Sextet)
    requires Variants(padded, raw)
    ensures DecodeLine(padded, [Symbol(raw, a), Symbol(raw, b), Symbol(raw, c)]) == None
  {
    SymbolIsNotPadding(raw, c);
  }

  lemma SameFullGroup(padded: Encoding, raw: Encoding, data: seq<Byte>)
    requires Variants(padded, raw) && |data| > 2
    ensures Encode(raw, data[..3]) == Encode(padded, data[..3])
  {
    assert data[..3][3..] == [];
  }

  /** Both encodings of any bytes are read back. */
  lemma DecodeBase64OfEncode(data: seq<Byte>, padded: bool)
    requires data != []
    ensures DecodeBase64(Encode(Encoding(false, padded), data)) == Success(data)
  {
    var e := Encoding(false, padded);
    var text := Encode(e, data);
    EncodedIsPrintable(e, data);
    TrimmedIsFixed(text);
    DecodeOfEncode(e, data);
    if !padded {
      PrintableIsOneLine(text);
      PaddedReadingOfRaw(STANDARD, RAW_STANDARD, data);
    }
  }

  lemma PartsAreFound(metadata: string, payload: string, maxBytes: nat)
    requires ',' !in metadata
    ensures ParsedBody(metadata + "," + payload, maxBytes) == ParsedParts(metadata, payload, maxBytes)
  {
    var body := metadata + "," + payload;
    FirstIndexIs(body, ',', |metadata|);
    assert body[..|metadata|] == metadata && body[|metadata| + 1..] == payload;
  }

  lemma SchemeIsRead(scheme: string, body: string, maxBytes: nat)
    requires ToLower(scheme) == SCHEME
    requires body != "" && !IsSpace(body[|body| - 1])
    ensures Parsed(scheme + body, maxBytes) == ParsedBody(body, maxBytes)
  {
    var url := scheme + body;
    assert |scheme| == |ToLower(scheme)| == |SCHEME|;
    assert LowerChar(scheme[0]) == ToLower(scheme)[0] == 'd';
    assert !IsSpace(url[0]) && !IsSpace(url[|url| - 1]);
    TrimmedIsFixed(url);
    assert url[..|SCHEME|] == scheme && url[|SCHEME|..] == body;
  }

  /** The parts of a URL are found again, whatever they contain, if there is no
      comma in the metadata. */
  lemma UrlIsTakenApart(scheme: string, metadata: string, payload: string, maxBytes: nat)
    requires ToLower(scheme) == SCHEME && ',' !in metadata
    requires payload == "" || !IsSpace(payload[|payload| - 1])
    ensures Parsed(scheme + (metadata + "," + payload), maxBytes) == ParsedParts(metadata, payload, maxBytes)
  {
    SchemeIsRead(scheme, metadata + "," + payload, maxBytes);
    PartsAreFound(metadata, payload, maxBytes);
  }

  /** The text is a data URL with this metadata and payload. */
  predicate IsDataUrl(text: string, scheme: string, metadata: string, payload: string) {
    text == scheme + (metadata + "," + payload) && ToLower(scheme) == SCHEME && ',' !in metadata
  }

  /** The parts give this asset: not empty, not too large, of a supported type. */
  predicate Yields(metadata: string, payload: string, asset: Asset, maxBytes: nat) {
    && asset.contentType == MediaType(Split(metadata, ';'))
    && DecodePayload(Flagged(Split(metadata, ';')), payload) == Success(asset.data)
    && 0 < |asset.data| <= maxBytes && IsSupported(asset.contentType)
  }

  lemma YieldsIff(metadata: string, payload: string, asset: Asset, maxBytes: nat)
    ensures Yields(metadata, payload, asset, maxBytes) <==> ParsedParts(metadata, payload, maxBytes) == Success(asset)
  {
  }

  lemma PartsOf(text: string)
    requires |text| >= |SCHEME| && ToLower(text[..|SCHEME|]) == SCHEME && ',' in text[|SCHEME|..]
    ensures var body := text[|SCHEME|..];
            var comma := IndexOf(body, ',');
            IsDataUrl(text, text[..|SCHEME|], body[..comma], body[comma + 1..])
  {
    var body := text[|SCHEME|..];
    var comma := IndexOf(body, ',');
    assert body == body[..comma] + "," + body[comma + 1..];
    assert text == text[..|SCHEME|] + body;
  }

  lemma AcceptedHasParts(value: string, asset: Asset, maxBytes: nat)
    requires Parsed(value, maxBytes) == Success(asset)
    ensures var text := TrimSpace(value);
            && |text| >= |SCHEME| && ToLower(text[..|SCHEME|]) == SCHEME && ',' in text[|SCHEME|..]
            && var comma := IndexOf(text[|SCHEME|..], ',');
               ParsedParts(text[|SCHEME|..][..comma], text[|SCHEME|..][comma + 1..], maxBytes) == Success(asset)
  {
  }

  lemma ParsingTrims(value: string, maxBytes: nat)
    ensures Parsed(TrimSpace(value), maxBytes) == Parsed(value, maxBytes)
  {
    TrimIsIdempotent(value);
  }

  lemma PartsAreAccepted(
    value: string, scheme: string, metadata: string, payload: string, asset: Asset, maxBytes: nat)
    requires IsDataUrl(TrimSpace(value), scheme, metadata, payload) && Yields(metadata, payload, asset, maxBytes)
    ensures Parsed(value, maxBytes) == Success(asset)
  {
    var text := TrimSpace(value);
    TrimSpaceIsTrimmed(value);
    assert payload != "" ==> text[|text| - 1] == payload[|payload| - 1];
    UrlIsTakenApart(scheme, metadata, payload, maxBytes);
    YieldsIff(metadata, payload, asset, maxBytes);
    ParsingTrims(value, maxBytes);
  }

  /** The value embeds the asset. */
  ghost predicate Embeds(value: string, asset: Asset, maxBytes: nat) {
    exists scheme, metadata, payload ::
      IsDataUrl(TrimSpace(value), scheme, metadata, payload) && Yields(metadata, payload, asset, maxBytes)
  }

  /** Exactly the texts of that form are accepted, with exactly that asset. */
  lemma AcceptedUrls(value: string, asset: Asset, maxBytes: nat)
    ensures Parsed(value, maxBytes) == Success(asset) <==> Embeds(value, asset, maxBytes)
  {
    if Parsed(value, maxBytes) == Success(asset) {
      AcceptedEmbeds(value, asset, maxBytes);
    }
    if Embeds(value, asset, maxBytes) {
      var scheme, metadata, payload :|
        IsDataUrl(TrimSpace(value), scheme, metadata, payload) && Yields(metadata, payload, asset, maxBytes);
      PartsAreAccepted(value, scheme, metadata, payload, asset, maxBytes);
    }
  }

  lemma AcceptedEmbeds(value: string, asset: Asset, maxBytes: nat)
    requires Parsed(value, maxBytes) == Success(asset)
    ensures Embeds(value, asset, maxBytes)
  {
    var text := TrimSpace(value);
    AcceptedHasParts(value, asset, maxBytes);
    var body := text[|SCHEME|..];
    var comma := IndexOf(body, ',');
    PartsOf(text);
    PartsEmbed(value, text[..|SCHEME|], body[..comma], body[comma + 1..], asset, maxBytes);
  }

  lemma PartsEmbed(value: string, scheme: string, metadata: string, payload: string, asset: Asset, maxBytes: nat)
    requires IsDataUrl(TrimSpace(value), scheme, metadata, payload)
    requires ParsedParts(metadata, payload, maxBytes) == Success(asset)
    ensures Embeds(value, asset, maxBytes)
  {
    YieldsIff(metadata, payload, asset, maxBytes);
  }

  /** The type that a media type stands for. */
  function TypeOf(mediaType: string): string {
    if TrimSpace(mediaType) == "" then DEFAULT_TYPE else TrimSpace(mediaType)
  }

  lemma AcceptedUnder(mediaType: string, data: seq<Byte>, maxBytes: nat)
    requires IsSupported(mediaType) && 0 < |data| <= maxBytes
    ensures Accept(TypeOf(mediaType), Success(data), maxBytes) == Success(Asset(TypeOf(mediaType), data))
  {
    TrimIsIdempotent(mediaType);
    TrimmedIsFixed(DEFAULT_TYPE);
    assert ToLower(DEFAULT_TYPE) == DEFAULT_TYPE;
    assert IsSupported(TypeOf(mediaType));
  }

  lemma FlaggedParts(mediaType: string, flag: string)
    requires IsFlag(flag) && ';' !in mediaType && ';' !in flag
    ensures MediaType(Split(mediaType + ";" + flag, ';')) == TypeOf(mediaType)
    ensures Flagged(Split(mediaType + ";" + flag, ';'))
  {
    SplitPair(mediaType, flag, ';');
    assert IsFlag([mediaType, flag][1]);
  }

  /** Embedding any bytes under a supported media type in base64, with padding or
      without, and in any letter case of scheme and flag, gives them back. */
  lemma EmbeddedIconIsRead(scheme: string, mediaType: string, flag: string, data: seq<Byte>, padded: bool, maxBytes: nat)
    requires ToLower(scheme) == SCHEME && IsFlag(flag)
    requires ',' !in mediaType && ';' !in mediaType && ',' !in flag && ';' !in flag
    requires IsSupported(mediaType) && 0 < |data| <= maxBytes
    ensures Parsed(scheme + (mediaType + ";" + flag + "," + Encode(Encoding(false, padded), data)), maxBytes)
         == Success(Asset(TypeOf(mediaType), data))
  {
    var payload := Encode(Encoding(false, padded), data);
    EncodedIsPrintable(Encoding(false, padded), data);
    UrlIsTakenApart(scheme, mediaType + ";" + flag, payload, maxBytes);
    FlaggedParts(mediaType, flag);
    DecodeBase64OfEncode(data, padded);
    AcceptedUnder(mediaType, data, maxBytes);
  }

  // ---------------------------------------------------------- percent escapes

  function EscapedByte(x: Byte): string {
    ['%', HexDigit(x / 16), HexDigit(x % 16)]
  }

  function Escape(data: seq<Byte>): string {
    if data == [] then "" else EscapedByte(data[0]) + Escape(data[1..])
  }

  lemma UnescapeByte(x: Byte, rest: string)
    ensures Unescape(EscapedByte(x) + rest)
         == match Unescape(rest) case None => None case Some(data) => Some([x] + data)
  {
    HexRoundTrip(x / 16);
    HexRoundTrip(x % 16);
    assert (EscapedByte(x) + rest)[3..] == rest;
  }

  /** Percent escapes can carry any bytes. */
  lemma {:induction false} UnescapeOfEscape(data: seq<Byte>)
    ensures Unescape(Escape(data)) == Some(data)
  {
    if data != [] {
      UnescapeOfEscape(data[1..]);
      UnescapeByte(data[0], Escape(data[1..]));
      assert data == [data[0]] + data[1..];
    }
  }

  lemma {:induction false} EscapeEndsInADigit(data: seq<Byte>)
    requires data != []
    ensures Escape(data) != [] && !IsSpace(Escape(data)[|Escape(data)| - 1])
  {
    if data[1..] != [] {
      EscapeEndsInADigit(data[1..]);
    }
  }

  lemma NoFlag(mediaType: string)
    requires ';' !in mediaType
    ensures MediaType(Split(mediaType, ';')) == TypeOf(mediaType) && !Flagged(Split(mediaType, ';'))
  {
    SplitWithout(mediaType, ';');
  }

  lemma EscapedIconIsRead(scheme: string, mediaType: string, data: seq<Byte>, maxBytes: nat)
    requires ToLower(scheme) == SCHEME && ',' !in mediaType && ';' !in mediaType
    requires IsSupported(mediaType) && 0 < |data| <= maxBytes
    ensures Parsed(scheme + (mediaType + "," + Escape(data)), maxBytes) == Success(Asset(TypeOf(mediaType), data))
  {
    EscapeEndsInADigit(data);
    UnescapeOfEscape(data);
    UrlIsTakenApart(scheme, mediaType, Escape(data), maxBytes);
    NoFlag(mediaType);
    AcceptedUnder(mediaType, data, maxBytes);
  }

  lemma ContainsMeaning(s: string, part: string)
    ensures Contains(s, part) <==> exists left, right :: s == left + part + right
  {
    if k :| 0 <= k <= |s| && part <= s[k..] {
      assert s == s[..k] + part + s[k + |part|..];
    }
    if left, right :| s == left + part + right {
      assert s[|left|..] == part + right;
    }
  }

  /** Letter case and outer space of a media type do not matter. */
  lemma SupportIgnoresCase(a: string, b: string)
    requires EqualFold(TrimSpace(a), TrimSpace(b))
    ensures IsSupported(a) == IsSupported(b)
  {
  }

  /** Every image type is supported; a page of text is not. */
  lemma ImagesAreSupported(subtype: string)
    requires Trimmed(subtype) && ToLower(subtype) == subtype
    ensures IsSupported("image/" + subtype) && !IsSupported("text/html")
  {
    var image, html := "image/" + subtype, "text/html";
    TrimmedIsFixed(image);
    LowerConcat("image/", subtype);
    assert ToLower("image/") == "image/";
    TrimmedIsFixed(html);
    assert ToLower(html) == html;
    assert forall k :: 0 <= k < |html| ==> html[k] != 'i' && html[k] != 's';
    NotContained(html, "icon");
    NotContained(html, "svg");
  }

  lemma NotContained(s: string, part: string)
    requires part != "" && part[0] !in s
    ensures !Contains(s, part)
  {
    assert forall k :: 0 <= k <= |s| && part <= s[k..] ==> s[k] == part[0];
  }

  /** An escape stands for the byte of its two digits, in either letter case. */
  lemma EscapeMeaning(high: char, low: char, a: nat, b: nat, rest: string)
    requires a < 16 && b < 16 && LowerChar(high) == DIGITS[a] && LowerChar(low) == DIGITS[b]
    ensures Unescape(['%', high, low] + rest)
         == match Unescape(rest) case None => None case Some(data) => Some([a * 16 + b] + data)
  {
    DigitMeaning(high, a);
    DigitMeaning(low, b);
    EscapeOfValues(high, low, a, b, rest);
  }

  lemma EscapeOfValues(high: char, low: char, a: nat, b: nat, rest: string)
    requires a < 16 && b < 16 && HexValue(high) == Some(a) && HexValue(low) == Some(b)
    ensures Unescape(['%', high, low] + rest)
         == match Unescape(rest) case None => None case Some(data) => Some([a * 16 + b] + data)
  {
    assert (['%', high, low] + rest)[3..] == rest;
  }

  /** A percent sign without two digits is an error. */
  lemma BadEscapeMeaning(rest: string)
    requires |rest| < 2 || HexValue(rest[0]).None? || HexValue(rest[1]).None?
    ensures Unescape(['%'] + rest) == None
  {
    var text := ['%'] + rest;
    assert |rest| >= 2 ==> text[1] == rest[0] && text[2] == rest[1];
  }

  /** Text without escapes stands for itself. */
  lemma {:induction false} PlainTextMeaning(s: string)
    requires '%' !in s && forall k :: 0 <= k < |s| ==> s[k] as int < 128
    ensures Unescape(s).Some? && |Unescape(s).value| == |s|
    ensures forall k :: 0 <= k < |s| ==> Unescape(s).value[k] == s[k] as int
  {
    if s != [] {
      PlainTextMeaning(s[1..]);
    }
  }
}
