/** The signed token of internal/api/subscription_confirmation_token.go. */
module ConfirmationToken {
  import opened Basics
  import opened Text
  import opened Base64
  import opened Decimals
  import opened Json
  import opened Subscriber

  const SEPARATOR := '.'
  const NANOSECONDS_PER_SECOND := 1_000_000_000

  /** The keyed hash (HMAC of RFC 2104 over SHA-256) as a function of key and
      message; nothing is assumed of it but the length of its result. */
  type Mac = (string, string) -> seq<Byte>

  ghost predicate IsMac(mac: Mac) {
    forall key, message :: |mac(key, message)| == 32
  }

  datatype Payload = Payload(subscriberID: string, siteID: string, email: string, expiresAt: int)

  /** The struct tags of the payload, and the keyed hash. */
  datatype Codec = Codec(names: FieldNames, mac: Mac)

  ghost predicate Sound(codec: Codec) {
    GoodNames(codec.names) && IsMac(codec.mac)
  }

  datatype TokenError =
    | MissingSecret | MissingFields | InvalidTTL
    | Malformed | MissingSegments | SignatureMismatch | UndecodablePayload | UnreadablePayload
    | InvalidExpiry | Expired

  /** Seconds of an instant given in nanoseconds, rounded down. */
  function Unix(instant: int): int {
    instant / NANOSECONDS_PER_SECOND
  }

  lemma UnixMeaning(instant: int, seconds: int)
    ensures Unix(instant) == seconds <==> seconds * 1_000_000_000 <= instant < (seconds + 1) * 1_000_000_000
  {
  }

  function AsBytes(s: string): seq<Byte>
    requires Ascii(s)
  {
    seq(|s|, k requires 0 <= k < |s| => s[k] as int)
  }

  function AsText(data: seq<Byte>): Option<string> {
    if forall k :: 0 <= k < |data| ==> data[k] < 128
    then Some(seq(|data|, k requires 0 <= k < |data| => data[k] as char))
    else None
  }

  // -------------------------------------------------------------- payload

  function Member(name: string, value: string): string
    requires Ascii(name) && Ascii(value)
  {
    Quote(name) + ":" + Quote(value)
  }

  predicate AsciiPayload(p: Payload) {
    Ascii(p.subscriberID) && Ascii(p.siteID) && Ascii(p.email)
  }

  /** A string member followed by more members. */
  function Chain(name: string, value: string, rest: string): string
    requires Ascii(name) && Ascii(value)
  {
    Member(name, value) + ("," + rest)
  }

  datatype FieldNames = FieldNames(subscriberID: string, siteID: string, email: string, expiresAt: string)

  const NAMES := FieldNames("subscriber_id", "site_id", "email", "exp")

  ghost predicate GoodNames(f: FieldNames) {
    && Ascii(f.subscriberID) && Ascii(f.siteID) && Ascii(f.email) && Ascii(f.expiresAt)
    && !EqualFold(f.siteID, f.subscriberID)
    && !EqualFold(f.email, f.subscriberID) && !EqualFold(f.email, f.siteID)
    && !EqualFold(f.expiresAt, f.subscriberID) && !EqualFold(f.expiresAt, f.siteID) && !EqualFold(f.expiresAt, f.email)
  }

  lemma NamesAreGood()
    ensures GoodNames(NAMES)
  {
    assert |ToLower(NAMES.subscriberID)| == 13 && |ToLower(NAMES.siteID)| == 7;
    assert |ToLower(NAMES.email)| == 5 && |ToLower(NAMES.expiresAt)| == 3;
  }

  /** The codec the service uses is sound, whatever the hash. */
  lemma ServiceCodecIsSound(mac: Mac)
    requires IsMac(mac)
    ensures Sound(Codec(NAMES, mac))
  {
    NamesAreGood();
  }

  function Marshal(f: FieldNames, p: Payload): string
    requires GoodNames(f) && AsciiPayload(p)
  {
    "{" + Chain(f.subscriberID, p.subscriberID,
          Chain(f.siteID, p.siteID,
          Chain(f.email, p.email,
          ExpiryMember(f.expiresAt, p.expiresAt))))
  }

  function ExpiryMember(name: string, n: int): string
    requires Ascii(name)
  {
    Quote(name) + ":" + Decimal(n) + "}"
  }

  /** Field names match up to letter case; a value of the wrong type is an error,
      null leaves the field alone, other members are ignored. */
  function Assign(f: FieldNames, p: Payload, name: string, value: Value): Option<Payload> {
    if EqualFold(name, f.subscriberID) then
      if value.String? then Some(p.(subscriberID := value.s)) else if value.Null? then Some(p) else None
    else if EqualFold(name, f.siteID) then
      if value.String? then Some(p.(siteID := value.s)) else if value.Null? then Some(p) else None
    else if EqualFold(name, f.email) then
      if value.String? then Some(p.(email := value.s)) else if value.Null? then Some(p) else None
    else if EqualFold(name, f.expiresAt) then
      if value.Number? then Some(p.(expiresAt := value.n)) else if value.Null? then Some(p) else None
    else Some(p)
  }

  function AssignAll(f: FieldNames, p: Payload, members: seq<(string, Value)>): Option<Payload>
    decreases members
  {
    if members == [] then Some(p)
    else match Assign(f, p, members[0].0, members[0].1)
      case None => None
      case Some(q) => AssignAll(f, q, members[1..])
  }

  function Unmarshal(f: FieldNames, text: string): Option<Payload> {
    match ReadObject(text)
    case None => None
    case Some(members) => AssignAll(f, Payload("", "", "", 0), members)
  }

  // ------------------------------------------------------ build and parse

  function Sign(mac: Mac, secret: string, segment: string): string {
    Encode(RAW_URL, mac(secret, segment))
  }

  function Signed(mac: Mac, key: string, data: seq<Byte>): string {
    var segment := Encode(RAW_URL, data);
    segment + [SEPARATOR] + Sign(mac, key, segment)
  }

  function Build(codec: Codec, secret: string, subscriberID: string, siteID: string, email: string, now: int, ttl: int)
    : Result<string, TokenError>
    requires GoodNames(codec.names) && Ascii(subscriberID) && Ascii(siteID) && Ascii(email)
  {
    var key := TrimSpace(secret);
    var id, site := TrimSpace(subscriberID), TrimSpace(siteID);
    var address := TrimSpace(ToLower(email));
    AsciiKept(subscriberID);
    AsciiKept(siteID);
    AsciiKept(email);
    if key == "" then Failure(MissingSecret)
    else if id == "" || site == "" || address == "" then Failure(MissingFields)
    else if ttl <= 0 then Failure(InvalidTTL)
    else
      var payload := Payload(id, site, address, Unix(now + ttl));
      MarshalIsAscii(codec.names, payload);
      Success(Signed(codec.mac, key, AsBytes(Marshal(codec.names, payload))))
  }

  function Normalized(p: Payload): Payload {
    Payload(TrimSpace(p.subscriberID), TrimSpace(p.siteID), TrimSpace(ToLower(p.email)), p.expiresAt)
  }

  function Parse(codec: Codec, secret: string, rawToken: string, now: int): Result<Payload, TokenError> {
    var key := TrimSpace(secret);
    if key == "" then Failure(MissingSecret)
    else
      var parts := Split(TrimSpace(rawToken), SEPARATOR);
      if |parts| != 2 then Failure(Malformed)
      else
        var segment, signature := TrimSpace(parts[0]), TrimSpace(parts[1]);
        if segment == "" || signature == "" then Failure(MissingSegments)
        else if signature != Sign(codec.mac, key, segment) then Failure(SignatureMismatch)
        else match Decode(RAW_URL, segment)
          case None => Failure(UndecodablePayload)
          case Some(data) => Accept(codec.names, data, now)
  }

  /** The checks on a decoded payload. */
  function Accept(f: FieldNames, data: seq<Byte>, now: int): Result<Payload, TokenError> {
    match AsText(data)
    case None => Failure(UnreadablePayload)
    case Some(text) =>
      match Unmarshal(f, text)
      case None => Failure(UnreadablePayload)
      case Some(raw) =>
        var p := Normalized(raw);
        if p.subscriberID == "" || p.siteID == "" || p.email == "" then Failure(MissingFields)
        else if p.expiresAt <= 0 then Failure(InvalidExpiry)
        else if Unix(now) > p.expiresAt then Failure(Expired)
        else Success(p)
  }

  // --------------------------------------------------------- ASCII lemmas

  lemma AsciiKept(s: string)
    requires Ascii(s)
    ensures Ascii(TrimSpace(s)) && Ascii(ToLower(s)) && Ascii(TrimSpace(ToLower(s)))
  {
    TrimKeepsAscii(s);
    TrimKeepsAscii(ToLower(s));
  }

  lemma TrimKeepsAscii(s: string)
    requires Ascii(s)
    ensures Ascii(TrimSpace(s))
  {
    TrimLeftShape(s);
    var left := TrimLeft(s);
    TrimRightShape(left);
  }

  lemma {:induction false} EscapeIsAscii(s: string)
    requires Ascii(s)
    ensures Ascii(Escape(s))
  {
    if s != [] {
      EscapeIsAscii(s[1..]);
      assert Ascii(EscapeChar(s[0]));
    }
  }

  lemma QuoteIsAscii(s: string)
    requires Ascii(s)
    ensures Ascii(Quote(s))
  {
    EscapeIsAscii(s);
  }

  lemma ChainIsAscii(name: string, value: string, rest: string)
    requires Ascii(name) && Ascii(value) && Ascii(rest)
    ensures Ascii(Chain(name, value, rest))
  {
    QuoteIsAscii(name);
    QuoteIsAscii(value);
  }

  lemma ExpiryIsAscii(name: string, n: int)
    requires Ascii(name)
    ensures Ascii(ExpiryMember(name, n))
  {
    QuoteIsAscii(name);
    DecimalShape(if n < 0 then -n else n);
    assert Ascii(Decimal(n));
  }

  lemma MarshalIsAscii(f: FieldNames, p: Payload)
    requires GoodNames(f) && AsciiPayload(p)
    ensures Ascii(Marshal(f, p)) && Marshal(f, p) != []
  {
    var exp := ExpiryMember(f.expiresAt, p.expiresAt);
    ExpiryIsAscii(f.expiresAt, p.expiresAt);
    var fromEmail := Chain(f.email, p.email, exp);
    ChainIsAscii(f.email, p.email, exp);
    var fromSite := Chain(f.siteID, p.siteID, fromEmail);
    ChainIsAscii(f.siteID, p.siteID, fromEmail);
    ChainIsAscii(f.subscriberID, p.subscriberID, fromSite);
  }

  lemma TextOfBytes(s: string)
    requires Ascii(s)
    ensures AsText(AsBytes(s)) == Some(s)
  {
    var text := AsText(AsBytes(s));
    assert text.Some? && |text.value| == |s|;
    assert forall k :: 0 <= k < |s| ==> text.value[k] == s[k];
    assert text.value == s;
  }

  // ---------------------------------------------------------- round trips

  function Members(f: FieldNames, p: Payload): seq<(string, Value)> {
    [(f.subscriberID, String(p.subscriberID))] + MembersFromSite(f, p)
  }

  function MembersFromSite(f: FieldNames, p: Payload): seq<(string, Value)> {
    [(f.siteID, String(p.siteID))] + MembersFromEmail(f, p)
  }

  function MembersFromEmail(f: FieldNames, p: Payload): seq<(string, Value)> {
    [(f.email, String(p.email))] + [(f.expiresAt, Number(p.expiresAt))]
  }

  lemma OneMoreMember(name: string, value: string, rest: string, members: seq<(string, Value)>)
    requires Ascii(name) && Ascii(value) && StartsText(rest)
    requires ReadMembers(rest) == Some(members)
    ensures StartsText(Chain(name, value, rest)) && Chain(name, value, rest)[0] == '"'
    ensures ReadMembers(Chain(name, value, rest)) == Some([(name, String(value))] + members)
  {
    var tail := "," + rest;
    StringMember(name, value, tail);
    assert tail[1..] == rest;
  }

  lemma LastMember(name: string, n: int)
    requires Ascii(name)
    ensures StartsText(ExpiryMember(name, n))
    ensures ReadMembers(ExpiryMember(name, n)) == Some([(name, Number(n))])
  {
    NumberMember(name, n, "}");
    assert "}"[1..] == "";
  }

  lemma ReadMarshal(f: FieldNames, p: Payload)
    requires GoodNames(f) && AsciiPayload(p)
    ensures ReadObject(Marshal(f, p)) == Some(Members(f, p))
  {
    var exp := ExpiryMember(f.expiresAt, p.expiresAt);
    LastMember(f.expiresAt, p.expiresAt);
    OneMoreMember(f.email, p.email, exp, [(f.expiresAt, Number(p.expiresAt))]);
    var fromEmail := Chain(f.email, p.email, exp);
    OneMoreMember(f.siteID, p.siteID, fromEmail, MembersFromEmail(f, p));
    var fromSite := Chain(f.siteID, p.siteID, fromEmail);
    OneMoreMember(f.subscriberID, p.subscriberID, fromSite, MembersFromSite(f, p));
    ReadBraced(Chain(f.subscriberID, p.subscriberID, fromSite));
  }

  lemma ReadBraced(body: string)
    requires StartsText(body) && body[0] == '"'
    ensures ReadObject("{" + body) == ReadMembers(body)
  {
    assert ("{" + body)[1..] == body;
  }

  lemma AssignMembers(f: FieldNames, p: Payload)
    requires GoodNames(f)
    ensures AssignAll(f, Payload("", "", "", 0), Members(f, p)) == Some(p)
  {
    var a := Payload("", "", "", 0);
    var b := a.(subscriberID := p.subscriberID);
    var c := b.(siteID := p.siteID);
    var d := c.(email := p.email);
    AssignFirst(f, d, f.expiresAt, Number(p.expiresAt), []);
    assert [(f.expiresAt, Number(p.expiresAt))] + [] == [(f.expiresAt, Number(p.expiresAt))];
    AssignFirst(f, c, f.email, String(p.email), [(f.expiresAt, Number(p.expiresAt))]);
    AssignFirst(f, b, f.siteID, String(p.siteID), MembersFromEmail(f, p));
    AssignFirst(f, a, f.subscriberID, String(p.subscriberID), MembersFromSite(f, p));
  }

  lemma AssignFirst(f: FieldNames, p: Payload, name: string, value: Value, rest: seq<(string, Value)>)
    requires Assign(f, p, name, value).Some?
    ensures AssignAll(f, p, [(name, value)] + rest) == AssignAll(f, Assign(f, p, name, value).value, rest)
  {
    assert ([(name, value)] + rest)[1..] == rest;
  }

  lemma PrintableIsTrimmed(s: string)
    requires Printable(s)
    ensures TrimSpace(s) == s
  {
    TrimmedIsFixed(s);
  }

  lemma NoSeparator(data: seq<Byte>)
    ensures SEPARATOR !in Encode(RAW_URL, data)
  {
    EncodedIsUrlSafe(data);
  }

  /** A signed segment splits into exactly the segment and its signature. */
  lemma TokenSplits(segment: string, signature: string)
    requires Printable(segment) && Printable(signature) && segment != "" && signature != ""
    requires SEPARATOR !in segment && SEPARATOR !in signature
    ensures var token := segment + [SEPARATOR] + signature;
            TrimSpace(token) == token && Split(token, SEPARATOR) == [segment, signature]
  {
    TrimmedIsFixed(segment + [SEPARATOR] + signature);
    SplitPair(segment, signature, SEPARATOR);
  }

  /** Whatever is signed with the secret is what the checks then see. */
  lemma ParseOfSigned(codec: Codec, secret: string, data: seq<Byte>, now: int)
    requires Sound(codec) && data != [] && TrimSpace(secret) != ""
    ensures Parse(codec, secret, Signed(codec.mac, TrimSpace(secret), data), now) == Accept(codec.names, data, now)
  {
    var key := TrimSpace(secret);
    var segment := Encode(RAW_URL, data);
    var signature := Sign(codec.mac, key, segment);
    EncodedIsPrintable(RAW_URL, data);
    EncodedIsPrintable(RAW_URL, codec.mac(key, segment));
    NoSeparator(data);
    NoSeparator(codec.mac(key, segment));
    TokenSplits(segment, signature);
    PrintableIsTrimmed(segment);
    PrintableIsTrimmed(signature);
    DecodeOfEncode(RAW_URL, data);
  }

  /** What the checks make of a payload whose fields are trimmed and present. */
  function Verdict(p: Payload, now: int): Result<Payload, TokenError> {
    if p.expiresAt <= 0 then Failure(InvalidExpiry)
    else if Unix(now) > p.expiresAt then Failure(Expired)
    else Success(p)
  }

  lemma AcceptOfMarshal(f: FieldNames, p: Payload, text: string, now: int)
    requires GoodNames(f) && AsciiPayload(p) && Normalized(p) == p && "" !in {p.subscriberID, p.siteID, p.email}
    requires Ascii(text) && text == Marshal(f, p)
    ensures Accept(f, AsBytes(text), now) == Verdict(p, now)
  {
    TextOfBytes(text);
    ReadMarshal(f, p);
    AssignMembers(f, p);
  }

  lemma NormalizingIsDone(id: string, site: string, email: string, expiresAt: int)
    ensures var p := Payload(TrimSpace(id), TrimSpace(site), TrimSpace(ToLower(email)), expiresAt);
            Normalized(p) == p
  {
    TrimIsIdempotent(id);
    TrimIsIdempotent(site);
    NormalizingTwice(email);
    NormalizingTwice(NormalizeEmail(email));
  }

  lemma FieldsAreAscii(id: string, site: string, email: string, expiresAt: int)
    requires Ascii(id) && Ascii(site) && Ascii(email)
    ensures AsciiPayload(Payload(TrimSpace(id), TrimSpace(site), TrimSpace(ToLower(email)), expiresAt))
  {
    AsciiKept(id);
    AsciiKept(site);
    AsciiKept(email);
  }

  /** A token is built exactly from a secret and three fields that are not blank and
      a positive time to live. Parsing it with the same secret gives the trimmed,
      lower-cased fields at every instant up to the expiry second and `Expired` at
      every later one; an expiry that is not positive is refused at any time. */
  lemma ParseOfBuild(
    codec: Codec, secret: string, id: string, site: string, email: string, now: int, ttl: int, later: int)
    requires Sound(codec) && Ascii(id) && Ascii(site) && Ascii(email)
    ensures Build(codec, secret, id, site, email, now, ttl).Success?
       <==> ttl > 0 && "" !in {TrimSpace(secret), TrimSpace(id), TrimSpace(site), NormalizeEmail(email)}
    ensures Build(codec, secret, id, site, email, now, ttl).Success? ==>
              Parse(codec, secret, Build(codec, secret, id, site, email, now, ttl).value, later)
              == Verdict(Payload(TrimSpace(id), TrimSpace(site), NormalizeEmail(email), Unix(now + ttl)), later)
  {
    NormalizingTwice(email);
    if Build(codec, secret, id, site, email, now, ttl).Success? {
      FieldsAreAscii(id, site, email, Unix(now + ttl));
      var p := Payload(TrimSpace(id), TrimSpace(site), TrimSpace(ToLower(email)), Unix(now + ttl));
      NormalizingIsDone(id, site, email, Unix(now + ttl));
      MarshalIsAscii(codec.names, p);
      var text := Marshal(codec.names, p);
      ParseOfSigned(codec, secret, AsBytes(text), later);
      AcceptOfMarshal(codec.names, p, text, later);
    }
  }

  predicate TokenText(s: string) {
    forall k :: 0 <= k < |s| ==> UrlSafe(s[k]) || s[k] == SEPARATOR
  }

  /** A built token survives unescaped in a URL. */
  lemma BuiltTokensAreUrlSafe(
    codec: Codec, secret: string, id: string, site: string, email: string, now: int, ttl: int, token: string)
    requires Sound(codec) && Ascii(id) && Ascii(site) && Ascii(email)
    requires Build(codec, secret, id, site, email, now, ttl) == Success(token)
    ensures TokenText(token) && token != ""
  {
    FieldsAreAscii(id, site, email, Unix(now + ttl));
    var p := Payload(TrimSpace(id), TrimSpace(site), TrimSpace(ToLower(email)), Unix(now + ttl));
    MarshalIsAscii(codec.names, p);
    SignedIsUrlSafe(codec.mac, TrimSpace(secret), AsBytes(Marshal(codec.names, p)));
  }

  lemma SignedIsUrlSafe(mac: Mac, key: string, data: seq<Byte>)
    ensures TokenText(Signed(mac, key, data)) && Signed(mac, key, data) != ""
  {
    EncodedIsUrlSafe(data);
    EncodedIsUrlSafe(mac(key, Encode(RAW_URL, data)));
  }

  /** What an accepted payload is worth at another instant. */
  function UntilExpiry(p: Payload, t: int): Result<Payload, TokenError> {
    if Unix(t) <= p.expiresAt then Success(p) else Failure(Expired)
  }

  lemma AcceptedUntilExpiry(f: FieldNames, data: seq<Byte>, now: int, t: int)
    requires Accept(f, data, now).Success?
    ensures Accept(f, data, t) == UntilExpiry(Accept(f, data, now).value, t)
  {
  }

  /** The token's two segments: a payload, and the encoded hash of that payload
      segment under the secret. */
  ghost predicate CarriesSignature(codec: Codec, secret: string, token: string, segment: string, signature: string) {
    && Split(TrimSpace(token), SEPARATOR) == [segment, signature]
    && TrimSpace(segment) != ""
    && TrimSpace(signature) == Encode(RAW_URL, codec.mac(TrimSpace(secret), TrimSpace(segment)))
  }

  /** An accepted token carries the secret's own signature over its payload segment. */
  lemma AcceptedTokensAreSigned(codec: Codec, secret: string, token: string, now: int)
    requires Parse(codec, secret, token, now).Success?
    ensures exists segment, signature :: CarriesSignature(codec, secret, token, segment, signature)
  {
    var parts := Split(TrimSpace(token), SEPARATOR);
    assert parts == [parts[0], parts[1]];
    assert CarriesSignature(codec, secret, token, parts[0], parts[1]);
  }

  /** The second segment of an accepted token decodes to the keyed hash of the first. */
  lemma SignatureCoversThePayload(codec: Codec, secret: string, token: string, now: int)
    requires Parse(codec, secret, token, now).Success?
    ensures |Split(TrimSpace(token), SEPARATOR)| == 2
    ensures Decode(RAW_URL, TrimSpace(Split(TrimSpace(token), SEPARATOR)[1]))
         == Some(codec.mac(TrimSpace(secret), TrimSpace(Split(TrimSpace(token), SEPARATOR)[0])))
  {
    DecodeOfEncode(RAW_URL, codec.mac(TrimSpace(secret), TrimSpace(Split(TrimSpace(token), SEPARATOR)[0])));
  }

  /** Two segments whose second is any other text are refused as a mismatch, whatever
      the first one says. */
  lemma OtherSignaturesAreRefused(
    codec: Codec, secret: string, token: string, now: int, segment: string, signature: string)
    requires TrimSpace(secret) != "" && Split(TrimSpace(token), SEPARATOR) == [segment, signature]
    requires TrimSpace(segment) != "" && TrimSpace(signature) != ""
    requires TrimSpace(signature) != Encode(RAW_URL, codec.mac(TrimSpace(secret), TrimSpace(segment)))
    ensures Parse(codec, secret, token, now) == Failure(SignatureMismatch)
  {
  }

  /** An accepted payload has its three fields, trimmed and the address in lower case,
      and a positive expiry that has not passed. */
  lemma AcceptedPayloads(codec: Codec, secret: string, token: string, now: int)
    requires Parse(codec, secret, token, now).Success?
    ensures var p := Parse(codec, secret, token, now).value;
            && p.subscriberID != "" && Trimmed(p.subscriberID) && p.siteID != "" && Trimmed(p.siteID)
            && p.email != "" && NormalizeEmail(p.email) == p.email
            && 0 < p.expiresAt && Unix(now) <= p.expiresAt
  {
    var segment := TrimSpace(Split(TrimSpace(token), SEPARATOR)[0]);
    AcceptedFields(codec.names, Decode(RAW_URL, segment).value, now);
  }

  lemma AcceptedFields(f: FieldNames, data: seq<Byte>, now: int)
    requires Accept(f, data, now).Success?
    ensures var p := Accept(f, data, now).value;
            && p.subscriberID != "" && Trimmed(p.subscriberID) && p.siteID != "" && Trimmed(p.siteID)
            && p.email != "" && NormalizeEmail(p.email) == p.email
            && 0 < p.expiresAt && Unix(now) <= p.expiresAt
  {
    var raw := Unmarshal(f, AsText(data).value).value;
    TrimSpaceIsTrimmed(raw.subscriberID);
    TrimSpaceIsTrimmed(raw.siteID);
    NormalizingTwice(raw.email);
    NormalizingTwice(NormalizeEmail(raw.email));
  }

  /** A token that was ever accepted is accepted, with the same payload, exactly at
      the instants up to the second of its expiry, and is `Expired` at all others. */
  lemma AcceptanceOnlyExpires(codec: Codec, secret: string, token: string, now: int, t: int)
    requires Parse(codec, secret, token, now).Success?
    ensures Parse(codec, secret, token, t) == UntilExpiry(Parse(codec, secret, token, now).value, t)
  {
    var segment := TrimSpace(Split(TrimSpace(token), SEPARATOR)[0]);
    AcceptedUntilExpiry(codec.names, Decode(RAW_URL, segment).value, now, t);
  }
}
