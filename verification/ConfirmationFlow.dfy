/** The emailed link, end to end: the token that internal/api/
    subscription_confirmation.go sends for a pending row, read back by the link
    handlers of internal/api/public.go at any later point of a run. */
module ConfirmationFlow {
  import opened Basics
  import opened Text
  import opened Json
  import opened Subscriber
  import opened ConfirmationToken
  import opened Subscriptions

  /** What a link handler makes of its query parameter. */
  function ReadLink(codec: Codec, secret: string, query: string, now: int): LinkToken {
    var token := TrimSpace(query);
    if token == "" then LinkToken.Missing
    else if TrimSpace(secret) == "" then LinkToken.Unavailable
    else LinkOf(Parse(codec, secret, token, now))
  }

  function LinkOf(parsed: Result<Payload, TokenError>): LinkToken {
    match parsed
    case Failure(_) => LinkToken.Invalid
    case Success(p) => LinkToken.Valid(p.subscriberID, p.siteID, p.email)
  }

  function TokenFor(codec: Codec, secret: string, s: State, id: string, ttl: int): Result<string, TokenError>
    requires GoodNames(codec.names) && id in s.rows
    requires Ascii(id) && Ascii(s.rows[id].site) && Ascii(s.rows[id].email)
  {
    Build(codec, secret, id, s.rows[id].site, s.rows[id].email, s.now, ttl)
  }

  predicate Unexpired(builtAt: Time, ttl: int, now: Time) {
    0 < Unix(builtAt + ttl) && Unix(now) <= Unix(builtAt + ttl)
  }

  lemma ReadWhole(codec: Codec, secret: string, token: string, now: int, parsed: Result<Payload, TokenError>)
    requires TrimSpace(token) == token != "" && TrimSpace(secret) != ""
    requires Parse(codec, secret, token, now) == parsed
    ensures ReadLink(codec, secret, token, now) == LinkOf(parsed)
  {
  }

  /** A token for normalized fields is read back as those fields while it lasts. */
  lemma ReadToken(
    codec: Codec, secret: string, id: string, site: string, email: string, builtAt: Time, ttl: int, now: Time, token: string)
    requires Sound(codec) && Ascii(id) && Ascii(site) && Ascii(email)
    requires TrimSpace(secret) != "" && ttl > 0 && "" !in {id, site, email}
    requires TrimSpace(id) == id && TrimSpace(site) == site && NormalizeEmail(email) == email
    requires Build(codec, secret, id, site, email, builtAt, ttl) == Success(token)
    ensures ReadLink(codec, secret, token, now)
         == if Unexpired(builtAt, ttl, now) then LinkToken.Valid(id, site, email) else LinkToken.Invalid
  {
    ParseOfBuild(codec, secret, id, site, email, builtAt, ttl, now);
    BuiltTokensAreTrimmed(codec, secret, id, site, email, builtAt, ttl);
    ReadWhole(codec, secret, token, now, Verdict(Payload(id, site, email, Unix(builtAt + ttl)), now));
    LinkOfVerdict(id, site, email, builtAt, ttl, now);
  }

  /** The row's link can be built, and is read back as the row's identity while it
      lasts, and as invalid afterwards. */
  lemma ReadBuiltLink(codec: Codec, secret: string, s: State, id: string, ttl: int, now: Time)
    requires Sound(codec) && ValidState(s) && id in s.rows && ProperRow(s.rows[id])
    requires Ascii(id) && Ascii(s.rows[id].site) && Ascii(s.rows[id].email)
    requires TrimSpace(secret) != "" && ttl > 0
    ensures TokenFor(codec, secret, s, id, ttl).Success?
    ensures ReadLink(codec, secret, TokenFor(codec, secret, s, id, ttl).value, now)
         == if Unexpired(s.now, ttl, now)
            then LinkToken.Valid(id, s.rows[id].site, s.rows[id].email)
            else LinkToken.Invalid
  {
    var row := s.rows[id];
    TrimmedIsFixed(id);
    TrimmedIsFixed(row.site);
    ParseOfBuild(codec, secret, id, row.site, row.email, s.now, ttl, now);
    ReadToken(codec, secret, id, row.site, row.email, s.now, ttl, now, TokenFor(codec, secret, s, id, ttl).value);
  }

  lemma LinkOfVerdict(id: string, site: string, email: string, builtAt: Time, ttl: int, now: Time)
    ensures LinkOf(Verdict(Payload(id, site, email, Unix(builtAt + ttl)), now))
         == if Unexpired(builtAt, ttl, now) then LinkToken.Valid(id, site, email) else LinkToken.Invalid
  {
  }

  lemma TokenTextIsTrimmed(token: string)
    requires TokenText(token)
    ensures TrimSpace(token) == token
  {
    TrimmedIsFixed(token);
  }

  lemma BuiltTokensAreTrimmed(
    codec: Codec, secret: string, id: string, site: string, email: string, now: int, ttl: int)
    requires Sound(codec) && Ascii(id) && Ascii(site) && Ascii(email)
    requires Build(codec, secret, id, site, email, now, ttl).Success?
    ensures var token := Build(codec, secret, id, site, email, now, ttl).value;
            TrimSpace(token) == token != ""
  {
    var token := Build(codec, secret, id, site, email, now, ttl).value;
    BuiltTokensAreUrlSafe(codec, secret, id, site, email, now, ttl, token);
    TokenTextIsTrimmed(token);
  }

  /** What following a link does to a row it may or may not name. */
  lemma LinkEffects(t: State, id: string, site: string, email: string, live: bool)
    requires id in t.rows ==> Matches(t.rows[id], site, email)
    ensures var link := if live then LinkToken.Valid(id, site, email) else LinkToken.Invalid;
            && StatusIn(FollowConfirmLink(t, link).0, id)
            == (if live && StatusIn(t, id) == Some(Pending) then Some(Confirmed) else StatusIn(t, id))
            && StatusIn(FollowUnsubscribeLink(t, link).0, id)
            == (if live && id in t.rows then Some(Unsubscribed) else StatusIn(t, id))
  {
  }

  /** The link emailed for a row, followed at any later point of the run: while the
      token lasts it confirms exactly a pending row and unsubscribes any row, and
      once expired it changes nothing, whatever happened in between. */
  lemma EmailedLinkWorks(
    codec: Codec, secret: string, states: seq<State>, steps: seq<Step>, i: nat, j: nat, id: string, ttl: int)
    requires Sound(codec) && Run(states, steps) && i <= j <= |steps| && id in states[i].rows
    requires Ascii(id) && Ascii(states[i].rows[id].site) && Ascii(states[i].rows[id].email)
    requires TrimSpace(secret) != "" && ttl > 0
    ensures TokenFor(codec, secret, states[i], id, ttl).Success?
    ensures var link := ReadLink(codec, secret, TokenFor(codec, secret, states[i], id, ttl).value, states[j].now);
            var live := Unexpired(states[i].now, ttl, states[j].now);
            && StatusIn(FollowConfirmLink(states[j], link).0, id)
            == (if live && StatusIn(states[j], id) == Some(Pending) then Some(Confirmed) else StatusIn(states[j], id))
            && StatusIn(FollowUnsubscribeLink(states[j], link).0, id)
            == (if live && id in states[j].rows then Some(Unsubscribed) else StatusIn(states[j], id))
  {
    var row := states[i].rows[id];
    RowsStayConsistent(states, steps, i);
    AddressesAreNormalized(states, steps, i);
    RowsKeepTheirIdentity(states, steps, i, j, id);
    ReadBuiltLink(codec, secret, states[i], id, ttl, states[j].now);
    LinkEffects(states[j], id, row.site, row.email, Unexpired(states[i].now, ttl, states[j].now));
  }
}
