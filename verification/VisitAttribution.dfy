/** Traffic attribution of internal/api/site_stats.go. */
module VisitAttribution {
  import opened Basics
  import opened Text
  import opened Visits
  import opened TopCounts

  const DEFAULT_LIMIT := 10
  const MAX_LIMIT := 50
  const VALUE_MAX_LENGTH := 120
  const SOURCE_KEY := "utm_source"
  const MEDIUM_KEY := "utm_medium"
  const CAMPAIGN_KEY := "utm_campaign"
  const DEFAULT_SOURCE := "direct"
  const DEFAULT_MEDIUM := "direct"
  const REFERRAL_MEDIUM := "referral"
  const DEFAULT_CAMPAIGN := "none"
  const WWW_PREFIX := "www."

  /** The URL library: the value of a query key ("" when it is missing) and the
      host name, or nothing when the text is not a URL. */
  datatype UrlLibrary = UrlLibrary(queryValue: (string, string) -> Option<string>, hostname: string -> Option<string>)

  datatype Row = Row(url: string, referrer: string)

  datatype Attribution = Attribution(source: string, medium: string, campaign: string)

  datatype Breakdown = Breakdown(sources: seq<Stat>, mediums: seq<Stat>, campaigns: seq<Stat>)

  function NormalizeLimit(limit: int): (n: nat)
    ensures 1 <= n <= MAX_LIMIT
    ensures 1 <= limit <= MAX_LIMIT ==> n == limit
    ensures limit > MAX_LIMIT ==> n == MAX_LIMIT
  {
    if limit <= 0 then DEFAULT_LIMIT else if limit > MAX_LIMIT then MAX_LIMIT else limit
  }

  function Truncated(s: string): string {
    if |s| > VALUE_MAX_LENGTH then s[..VALUE_MAX_LENGTH] else s
  }

  function NormalizeValue(raw: string): string {
    Truncated(ToLower(TrimSpace(raw)))
  }

  function TrimPrefix(s: string, prefix: string): string {
    if prefix <= s then s[|prefix|..] else s
  }

  function ReadTag(urls: UrlLibrary, url: string, key: string): string {
    match urls.queryValue(TrimSpace(url), key)
    case None => ""
    case Some(value) => NormalizeValue(value)
  }

  function ReferrerHost(urls: UrlLibrary, referrer: string): string {
    match urls.hostname(TrimSpace(referrer))
    case None => ""
    case Some(host) =>
      var lower := ToLower(TrimSpace(host));
      if lower == "" then "" else NormalizeValue(TrimPrefix(lower, WWW_PREFIX))
  }

  function NonEmptyOr(value: string, fallback: string): string {
    if value == "" then fallback else value
  }

  function Resolve(urls: UrlLibrary, row: Row): Attribution {
    var host := ReferrerHost(urls, row.referrer);
    Attribution(
      NonEmptyOr(ReadTag(urls, row.url, SOURCE_KEY), NonEmptyOr(host, DEFAULT_SOURCE)),
      NonEmptyOr(ReadTag(urls, row.url, MEDIUM_KEY), if host != "" then REFERRAL_MEDIUM else DEFAULT_MEDIUM),
      NonEmptyOr(ReadTag(urls, row.url, CAMPAIGN_KEY), DEFAULT_CAMPAIGN))
  }

  datatype Dimension = Source | Medium | Campaign

  function Of(a: Attribution, d: Dimension): string {
    match d
    case Source => a.source
    case Medium => a.medium
    case Campaign => a.campaign
  }

  /** The resolver of rows for a URL library. */
  function Resolver(urls: UrlLibrary): Row -> Attribution {
    row => Resolve(urls, row)
  }

  function Resolved(resolve: Row -> Attribution, rows: seq<Row>): (attributions: seq<Attribution>)
    ensures |attributions| == |rows|
  {
    seq(|rows|, k requires 0 <= k < |rows| => resolve(rows[k]))
  }

  function Values(attributions: seq<Attribution>, d: Dimension): (values: seq<string>)
    ensures |values| == |attributions|
  {
    seq(|attributions|, k requires 0 <= k < |attributions| => Of(attributions[k], d))
  }

  /** The rows of the query. */
  function Selected(visits: seq<Visit>, site: string): seq<Row> {
    if visits == [] then []
    else
      var last := visits[|visits| - 1];
      Selected(visits[..|visits| - 1], site)
      + if last.site == site && !last.isBot then [Row(last.url, last.referrer)] else []
  }

  /** Each list ranks the values that the attributions have in its dimension. */
  predicate BreaksDown(b: Breakdown, attributions: seq<Attribution>, limit: nat) {
    && IsTop(b.sources, Tally(Values(attributions, Source)), limit)
    && IsTop(b.mediums, Tally(Values(attributions, Medium)), limit)
    && IsTop(b.campaigns, Tally(Values(attributions, Campaign)), limit)
  }

  method BreakDown(resolve: Row -> Attribution, rows: seq<Row>, limit: nat) returns (b: Breakdown)
    ensures BreaksDown(b, Resolved(resolve, rows), limit)
  {
    var sources, mediums, campaigns := TallyRows(resolve, rows);
    var topSources := TopStats(sources, limit);
    var topMediums := TopStats(mediums, limit);
    var topCampaigns := TopStats(campaigns, limit);
    b := Breakdown(topSources, topMediums, topCampaigns);
  }

  method TallyRows(resolve: Row -> Attribution, rows: seq<Row>)
    returns (sources: map<string, nat>, mediums: map<string, nat>, campaigns: map<string, nat>)
    ensures sources == Tally(Values(Resolved(resolve, rows), Source))
    ensures mediums == Tally(Values(Resolved(resolve, rows), Medium))
    ensures campaigns == Tally(Values(Resolved(resolve, rows), Campaign))
  {
    sources, mediums, campaigns := map[], map[], map[];
    for k := 0 to |rows|
      invariant sources == Tally(Values(Resolved(resolve, rows[..k]), Source))
      invariant mediums == Tally(Values(Resolved(resolve, rows[..k]), Medium))
      invariant campaigns == Tally(Values(Resolved(resolve, rows[..k]), Campaign))
    {
      var a := resolve(rows[k]);
      ghost var done := Resolved(resolve, rows[..k]);
      assert Resolved(resolve, rows[..k + 1]) == done + [a];
      TallyOneMore(done, a, Source);
      TallyOneMore(done, a, Medium);
      TallyOneMore(done, a, Campaign);
      sources := Bump(sources, a.source);
      mediums := Bump(mediums, a.medium);
      campaigns := Bump(campaigns, a.campaign);
    }
    assert rows[..|rows|] == rows;
  }

  lemma TallyOneMore(done: seq<Attribution>, a: Attribution, d: Dimension)
    ensures Tally(Values(done + [a], d)) == Bump(Tally(Values(done, d)), Of(a, d))
  {
    assert Values(done + [a], d) == Values(done, d) + [Of(a, d)];
  }

  method ComputeVisitAttribution(urls: UrlLibrary, visits: seq<Visit>, site: string, limit: int) returns (b: Breakdown)
    ensures if TrimSpace(site) == "" then b == Breakdown([], [], [])
            else BreaksDown(b, Resolved(Resolver(urls), Selected(visits, site)), NormalizeLimit(limit))
  {
    if TrimSpace(site) == "" { return Breakdown([], [], []); }
    b := BreakDown(Resolver(urls), Selected(visits, site), NormalizeLimit(limit));
  }

  // -------------------------------------------------------------- properties

  /** While nothing is cut off, each of the three lists accounts for every row
      once; cutting off always loses rows. */
  lemma EachListAccountsForTheRows(b: Breakdown, attributions: seq<Attribution>, limit: nat)
    requires BreaksDown(b, attributions, limit)
    ensures SumOf(b.sources) == |attributions| <==> |Tally(Values(attributions, Source))| <= limit
    ensures SumOf(b.mediums) == |attributions| <==> |Tally(Values(attributions, Medium))| <= limit
    ensures SumOf(b.campaigns) == |attributions| <==> |Tally(Values(attributions, Campaign))| <= limit
  {
    TopAccounts(b.sources, Values(attributions, Source), limit);
    TopAccounts(b.mediums, Values(attributions, Medium), limit);
    TopAccounts(b.campaigns, Values(attributions, Campaign), limit);
  }

  /** The breakdown does not depend on the order in which the rows arrive. */
  lemma BreakdownIgnoresOrder(a: Breakdown, b: Breakdown, resolve: Row -> Attribution,
                              rows: seq<Row>, others: seq<Row>, limit: nat)
    requires BreaksDown(a, Resolved(resolve, rows), limit) && BreaksDown(b, Resolved(resolve, others), limit)
    requires multiset(rows) == multiset(others)
    ensures a == b
  {
    SameTally(resolve, rows, others, Source);
    SameTally(resolve, rows, others, Medium);
    SameTally(resolve, rows, others, Campaign);
    var attributions := Resolved(resolve, rows);
    TopIsUnique(a.sources, b.sources, Tally(Values(attributions, Source)), limit);
    TopIsUnique(a.mediums, b.mediums, Tally(Values(attributions, Medium)), limit);
    TopIsUnique(a.campaigns, b.campaigns, Tally(Values(attributions, Campaign)), limit);
  }

  lemma SameTally(resolve: Row -> Attribution, rows: seq<Row>, others: seq<Row>, d: Dimension)
    requires multiset(rows) == multiset(others)
    ensures Tally(Values(Resolved(resolve, rows), d)) == Tally(Values(Resolved(resolve, others), d))
  {
    SameValues(resolve, rows, others, d);
    TallyIgnoresOrder(Values(Resolved(resolve, rows), d), Values(Resolved(resolve, others), d));
  }

  lemma {:induction false} SameValues(resolve: Row -> Attribution, rows: seq<Row>, others: seq<Row>, d: Dimension)
    requires multiset(rows) == multiset(others)
    ensures multiset(Values(Resolved(resolve, rows), d)) == multiset(Values(Resolved(resolve, others), d))
    decreases |rows|
  {
    if rows == [] {
      assert |others| == |multiset(others)| == 0;
    } else {
      assert rows[0] in multiset(others);
      var k :| 0 <= k < |others| && others[k] == rows[0];
      WithoutOne(resolve, rows, 0, d);
      WithoutOne(resolve, others, k, d);
      SameValues(resolve, Without(rows, 0), Without(others, k), d);
    }
  }

  lemma WithoutOne(resolve: Row -> Attribution, rows: seq<Row>, k: nat, d: Dimension)
    requires k < |rows|
    ensures multiset(Without(rows, k)) == multiset(rows) - multiset{rows[k]}
    ensures multiset(Values(Resolved(resolve, rows), d))
         == multiset(Values(Resolved(resolve, Without(rows, k)), d)) + multiset{Of(resolve(rows[k]), d)}
  {
    var values := Values(Resolved(resolve, rows), d);
    WithoutDropsOne(rows, k);
    WithoutDropsOne(values, k);
    assert Values(Resolved(resolve, Without(rows, k)), d) == Without(values, k);
  }

  /** Every attributed value is usable as a label: not empty, not too long, in
      lower case. */
  lemma AttributionsAreLabels(urls: UrlLibrary, row: Row, d: Dimension)
    ensures IsLabel(Of(Resolve(urls, row), d))
  {
    TagIsLabel(urls, row.url, SOURCE_KEY);
    TagIsLabel(urls, row.url, MEDIUM_KEY);
    TagIsLabel(urls, row.url, CAMPAIGN_KEY);
    HostIsLabel(urls, row.referrer);
    assert IsLabel(DEFAULT_SOURCE) && IsLabel(REFERRAL_MEDIUM) && IsLabel(DEFAULT_CAMPAIGN);
  }

  predicate IsLabel(value: string) {
    0 < |value| <= VALUE_MAX_LENGTH && ToLower(value) == value
  }

  lemma TagIsLabel(urls: UrlLibrary, url: string, key: string)
    ensures ReadTag(urls, url, key) == "" || IsLabel(ReadTag(urls, url, key))
  {
    var value := urls.queryValue(TrimSpace(url), key);
    if value.Some? {
      NormalizedIsLabel(value.value);
    }
  }

  lemma HostIsLabel(urls: UrlLibrary, referrer: string)
    ensures ReferrerHost(urls, referrer) == "" || IsLabel(ReferrerHost(urls, referrer))
  {
    var host := urls.hostname(TrimSpace(referrer));
    if host.Some? {
      NormalizedIsLabel(TrimPrefix(ToLower(TrimSpace(host.value)), WWW_PREFIX));
    }
  }

  lemma NormalizedIsLabel(raw: string)
    ensures NormalizeValue(raw) == "" || IsLabel(NormalizeValue(raw))
  {
    var lower := ToLower(TrimSpace(raw));
    LowerIsIdempotent(TrimSpace(raw));
    LowerOfPrefix(lower, if |lower| > VALUE_MAX_LENGTH then VALUE_MAX_LENGTH else |lower|);
  }

  /** Normalizing a stored value again gives the same value, except exactly when
      the cut at the maximum length leaves a space at the end. */
  lemma NormalizingTwice(raw: string)
    ensures (NormalizeValue(NormalizeValue(raw)) == NormalizeValue(raw))
       <==> !(|TrimSpace(raw)| > VALUE_MAX_LENGTH && IsSpace(TrimSpace(raw)[VALUE_MAX_LENGTH - 1]))
  {
    var t := TrimSpace(raw);
    var lower := ToLower(t);
    var once := NormalizeValue(raw);
    TrimSpaceIsTrimmed(raw);
    LowerIsIdempotent(t);
    LowerOfPrefix(lower, |once|);
    assert ToLower(once) == once;
    TrimLower(once);
    TrimSpaceShrinks(once);
    assert NormalizeValue(once) == TrimSpace(once);
    if once != "" {
      LowerKeepsSpace(t[0]);
      LowerKeepsSpace(t[|once| - 1]);
      if Trimmed(once) {
        TrimmedIsFixed(once);
      } else {
        TrimSpaceIsTrimmed(once);
      }
    }
  }

  /** There are such values: the cut can fall right after a space between words. */
  lemma NormalizingTwiceCanDiffer()
    ensures exists raw :: NormalizeValue(NormalizeValue(raw)) != NormalizeValue(raw)
  {
    var raw := seq(VALUE_MAX_LENGTH + 1, k => if k == VALUE_MAX_LENGTH - 1 then ' ' else 'a');
    TrimmedIsFixed(raw);
    NormalizingTwice(raw);
    assert NormalizeValue(NormalizeValue(raw)) != NormalizeValue(raw);
  }

  lemma TrimSpaceShrinks(s: string)
    ensures |TrimSpace(s)| <= |s|
  {
    TrimLeftShape(s);
    TrimRightShape(TrimLeft(s));
  }

  // ------------------------------------------------- what is attributed

  /** The tag of the visited page for a dimension. */
  function TagKey(d: Dimension): string {
    match d
    case Source => "utm_source"
    case Medium => "utm_medium"
    case Campaign => "utm_campaign"
  }

  /** The page's tag for the dimension is there and not blank. */
  predicate IsTagged(urls: UrlLibrary, row: Row, d: Dimension) {
    var value := urls.queryValue(TrimSpace(row.url), TagKey(d));
    value.Some? && TrimSpace(value.value) != ""
  }

  /** The referrer is a URL with a host that is more than "www." */
  predicate IsReferred(urls: UrlLibrary, row: Row) {
    var host := urls.hostname(TrimSpace(row.referrer));
    host.Some? && TrimSpace(BareHost(host.value)) != ""
  }

  function BareHost(host: string): string {
    TrimPrefix(ToLower(TrimSpace(host)), WWW_PREFIX)
  }

  /** Trimming a prefix takes it off exactly where it stands. */
  lemma TrimPrefixMeaning(s: string, prefix: string)
    ensures s == prefix + TrimPrefix(s, prefix) || (TrimPrefix(s, prefix) == s && !(prefix <= s))
  {
  }

  lemma NormalizedIsBlankIff(raw: string)
    ensures NormalizeValue(raw) == "" <==> TrimSpace(raw) == ""
  {
    assert |ToLower(TrimSpace(raw))| == |TrimSpace(raw)|;
  }

  /** A value is stored trimmed and in lower case, cut at 120 characters. */
  lemma NormalizedMeaning(raw: string)
    ensures NormalizeValue(raw) <= ToLower(TrimSpace(raw))
    ensures |NormalizeValue(raw)| == if |TrimSpace(raw)| > 120 then 120 else |TrimSpace(raw)|
  {
  }

  lemma ReadTagMeaning(urls: UrlLibrary, row: Row, d: Dimension)
    ensures IsTagged(urls, row, d) ==>
              ReadTag(urls, row.url, TagKey(d)) == NormalizeValue(urls.queryValue(TrimSpace(row.url), TagKey(d)).value)
              && ReadTag(urls, row.url, TagKey(d)) != ""
    ensures !IsTagged(urls, row, d) ==> ReadTag(urls, row.url, TagKey(d)) == ""
  {
    var value := urls.queryValue(TrimSpace(row.url), TagKey(d));
    if value.Some? {
      NormalizedIsBlankIff(value.value);
    }
  }

  lemma ReferrerHostMeaning(urls: UrlLibrary, row: Row)
    ensures IsReferred(urls, row) ==>
              ReferrerHost(urls, row.referrer) == NormalizeValue(BareHost(urls.hostname(TrimSpace(row.referrer)).value))
              && ReferrerHost(urls, row.referrer) != ""
    ensures !IsReferred(urls, row) ==> ReferrerHost(urls, row.referrer) == ""
  {
    var host := urls.hostname(TrimSpace(row.referrer));
    if host.Some? {
      NormalizedIsBlankIff(BareHost(host.value));
    }
  }

  /** A tag of the page decides its own dimension, and no other. */
  lemma TagDecides(urls: UrlLibrary, row: Row, d: Dimension)
    requires IsTagged(urls, row, d)
    ensures Of(Resolve(urls, row), d) == NormalizeValue(urls.queryValue(TrimSpace(row.url), TagKey(d)).value)
  {
    ReadTagMeaning(urls, row, d);
  }

  /** Without a tag, the referring host is the source and "referral" the medium; without
      a referring host both are "direct"; an untagged campaign is "none". */
  lemma ReferrerDecides(urls: UrlLibrary, row: Row, d: Dimension)
    requires !IsTagged(urls, row, d)
    ensures d == Source && IsReferred(urls, row) ==>
              Of(Resolve(urls, row), d) == NormalizeValue(BareHost(urls.hostname(TrimSpace(row.referrer)).value))
    ensures d == Medium && IsReferred(urls, row) ==> Of(Resolve(urls, row), d) == "referral"
    ensures d != Campaign && !IsReferred(urls, row) ==> Of(Resolve(urls, row), d) == "direct"
    ensures d == Campaign ==> Of(Resolve(urls, row), d) == "none"
  {
    ReadTagMeaning(urls, row, d);
    ReferrerHostMeaning(urls, row);
  }

  function RowsOf(visits: seq<Visit>): (rows: seq<Row>)
    ensures |rows| == |visits|
  {
    seq(|visits|, k requires 0 <= k < |visits| => RowOf(visits[k]))
  }

  function RowOf(v: Visit): Row {
    Row(v.url, v.referrer)
  }

  lemma {:induction false} SelectedRows(visits: seq<Visit>, site: string, keep: Visit -> bool)
    requires forall v :: keep(v) <==> v.site == site && !v.isBot
    ensures Selected(visits, site) == RowsOf(Where(visits, keep))
  {
    if visits != [] {
      SelectedRows(visits[..|visits| - 1], site, keep);
    }
  }

  /** The rows attributed are exactly the site's visits that are not by bots, each as
      often as it was recorded, in their order. */
  lemma SelectedMeaning(visits: seq<Visit>, site: string, keep: Visit -> bool, v: Visit)
    requires forall x :: keep(x) <==> x.site == site && !x.isBot
    ensures Selected(visits, site) == RowsOf(Where(visits, keep))
    ensures multiset(Where(visits, keep))[v] == if v.site == site && !v.isBot then multiset(visits)[v] else 0
    ensures Subsequence(Where(visits, keep), visits)
  {
    SelectedRows(visits, site, keep);
    WhereMeaning(visits, keep, v);
  }
}
