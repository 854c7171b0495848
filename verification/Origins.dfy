/** Allowed-origin lists: parsing, merging, normalizing and the access decision
    (internal/api/public.go and internal/api/admin.go). */
module Origins {
  import opened Basics
  import opened Text

  function SpaceSeparators(s: string): string {
    seq(|s|, k requires 0 <= k < |s| => if s[k] == ',' || s[k] == ';' then ' ' else s[k])
  }

  /** All words of a raw list, repetitions included. */
  function Tokens(raw: string): seq<string> {
    Fields(SpaceSeparators(TrimSpace(raw)))
  }

  /** Words up to letter case. */
  function FoldSet(list: seq<string>): set<string> {
    set t | t in list :: ToLower(t)
  }

  /** One more word, unless it repeats a kept one up to case. */
  function Add(kept: seq<string>, t: string): seq<string> {
    if ToLower(t) in FoldSet(kept) then kept else kept + [t]
  }

  function Collect(kept: seq<string>, list: seq<string>): seq<string>
    decreases list
  {
    if list == [] then kept else Collect(Add(kept, list[0]), list[1..])
  }

  /** The list with every word dropped that repeats an earlier one up to case. */
  function FirstOccurrences(list: seq<string>): seq<string> {
    Collect([], list)
  }

  function Parsed(raw: string): seq<string> {
    FirstOccurrences(Tokens(raw))
  }

  function Primary(raw: string): string {
    var origins := Parsed(raw);
    if |origins| == 0 then "" else origins[0]
  }

  function Normalized(raw: string): string {
    Join(Parsed(raw), " ")
  }

  function Merged(primary: string, extra: string): string {
    Join(FirstOccurrences(Parsed(primary) + Parsed(extra)), " ")
  }

  // ------------------------------------------------------------ the loops

  /** The loop that both list functions of the source run over their words. */
  method KeepFirstOccurrences(words: seq<string>) returns (kept: seq<string>)
    requires Words(words)
    ensures kept == FirstOccurrences(words)
  {
    kept := [];
    var seen: set<string> := {};
    for k := 0 to |words|
      invariant Collect(kept, words[k..]) == FirstOccurrences(words)
      invariant seen == FoldSet(kept)
    {
      assert words[k] in words;
      WordIsTrimmed(words[k]);
      FoldSetConcat(kept, [words[k]]);
      var word := TrimSpace(words[k]);
      if word == "" { continue; }
      var key := ToLower(word);
      if key in seen { continue; }
      seen := seen + {key};
      kept := kept + [word];
    }
  }

  method ParseAllowedOrigins(raw: string) returns (unique: seq<string>)
    ensures unique == Parsed(raw)
  {
    var trimmed := TrimSpace(raw);
    if trimmed == "" {
      assert SpaceSeparators(trimmed) == "";
      return [];
    }
    var parts := Fields(SpaceSeparators(trimmed));
    TokensAreWords(raw);
    unique := KeepFirstOccurrences(parts);
  }

  method MergedAllowedOrigins(primary: string, extra: string) returns (merged: string)
    ensures merged == Merged(primary, extra)
  {
    var primaryList := ParseAllowedOrigins(primary);
    var extraList := ParseAllowedOrigins(extra);
    MergeWithEmptyList(primary, extra);
    if |primaryList| == 0 && |extraList| == 0 { return ""; }
    if |primaryList| == 0 { return Join(extraList, " "); }
    if |extraList| == 0 { return Join(primaryList, " "); }
    ParsedAreWords(primary);
    ParsedAreWords(extra);
    var list := KeepFirstOccurrences(primaryList + extraList);
    if |list| == 0 { return ""; }
    return Join(list, " ");
  }

  // ------------------------------------------------- shape of parsed lists

  predicate SeparatorFree(list: seq<string>) {
    forall t :: t in list ==> ',' !in t && ';' !in t
  }

  lemma TokensAreWords(raw: string)
    ensures Words(Tokens(raw)) && SeparatorFree(Tokens(raw))
  {
    forall t | t in Tokens(raw) ensures t != [] && SpaceFree(t) && ',' !in t && ';' !in t {
      FieldsAreWords("", SpaceSeparators(TrimSpace(raw)), t);
    }
  }

  lemma WordIsTrimmed(t: string)
    requires t != [] && SpaceFree(t)
    ensures TrimSpace(t) == t
  {
    TrimmedIsFixed(t);
  }

  lemma {:induction false} CollectMembers(kept: seq<string>, list: seq<string>)
    ensures kept <= Collect(kept, list)
    ensures forall t :: t in Collect(kept, list) ==> t in kept || t in list
    decreases list
  {
    if list != [] {
      CollectMembers(Add(kept, list[0]), list[1..]);
    }
  }

  lemma FirstOccurrencesAreMembers(list: seq<string>)
    ensures forall t :: t in FirstOccurrences(list) ==> t in list
    ensures list != [] ==> FirstOccurrences(list) != [] && FirstOccurrences(list)[0] == list[0]
  {
    CollectMembers([], list);
    if list != [] {
      CollectMembers([list[0]], list[1..]);
      assert Add([], list[0]) == [list[0]];
    }
  }

  /** Collecting goes word by word, so it splits at any point of the list. */
  lemma {:induction false} CollectConcat(kept: seq<string>, x: seq<string>, y: seq<string>)
    ensures Collect(kept, x + y) == Collect(Collect(kept, x), y)
    decreases x
  {
    if x == [] {
      assert x + y == y;
    } else {
      assert (x + y)[0] == x[0] && (x + y)[1..] == x[1..] + y;
      CollectConcat(Add(kept, x[0]), x[1..], y);
    }
  }

  lemma CollectOne(kept: seq<string>, t: string)
    ensures Collect(kept, [t]) == Add(kept, t)
  {
    assert [t][1..] == [];
  }

  lemma ParsedAreWords(raw: string)
    ensures Words(Parsed(raw)) && SeparatorFree(Parsed(raw))
  {
    FirstOccurrencesAreMembers(Tokens(raw));
    TokensAreWords(raw);
  }

  lemma FoldSetConcat(a: seq<string>, b: seq<string>)
    ensures FoldSet(a + b) == FoldSet(a) + FoldSet(b)
  {
    assert forall t :: t in a + b <==> t in a || t in b;
  }

  lemma EmptyFoldSet(list: seq<string>)
    ensures FoldSet(list) == {} <==> list == []
  {
    if list != [] {
      assert ToLower(list[0]) in FoldSet(list);
    }
  }

  lemma FoldSetOne(t: string)
    ensures FoldSet([t]) == {ToLower(t)}
  {
  }

  lemma {:induction false} CollectFold(kept: seq<string>, list: seq<string>)
    ensures FoldSet(Collect(kept, list)) == FoldSet(kept) + FoldSet(list)
    decreases list
  {
    if list != [] {
      var t := list[0];
      CollectFold(Add(kept, t), list[1..]);
      FoldSetConcat(kept, [t]);
      FoldSetConcat([t], list[1..]);
      FoldSetOne(t);
      assert list == [t] + list[1..];
    }
  }

  /** Dropping case variants keeps the set of words up to case. */
  lemma FirstOccurrencesKeepFold(list: seq<string>)
    ensures FoldSet(FirstOccurrences(list)) == FoldSet(list)
  {
    CollectFold([], list);
  }

  predicate Distinct(list: seq<string>) {
    forall j, k :: 0 <= j < k < |list| ==> !EqualFold(list[j], list[k])
  }

  lemma {:induction false} CollectIsDistinct(kept: seq<string>, list: seq<string>)
    requires Distinct(kept)
    ensures Distinct(Collect(kept, list))
    decreases list
  {
    if list != [] {
      var next := Add(kept, list[0]);
      forall k | 0 <= k < |kept| ensures ToLower(kept[k]) in FoldSet(kept) {
        assert kept[k] in kept;
      }
      CollectIsDistinct(next, list[1..]);
    }
  }

  /** Collecting twice is collecting once: the law behind every fact on merging. */
  lemma {:induction false} CollectAssociates(kept: seq<string>, d: seq<string>, y: seq<string>)
    ensures Collect(kept, Collect(d, y)) == Collect(Collect(kept, d), y)
    decreases y
  {
    if y != [] {
      CollectAssociates(kept, Add(d, y[0]), y[1..]);
      CollectAdded(kept, d, y[0]);
    }
  }

  lemma CollectAdded(kept: seq<string>, d: seq<string>, t: string)
    ensures Collect(kept, Add(d, t)) == Add(Collect(kept, d), t)
  {
    CollectFold(kept, d);
    CollectConcat(kept, d, [t]);
    CollectOne(Collect(kept, d), t);
  }

  lemma FirstOccurrencesTwice(list: seq<string>)
    ensures FirstOccurrences(FirstOccurrences(list)) == FirstOccurrences(list)
  {
    CollectAssociates([], [], list);
  }

  lemma MergeWithEmptyList(primary: string, extra: string)
    ensures Parsed(primary) == [] ==> Merged(primary, extra) == Join(Parsed(extra), " ")
    ensures Parsed(extra) == [] ==> Merged(primary, extra) == Join(Parsed(primary), " ")
  {
    FirstOccurrencesTwice(Tokens(primary));
    FirstOccurrencesTwice(Tokens(extra));
    assert [] + Parsed(extra) == Parsed(extra);
    assert Parsed(primary) + [] == Parsed(primary);
  }

  /** The position of the first word equal to `t` up to case. */
  function FirstIndex(list: seq<string>, t: string): (k: nat)
    requires ToLower(t) in FoldSet(list)
    ensures k < |list| && EqualFold(list[k], t)
    ensures forall j :: 0 <= j < k ==> !EqualFold(list[j], t)
  {
    if EqualFold(list[0], t) then 0
    else
      assert list == [list[0]] + list[1..];
      FoldSetConcat([list[0]], list[1..]);
      FoldSetOne(list[0]);
      FirstIndex(list[1..], t) + 1
  }

  /** `t` occurs in `list` and its first occurrence up to case is spelled as `t`. */
  ghost predicate FirstSpelling(list: seq<string>, t: string) {
    ToLower(t) in FoldSet(list) && t == list[FirstIndex(list, t)]
  }

  lemma FirstSpellingExtends(init: seq<string>, last: string, t: string)
    requires ToLower(t) in FoldSet(init)
    ensures ToLower(t) in FoldSet(init + [last])
    ensures FirstIndex(init + [last], t) == FirstIndex(init, t)
    ensures FirstSpelling(init + [last], t) == FirstSpelling(init, t)
  {
    FoldSetConcat(init, [last]);
    var list := init + [last];
    var k := FirstIndex(init, t);
    assert list[k] == init[k];
    assert forall j :: 0 <= j < k ==> list[j] == init[j];
  }

  lemma NewWordIsLast(init: seq<string>, last: string)
    requires ToLower(last) !in FoldSet(init)
    ensures FirstSpelling(init + [last], last) && FirstIndex(init + [last], last) == |init|
  {
    FoldSetConcat(init, [last]);
    FoldSetOne(last);
    var list := init + [last];
    forall j | 0 <= j < |init| ensures !EqualFold(list[j], last) {
      assert init[j] in init;
    }
  }

  /** `kept` lists first spellings of `list`, in order of first appearance. */
  ghost predicate AreFirstSpellings(list: seq<string>, kept: seq<string>) {
    && (forall t :: t in kept ==> FirstSpelling(list, t))
    && (forall j, k :: 0 <= j < k < |kept| ==> Precedes(list, kept[j], kept[k]))
  }

  /** Both words occur in the list, up to case, and the first one first. */
  ghost predicate Precedes(list: seq<string>, t: string, u: string) {
    && ToLower(t) in FoldSet(list) && ToLower(u) in FoldSet(list)
    && FirstIndex(list, t) < FirstIndex(list, u)
  }

  lemma FirstSpellingsExtend(init: seq<string>, last: string, kept: seq<string>)
    requires AreFirstSpellings(init, kept)
    ensures AreFirstSpellings(init + [last], kept)
  {
    forall t | t in kept
      ensures FirstSpelling(init + [last], t) && FirstIndex(init + [last], t) == FirstIndex(init, t) {
      FirstSpellingExtends(init, last, t);
    }
    forall j, k | 0 <= j < k < |kept| ensures Precedes(init + [last], kept[j], kept[k]) {
      assert kept[j] in kept && kept[k] in kept && Precedes(init, kept[j], kept[k]);
    }
  }

  lemma NewWordIsKept(init: seq<string>, last: string, kept: seq<string>)
    requires AreFirstSpellings(init, kept) && ToLower(last) !in FoldSet(init)
    ensures AreFirstSpellings(init + [last], kept + [last])
  {
    FirstSpellingsExtend(init, last, kept);
    NewWordIsLast(init, last);
    var list, next := init + [last], kept + [last];
    forall j, k | 0 <= j < k < |next| ensures Precedes(list, next[j], next[k]) {
      assert next[j] == kept[j] && kept[j] in kept;
      if k < |kept| {
        assert next[k] == kept[k] && Precedes(list, kept[j], kept[k]);
      } else {
        FirstSpellingExtends(init, last, next[j]);
      }
    }
  }

  /** What deduplication keeps: exactly the first spelling of every word, in
      order of first appearance. */
  lemma {:induction false} KeptAreFirstSpellings(list: seq<string>)
    ensures FoldSet(FirstOccurrences(list)) == FoldSet(list)
    ensures AreFirstSpellings(list, FirstOccurrences(list))
  {
    FirstOccurrencesKeepFold(list);
    if list != [] {
      var init, last := list[..|list| - 1], list[|list| - 1];
      assert list == init + [last];
      KeptAreFirstSpellings(init);
      CollectConcat([], init, [last]);
      CollectOne(FirstOccurrences(init), last);
      if ToLower(last) in FoldSet(init) {
        FirstSpellingsExtend(init, last, FirstOccurrences(init));
      } else {
        NewWordIsKept(init, last, FirstOccurrences(init));
      }
    }
  }

  // ------------------------------------------------------------------ laws

  lemma ReparseWords(list: seq<string>)
    requires Words(list) && SeparatorFree(list)
    ensures Tokens(Join(list, " ")) == list
  {
    var joined := Join(list, " ");
    JoinIsTrimmed(list);
    TrimmedIsFixed(joined);
    assert SpaceSeparators(joined) == joined by {
      forall k | 0 <= k < |joined| ensures joined[k] != ',' && joined[k] != ';' {
        JoinCharacters(list, joined[k]);
        if joined[k] != ' ' {
          var j :| 0 <= j < |list| && joined[k] in list[j];
          assert list[j] in list;
        }
      }
    }
    FieldsOfJoin(list);
  }

  /** The characters that are neither white space nor separators. */
  function WithoutSeparators(s: string): string {
    if s == [] then [] else Kept(s[0]) + WithoutSeparators(s[1..])
  }

  function Kept(c: char): string {
    if IsSpace(c) || c == ',' || c == ';' then [] else [c]
  }

  lemma {:induction false} SeparatorsBecomeSpace(s: string)
    ensures WithoutSpace(SpaceSeparators(s)) == WithoutSeparators(s)
  {
    if s != [] {
      SeparatorsBecomeSpace(s[1..]);
      assert SpaceSeparators(s)[1..] == SpaceSeparators(s[1..]);
    }
  }

  lemma Regroup(a: string, b: string, c: string)
    ensures a + (b + c) == (a + b) + c
  {
  }

  lemma {:induction false} WithoutSeparatorsConcat(a: string, b: string)
    ensures WithoutSeparators(a + b) == WithoutSeparators(a) + WithoutSeparators(b)
  {
    if a == [] {
      assert a + b == b;
    } else {
      assert (a + b)[0] == a[0] && (a + b)[1..] == a[1..] + b;
      WithoutSeparatorsConcat(a[1..], b);
      Regroup(Kept(a[0]), WithoutSeparators(a[1..]), WithoutSeparators(b));
    }
  }

  lemma {:induction false} TrimLeftDropsSpace(s: string)
    ensures WithoutSeparators(TrimLeft(s)) == WithoutSeparators(s)
  {
    if s != [] && IsSpace(s[0]) {
      TrimLeftDropsSpace(s[1..]);
    }
  }

  lemma {:induction false} TrimRightDropsSpace(s: string)
    ensures WithoutSeparators(TrimRight(s)) == WithoutSeparators(s)
  {
    if s != [] && IsSpace(s[|s| - 1]) {
      var init, last := s[..|s| - 1], s[|s| - 1..];
      TrimRightDropsSpace(init);
      assert s == init + last;
      WithoutSeparatorsConcat(init, last);
      assert last[1..] == [];
    }
  }

  /** Splitting a list loses nothing but separators: joined without any, its words
      are the text's other characters, in order. With KeptAreFirstSpellings, parsing
      loses nothing but separators and repetitions. */
  lemma TokensKeepTheText(raw: string)
    ensures Join(Tokens(raw), "") == WithoutSeparators(raw)
  {
    var trimmed := TrimSpace(raw);
    FieldsConserve("", SpaceSeparators(trimmed));
    SeparatorsBecomeSpace(trimmed);
    TrimLeftDropsSpace(raw);
    TrimRightDropsSpace(TrimLeft(raw));
  }

  /** Parsing a joined parse gives the same list. */
  lemma ParseOfNormalized(raw: string)
    ensures Parsed(Normalized(raw)) == Parsed(raw)
    ensures Normalized(Normalized(raw)) == Normalized(raw)
    ensures Distinct(Parsed(raw))
  {
    CollectIsDistinct([], Tokens(raw));
    ParsedAreWords(raw);
    ReparseWords(Parsed(raw));
    FirstOccurrencesTwice(Tokens(raw));
  }

  /** A merged list parses to the first occurrences of all words of both lists. */
  lemma ParseOfMerged(primary: string, extra: string)
    ensures Parsed(Merged(primary, extra)) == FirstOccurrences(Tokens(primary) + Tokens(extra))
  {
    var both := Parsed(primary) + Parsed(extra);
    ParsedAreWords(primary);
    ParsedAreWords(extra);
    FirstOccurrencesAreMembers(both);
    ReparseWords(FirstOccurrences(both));
    FirstOccurrencesTwice(both);
    FirstOccurrencesTwice(Tokens(primary));
    CollectConcat([], Parsed(primary), Parsed(extra));
    CollectAssociates(Parsed(primary), [], Tokens(extra));
    CollectConcat([], Tokens(primary), Tokens(extra));
  }

  /** The primary origin is the first word of the text, if it has one. */
  lemma PrimaryIsFirstWord(raw: string)
    ensures Primary(raw) == if Tokens(raw) == [] then "" else Tokens(raw)[0]
  {
    FirstOccurrencesAreMembers(Tokens(raw));
  }

  /** Texts that differ only in letter case list the same origins up to case,
      and their primary origins agree up to case. */
  lemma SameTextUpToCase(a: string, b: string)
    requires EqualFold(TrimSpace(a), TrimSpace(b))
    ensures FoldSet(Parsed(a)) == FoldSet(Parsed(b))
    ensures EqualFold(Primary(a), Primary(b))
  {
    TokensFold(a);
    TokensFold(b);
    FirstOccurrencesKeepFold(Tokens(a));
    FirstOccurrencesKeepFold(Tokens(b));
    FirstOccurrencesAreMembers(Tokens(a));
    FirstOccurrencesAreMembers(Tokens(b));
    SameFoldSet(Tokens(a), Tokens(b));
  }

  lemma SameFoldSet(a: seq<string>, b: seq<string>)
    requires |a| == |b| && forall k :: 0 <= k < |a| ==> ToLower(a[k]) == ToLower(b[k])
    ensures FoldSet(a) == FoldSet(b)
  {
    forall t | t in a ensures ToLower(t) in FoldSet(b) {
      var k :| 0 <= k < |a| && a[k] == t;
      assert b[k] in b;
    }
    forall t | t in b ensures ToLower(t) in FoldSet(a) {
      var k :| 0 <= k < |b| && b[k] == t;
      assert a[k] in a;
    }
  }

  function FoldedFields(raw: string): seq<string> {
    Fields(SpaceSeparators(ToLower(TrimSpace(raw))))
  }

  lemma TokensFold(raw: string)
    ensures |FoldedFields(raw)| == |Tokens(raw)|
    ensures forall k :: 0 <= k < |Tokens(raw)| ==> FoldedFields(raw)[k] == ToLower(Tokens(raw)[k])
  {
    var trimmed := TrimSpace(raw);
    assert SpaceSeparators(ToLower(trimmed)) == ToLower(SpaceSeparators(trimmed));
    FieldsLower("", SpaceSeparators(trimmed));
    assert ToLower("") == "";
  }

  // ------------------------------------------------------- access decision

  /** What the URL library reports: scheme and host, or a parse error. */
  type UrlParser = string -> Option<(string, string)>

  function LoweredParts(parts: Option<(string, string)>): Option<(string, string)> {
    match parts
    case None => None
    case Some((scheme, host)) => Some((ToLower(scheme), ToLower(host)))
  }

  /** Letter case never changes which scheme and host a URL has, up to case. */
  ghost predicate CaseBlind(parse: UrlParser) {
    forall s :: LoweredParts(parse(s)) == LoweredParts(parse(ToLower(s)))
  }

  function NormalizeOrigin(parse: UrlParser, raw: string): string {
    var trimmed := TrimSpace(raw);
    if trimmed == "" then ""
    else match parse(trimmed)
      case None => ""
      case Some((scheme, host)) =>
        if scheme == "" || host == "" then "" else ToLower(scheme) + "://" + ToLower(host)
  }

  /** The three places of a request an origin is read from. */
  datatype Request = Request(origin: string, referer: string, url: string)

  /** A configured origin is one of the request's. */
  predicate Matches(candidate: string, origin: string, referer: string, url: string) {
    candidate != "" && (candidate == origin || candidate == referer || candidate == url)
  }

  /** One configured word admits the request. */
  predicate Admits(parse: UrlParser, word: string, request: Request) {
    Matches(NormalizeOrigin(parse, word), NormalizeOrigin(parse, request.origin),
            NormalizeOrigin(parse, request.referer), NormalizeOrigin(parse, request.url))
  }

  predicate Allowed(parse: UrlParser, words: seq<string>, request: Request) {
    words == [] || SomeAdmits(parse, words, request)
  }

  predicate SomeAdmits(parse: UrlParser, words: seq<string>, request: Request) {
    exists k :: 0 <= k < |words| && Admits(parse, words[k], request)
  }

  method IsOriginAllowed(parse: UrlParser, allowedOrigin: string, request: Request) returns (allowed: bool)
    ensures allowed == Allowed(parse, Parsed(allowedOrigin), request)
  {
    var configured := ParseAllowedOrigins(allowedOrigin);
    if |configured| == 0 { return true; }
    var origin := NormalizeOrigin(parse, request.origin);
    var referer := NormalizeOrigin(parse, request.referer);
    var url := NormalizeOrigin(parse, request.url);
    allowed := SomeMatches(Normalizer(parse), configured, origin, referer, url);
  }

  function Normalizer(parse: UrlParser): string -> string {
    raw => NormalizeOrigin(parse, raw)
  }

  /** The loop over the configured origins. */
  method SomeMatches(normalize: string -> string, configured: seq<string>, origin: string, referer: string, url: string)
    returns (allowed: bool)
    ensures allowed <==> exists k :: 0 <= k < |configured| && Matches(normalize(configured[k]), origin, referer, url)
  {
    for k := 0 to |configured|
      invariant forall j :: 0 <= j < k ==> !Matches(normalize(configured[j]), origin, referer, url)
    {
      var candidate := normalize(configured[k]);
      if candidate == "" { continue; }
      if origin == candidate { return true; }
      if url != "" && url == candidate { return true; }
      if referer != "" && referer == candidate { return true; }
    }
    return false;
  }

  // ---------------------------- the decision in terms of the URL parser

  /** No scheme holds a colon; the URL syntax (section 3.1 of RFC 3986) has none. */
  ghost predicate PlainSchemes(parse: UrlParser) {
    forall s :: parse(s).Some? ==> ':' !in parse(s).value.0
  }

  /** The text is a URL with a scheme and a host. */
  predicate HasOrigin(parse: UrlParser, raw: string) {
    TrimSpace(raw) != "" && parse(TrimSpace(raw)).Some?
    && parse(TrimSpace(raw)).value.0 != "" && parse(TrimSpace(raw)).value.1 != ""
  }

  /** Both texts are URLs with the same scheme and the same host, up to case. */
  predicate SameOrigin(parse: UrlParser, a: string, b: string) {
    && HasOrigin(parse, a) && HasOrigin(parse, b)
    && EqualFold(parse(TrimSpace(a)).value.0, parse(TrimSpace(b)).value.0)
    && EqualFold(parse(TrimSpace(a)).value.1, parse(TrimSpace(b)).value.1)
  }

  lemma LowerKeepsColons(s: string)
    ensures ':' in ToLower(s) <==> ':' in s
  {
    assert forall k :: 0 <= k < |s| ==> (ToLower(s)[k] == ':' <==> s[k] == ':');
  }

  lemma ColonEndsScheme(a: string, b: string, c: string, d: string)
    requires ':' !in a && ':' !in c && a + "://" + b == c + "://" + d
    ensures |a| <= |c|
  {
    var whole := c + "://" + d;
    assert whole == a + "://" + b;
    assert forall k :: 0 <= k < |a| ==> whole[k] == a[k];
    assert whole[|c|] == ':';
  }

  lemma SchemeAndHostAreDetermined(a: string, b: string, c: string, d: string)
    requires ':' !in a && ':' !in c
    ensures a + "://" + b == c + "://" + d <==> a == c && b == d
  {
    if a + "://" + b == c + "://" + d {
      var whole := a + "://" + b;
      ColonEndsScheme(a, b, c, d);
      ColonEndsScheme(c, d, a, b);
      assert a == whole[..|a|] && c == whole[..|c|];
      assert b == whole[|a| + 3..] && d == whole[|c| + 3..];
    }
  }

  lemma NormalizedOrigin(parse: UrlParser, raw: string)
    ensures NormalizeOrigin(parse, raw)
         == if HasOrigin(parse, raw)
            then ToLower(parse(TrimSpace(raw)).value.0) + "://" + ToLower(parse(TrimSpace(raw)).value.1)
            else ""
  {
  }

  /** Normalized origins are equal, and there, exactly for URLs with the same scheme
      and host up to case. */
  lemma SameNormalizedOrigin(parse: UrlParser, a: string, b: string)
    requires PlainSchemes(parse)
    ensures NormalizeOrigin(parse, a) != "" && NormalizeOrigin(parse, a) == NormalizeOrigin(parse, b)
       <==> SameOrigin(parse, a, b)
  {
    NormalizedOrigin(parse, a);
    NormalizedOrigin(parse, b);
    if HasOrigin(parse, a) && HasOrigin(parse, b) {
      var (x, y) := parse(TrimSpace(a)).value;
      var (z, w) := parse(TrimSpace(b)).value;
      LowerKeepsColons(x);
      LowerKeepsColons(z);
      SchemeAndHostAreDetermined(ToLower(x), ToLower(y), ToLower(z), ToLower(w));
    }
  }

  /** The word names the origin of one of the request's three texts. */
  predicate Names(parse: UrlParser, word: string, request: Request) {
    || SameOrigin(parse, word, request.origin)
    || SameOrigin(parse, word, request.referer)
    || SameOrigin(parse, word, request.url)
  }

  lemma AdmitsMeaning(parse: UrlParser, word: string, request: Request)
    requires PlainSchemes(parse)
    ensures Admits(parse, word, request) <==> Names(parse, word, request)
  {
    SameNormalizedOrigin(parse, word, request.origin);
    SameNormalizedOrigin(parse, word, request.referer);
    SameNormalizedOrigin(parse, word, request.url);
  }

  /** A list admits a request exactly when it is empty or one of its words has the
      scheme and the host, up to case, of the request's origin, referer or URL. */
  lemma AllowedMeaning(parse: UrlParser, words: seq<string>, request: Request)
    requires PlainSchemes(parse)
    ensures Allowed(parse, words, request)
       <==> words == [] || exists k :: 0 <= k < |words| && Names(parse, words[k], request)
  {
    forall k | 0 <= k < |words| ensures Admits(parse, words[k], request) <==> Names(parse, words[k], request) {
      AdmitsMeaning(parse, words[k], request);
    }
  }

  lemma AdmitsIgnoresCase(parse: UrlParser, a: string, b: string, request: Request)
    requires CaseBlind(parse) && EqualFold(a, b)
    ensures Admits(parse, a, request) == Admits(parse, b, request)
  {
    TrimLower(a);
    TrimLower(b);
    var x, y := TrimSpace(a), TrimSpace(b);
    assert ToLower(x) == ToLower(y);
    assert LoweredParts(parse(x)) == LoweredParts(parse(ToLower(x)));
    assert LoweredParts(parse(y)) == LoweredParts(parse(ToLower(y)));
    assert |x| == |ToLower(x)| == |ToLower(y)| == |y|;
    match parse(x)
    case None =>
    case Some((scheme, host)) =>
      var Some((scheme', host')) := parse(y);
      assert ToLower(scheme) == ToLower(scheme') && ToLower(host) == ToLower(host');
      assert |scheme| == |ToLower(scheme)| == |scheme'|;
      assert |host| == |ToLower(host)| == |host'|;
  }

  /** Two lists with the same words up to case admit the same requests. */
  lemma AllowedIgnoresSpelling(parse: UrlParser, a: seq<string>, b: seq<string>, request: Request)
    requires CaseBlind(parse) && FoldSet(a) == FoldSet(b)
    ensures Allowed(parse, a, request) == Allowed(parse, b, request)
  {
    SpellingCovers(parse, a, b, request);
    SpellingCovers(parse, b, a, request);
  }

  lemma SpellingCovers(parse: UrlParser, a: seq<string>, b: seq<string>, request: Request)
    requires CaseBlind(parse) && FoldSet(a) == FoldSet(b)
    ensures Allowed(parse, a, request) ==> Allowed(parse, b, request)
  {
    EmptyFoldSet(a);
    EmptyFoldSet(b);
    if a != [] && Allowed(parse, a, request) {
      var k :| 0 <= k < |a| && Admits(parse, a[k], request);
      assert ToLower(a[k]) in FoldSet(b);
      var t :| t in b && ToLower(t) == ToLower(a[k]);
      var j :| 0 <= j < |b| && b[j] == t;
      AdmitsIgnoresCase(parse, a[k], b[j], request);
    }
  }

  lemma SomeAdmitsConcat(parse: UrlParser, p: seq<string>, e: seq<string>, request: Request)
    ensures SomeAdmits(parse, p + e, request) <==> SomeAdmits(parse, p, request) || SomeAdmits(parse, e, request)
  {
    if SomeAdmits(parse, p, request) {
      var k :| 0 <= k < |p| && Admits(parse, p[k], request);
      assert (p + e)[k] == p[k];
    }
    if SomeAdmits(parse, e, request) {
      var k :| 0 <= k < |e| && Admits(parse, e[k], request);
      assert (p + e)[|p| + k] == e[k];
    }
  }

  /** A request is allowed by the merge exactly when both lists are empty or some
      word of either list, in any of its spellings, admits it. */
  lemma MergeAllows(parse: UrlParser, primary: string, extra: string, request: Request)
    requires CaseBlind(parse)
    ensures Allowed(parse, Parsed(Merged(primary, extra)), request)
            <==> || (Tokens(primary) == [] && Tokens(extra) == [])
                 || SomeAdmits(parse, Tokens(primary), request)
                 || SomeAdmits(parse, Tokens(extra), request)
  {
    var p, e := Tokens(primary), Tokens(extra);
    ParseOfMerged(primary, extra);
    FirstOccurrencesKeepFold(p + e);
    AllowedIgnoresSpelling(parse, FirstOccurrences(p + e), p + e, request);
    SomeAdmitsConcat(parse, p, e, request);
  }
}
