/** The sites: the handlers of internal/api/admin.go that create, change and delete
    them, and the favicon worker of internal/api/site_favicon_manager.go that reads
    a row, fetches, and later writes to the row. */
module SiteRegistry {
  import opened Basics
  import opened Text
  import opened Origins
  import opened Favicons
  import Base64

  datatype Site = Site(allowedOrigin: string, icon: Icon)

  /** `widgetValid`: the widget side and offset pass their sanitizers. */
  datatype CreateRequest = CreateRequest(
    name: string, allowedOrigin: string, ownerEmail: string, creatorEmail: string, widgetValid: bool)

  /** `others`: a field outside the model is given. */
  datatype UpdateRequest = UpdateRequest(
    name: Option<string>, allowedOrigin: Option<string>, ownerEmail: Option<string>, others: bool, widgetValid: bool)

  datatype Response =
    | Done | MissingFields | InvalidOwner | InvalidWidget | SiteExists | NothingToUpdate | UnknownSite | NotAuthorized

  /** A fetch between reading the row and writing to it. */
  datatype Fetch = Fetch(id: nat, origin: string, snapshot: Icon, forced: bool, notify: bool, at: Time)

  /** A completed fetch: when it was made, and whether it found an icon. */
  datatype Attempt = Attempt(at: Time, forced: bool, found: bool)

  datatype Event = Event(id: nat, at: Time)

  /** An icon as the resolver returned it for an origin. */
  datatype Source = Source(origin: string, data: seq<Base64.Byte>, contentType: string)

  /** `source` and `log` are history: what the resolver returned when the icon of a
      site was last stored, and the fetches made for a site since its icon columns
      were cleared. */
  datatype State = State(
    sites: map<nat, Site>,
    nextId: nat,
    now: Time,
    pending: Option<Fetch>,
    events: seq<Event>,
    source: map<nat, Source>,
    log: map<nat, seq<Attempt>>)

  datatype Step =
    | Create(create: CreateRequest)
    | Update(id: nat, update: UpdateRequest, canManage: bool)
    | Delete(id: nat, canManage: bool)
    | Tick(d: nat)
    | Begin(id: nat, force: bool, notify: bool, d: nat)
    | Finish(outcome: Outcome)

  ghost predicate Initial(s: State) {
    s.sites == map[] && s.pending == None && s.events == [] && s.source == map[] && s.log == map[] && s.now > 0
  }

  // ------------------------------------------------------------- handlers

  function OriginSet(allowedOrigin: string): set<string> {
    FoldSet(Parsed(allowedOrigin))
  }

  /** Another site than the excluded one lists one of the origins, up to case. */
  ghost predicate Conflict(sites: map<nat, Site>, allowedOrigin: string, excluded: Option<nat>) {
    exists id :: id in sites && Some(id) != excluded && Clash(sites[id].allowedOrigin, allowedOrigin)
  }

  ghost predicate Clash(a: string, b: string) {
    OriginSet(a) * OriginSet(b) != {}
  }

  function OwnerOf(r: CreateRequest): string {
    var desired := ToLower(TrimSpace(r.ownerEmail));
    if desired == "" then r.creatorEmail else desired
  }

  ghost function CreateResponse(sites: map<nat, Site>, r: CreateRequest): Response {
    if TrimSpace(r.name) == "" || TrimSpace(r.allowedOrigin) == "" then MissingFields
    else if OwnerOf(r) == "" then InvalidOwner
    else if !r.widgetValid then InvalidWidget
    else if Conflict(sites, TrimSpace(r.allowedOrigin), None) then SiteExists
    else Done
  }

  function PrimaryOrigin(allowedOrigin: string): string {
    TrimSpace(Primary(allowedOrigin))
  }

  function NewSite(r: CreateRequest): Site {
    Site(TrimSpace(r.allowedOrigin), Cleared(Primary(TrimSpace(r.allowedOrigin))))
  }

  /** The request gives the site an origin list of another spelling than case. */
  predicate ChangesOrigin(site: Site, r: UpdateRequest) {
    r.allowedOrigin.Some? && !EqualFold(TrimSpace(site.allowedOrigin), TrimSpace(r.allowedOrigin.value))
  }

  function NewOrigin(site: Site, r: UpdateRequest): string {
    if r.allowedOrigin.Some? then TrimSpace(r.allowedOrigin.value) else site.allowedOrigin
  }

  predicate IsBlank(field: Option<string>) {
    field.Some? && TrimSpace(field.value) == ""
  }

  ghost function UpdateResponse(sites: map<nat, Site>, id: nat, r: UpdateRequest, canManage: bool): Response {
    if r.name == None && r.allowedOrigin == None && r.ownerEmail == None && !r.others then NothingToUpdate
    else if id !in sites then UnknownSite
    else if !canManage then NotAuthorized
    else if IsBlank(r.name) || IsBlank(r.allowedOrigin) then MissingFields
    else if ChangesOrigin(sites[id], r) && Conflict(sites, NewOrigin(sites[id], r), Some(id)) then SiteExists
    else if IsBlank(r.ownerEmail) then InvalidOwner
    else if !r.widgetValid then InvalidWidget
    else Done
  }

  function Updated(site: Site, r: UpdateRequest): Site {
    var allowedOrigin := NewOrigin(site, r);
    var primary := PrimaryOrigin(allowedOrigin);
    Site(allowedOrigin,
         if ChangesOrigin(site, r) then Cleared(primary)
         else if TrimSpace(site.icon.origin) == "" then site.icon.(origin := primary)
         else site.icon)
  }

  function DeleteResponse(sites: map<nat, Site>, id: nat, canManage: bool): Response {
    if id !in sites then UnknownSite else if !canManage then NotAuthorized else Done
  }

  // ------------------------------------------------------------------ steps

  predicate Enabled(s: State, step: Step) {
    match step
    case Begin(_, _, _, _) => s.pending.None?
    case Finish(_) => s.pending.Some?
    case _ => true
  }

  ghost function AfterCreate(s: State, r: CreateRequest): State {
    if CreateResponse(s.sites, r) != Done then s
    else s.(sites := s.sites[s.nextId := NewSite(r)], nextId := s.nextId + 1, log := s.log[s.nextId := []])
  }

  ghost function AfterUpdate(s: State, id: nat, r: UpdateRequest, canManage: bool): State {
    if UpdateResponse(s.sites, id, r, canManage) != Done then s
    else s.(sites := s.sites[id := Updated(s.sites[id], r)],
            log := if ChangesOrigin(s.sites[id], r) then s.log[id := []] else s.log)
  }

  function AfterDelete(s: State, id: nat, canManage: bool): State {
    if DeleteResponse(s.sites, id, canManage) != Done then s else s.(sites := s.sites - {id})
  }

  /** The worker decides to fetch. */
  predicate Starts(config: Config, s: State, id: nat, force: bool) {
    && id in s.sites
    && PrimaryOrigin(s.sites[id].allowedOrigin) != ""
    && (force || ShouldFetch(config, s.sites[id].icon, PrimaryOrigin(s.sites[id].allowedOrigin), s.now))
  }

  /** The worker reads the row and decides; the clock moves on by `d` before the
      time of the attempt is taken. */
  function AfterBegin(config: Config, s: State, id: nat, force: bool, notify: bool, d: nat): State {
    if !Starts(config, s, id, force) then s
    else
      var site := s.sites[id];
      s.(now := s.now + d,
         pending := Some(Fetch(id, PrimaryOrigin(site.allowedOrigin), site.icon, force, notify, s.now + d)))
  }

  function FetchResult(f: Fetch, outcome: Outcome): CollectionResult {
    Collected(f.snapshot, f.origin, f.notify, f.at, outcome)
  }

  function Appended(log: map<nat, seq<Attempt>>, id: nat, a: Attempt): map<nat, seq<Attempt>> {
    log[id := (if id in log then log[id] else []) + [a]]
  }

  /** The outcome is written to the row, if it still exists. */
  function AfterFinish(s: State, outcome: Outcome): State
    requires s.pending.Some?
  {
    var f := s.pending.value;
    var result := FetchResult(f, outcome);
    var events := if result.notifyAt.Some? then s.events + [Event(f.id, result.notifyAt.value)] else s.events;
    if f.id !in s.sites then s.(pending := None, events := events)
    else
      var site := s.sites[f.id];
      s.(pending := None, events := events,
         sites := s.sites[f.id := site.(icon := Written(site.icon, result.updates))],
         source := if Stores(f.snapshot, outcome)
                   then s.source[f.id := Source(f.origin, outcome.data, outcome.contentType)] else s.source,
         log := Appended(s.log, f.id, Attempt(f.at, f.forced, Found(outcome))))
  }

  ghost function Next(config: Config, s: State, step: Step): State
    requires Enabled(s, step)
  {
    match step
    case Create(r) => AfterCreate(s, r)
    case Update(id, r, canManage) => AfterUpdate(s, id, r, canManage)
    case Delete(id, canManage) => AfterDelete(s, id, canManage)
    case Tick(d) => s.(now := s.now + d)
    case Begin(id, force, notify, d) => AfterBegin(config, s, id, force, notify, d)
    case Finish(outcome) => AfterFinish(s, outcome)
  }

  ghost predicate Run(config: Config, states: seq<State>, steps: seq<Step>) {
    && |states| == |steps| + 1
    && Initial(states[0])
    && forall i :: 0 <= i < |steps| ==>
         Enabled(states[i], steps[i]) && states[i + 1] == Next(config, states[i], steps[i])
  }

  // -------------------------------------------------------------- the class

  /** The rows, the clock and the worker's fetch in progress. A site is known by the
      number of its creation. */
  class SiteRegistry {
    const config: Config
    var sites: map<nat, Site>
    var nextId: nat
    var now: Time
    var pending: Option<Fetch>
    var events: seq<Event>
    ghost var source: map<nat, Source>
    ghost var log: map<nat, seq<Attempt>>

    ghost function Current(): State
      reads this
    {
      State(sites, nextId, now, pending, events, source, log)
    }

    constructor (config: Config, now: Time)
      requires now > 0
      ensures Initial(Current()) && this.config == config
    {
      this.config, this.now := config, now;
      sites, nextId, pending, events := map[], 0, None, [];
      source, log := map[], map[];
    }

    method AllowedOriginConflictExists(allowedOrigin: string, excluded: Option<nat>) returns (conflict: bool)
      ensures conflict == Conflict(sites, allowedOrigin, excluded)
    {
      var origins := ParseAllowedOrigins(allowedOrigin);
      ParsedAreWords(allowedOrigin);
      EmptyFoldSet(origins);
      var normalized := FoldedWords(origins);
      if |origins| == 0 { return false; }
      var todo := sites.Keys;
      while todo != {}
        invariant todo <= sites.Keys
        invariant forall id :: id in sites && id !in todo && Some(id) != excluded ==>
                    !Clash(sites[id].allowedOrigin, allowedOrigin)
        decreases todo
      {
        var id :| id in todo;
        if Some(id) != excluded {
          var existing := ParseAllowedOrigins(sites[id].allowedOrigin);
          ParsedAreWords(sites[id].allowedOrigin);
          var clash := MeetsAny(existing, normalized);
          if clash { return true; }
        }
        todo := todo - {id};
      }
      return false;
    }

    method CreateSite(r: CreateRequest) returns (response: Response)
      modifies this
      ensures response == CreateResponse(old(sites), r)
      ensures Current() == AfterCreate(old(Current()), r)
    {
      var name := TrimSpace(r.name);
      var allowedOrigin := TrimSpace(r.allowedOrigin);
      var owner := ToLower(TrimSpace(r.ownerEmail));
      if owner == "" { owner := r.creatorEmail; }
      if name == "" || allowedOrigin == "" { return MissingFields; }
      if owner == "" { return InvalidOwner; }
      if !r.widgetValid { return InvalidWidget; }
      var conflict := AllowedOriginConflictExists(allowedOrigin, None);
      if conflict { return SiteExists; }
      sites := sites[nextId := Site(allowedOrigin, Cleared(Primary(allowedOrigin)))];
      log := log[nextId := []];
      nextId := nextId + 1;
      return Done;
    }

    method UpdateSite(id: nat, r: UpdateRequest, canManage: bool) returns (response: Response)
      modifies this
      ensures response == UpdateResponse(old(sites), id, r, canManage)
      ensures Current() == AfterUpdate(old(Current()), id, r, canManage)
    {
      if r.name == None && r.allowedOrigin == None && r.ownerEmail == None && !r.others { return NothingToUpdate; }
      if id !in sites { return UnknownSite; }
      if !canManage { return NotAuthorized; }
      var site := sites[id];
      if r.name.Some? && TrimSpace(r.name.value) == "" { return MissingFields; }
      var originChanged := false;
      if r.allowedOrigin.Some? {
        var trimmed := TrimSpace(r.allowedOrigin.value);
        if trimmed == "" { return MissingFields; }
        if !EqualFold(TrimSpace(site.allowedOrigin), trimmed) {
          var conflict := AllowedOriginConflictExists(trimmed, Some(id));
          if conflict { return SiteExists; }
          originChanged := true;
        }
        site := site.(allowedOrigin := trimmed);
      }
      if r.ownerEmail.Some? && TrimSpace(r.ownerEmail.value) == "" { return InvalidOwner; }
      if !r.widgetValid { return InvalidWidget; }
      var primary := TrimSpace(Primary(site.allowedOrigin));
      if originChanged {
        site := site.(icon := Cleared(primary));
        log := log[id := []];
      } else if TrimSpace(site.icon.origin) == "" {
        site := site.(icon := site.icon.(origin := primary));
      }
      sites := sites[id := site];
      return Done;
    }

    method DeleteSite(id: nat, canManage: bool) returns (response: Response)
      modifies this
      ensures response == DeleteResponse(old(sites), id, canManage)
      ensures Current() == AfterDelete(old(Current()), id, canManage)
    {
      if id !in sites { return UnknownSite; }
      if !canManage { return NotAuthorized; }
      sites := sites - {id};
      return Done;
    }

    method Advance(d: nat)
      modifies this
      ensures Current() == Next(config, old(Current()), Tick(d))
    {
      now := now + d;
    }

    /** The first part of processFetch. */
    method BeginFetch(id: nat, force: bool, notify: bool, d: nat)
      requires pending.None?
      modifies this
      ensures Current() == AfterBegin(config, old(Current()), id, force, notify, d)
    {
      if id !in sites { return; }
      var site := sites[id];
      var origin := TrimSpace(Primary(site.allowedOrigin));
      if origin == "" { return; }
      if !force && !ShouldFetch(config, site.icon, origin, now) { return; }
      now := now + d;
      pending := Some(Fetch(id, origin, site.icon, force, notify, now));
    }

    /** The second part of processFetch: collect, update the row, broadcast. */
    method FinishFetch(outcome: Outcome)
      requires pending.Some?
      modifies this
      ensures Current() == AfterFinish(old(Current()), outcome)
    {
      var f := pending.value;
      var result := Favicons.Collect(f.snapshot, f.origin, f.notify, f.at, outcome);
      pending := None;
      if f.id in sites {
        var site := sites[f.id];
        sites := sites[f.id := site.(icon := Written(site.icon, result.updates))];
        if Stores(f.snapshot, outcome) { source := source[f.id := Source(f.origin, outcome.data, outcome.contentType)]; }
        log := Appended(log, f.id, Attempt(f.at, f.forced, Found(outcome)));
      }
      if result.notifyAt.Some? {
        events := events + [Event(f.id, result.notifyAt.value)];
      }
    }
  }

  /** The words in lower case. */
  method FoldedWords(list: seq<string>) returns (words: set<string>)
    requires Words(list)
    ensures words == FoldSet(list)
  {
    words := {};
    for k := 0 to |list|
      invariant words == FoldSet(list[..k])
    {
      assert list[..k + 1] == list[..k] + [list[k]];
      FoldSetConcat(list[..k], [list[k]]);
      FoldSetOne(list[k]);
      assert list[k] in list;
      WordIsTrimmed(list[k]);
      var normalized := ToLower(TrimSpace(list[k]));
      if normalized == "" { continue; }
      words := words + {normalized};
    }
    assert list[..|list|] == list;
  }

  method MeetsAny(list: seq<string>, words: set<string>) returns (meets: bool)
    requires Words(list)
    ensures meets <==> FoldSet(list) * words != {}
  {
    for k := 0 to |list|
      invariant FoldSet(list[..k]) * words == {}
    {
      assert list[..k + 1] == list[..k] + [list[k]];
      FoldSetConcat(list[..k], [list[k]]);
      FoldSetOne(list[k]);
      assert list[k] in list;
      WordIsTrimmed(list[k]);
      var normalized := ToLower(TrimSpace(list[k]));
      if normalized == "" { continue; }
      if normalized in words {
        assert normalized in FoldSet(list) * words;
        return true;
      }
    }
    assert list[..|list|] == list;
    return false;
  }

  // ----------------------------------------------------------- disjointness

  /** No two sites list the same origin, up to case. */
  ghost predicate Disjoint(sites: map<nat, Site>) {
    forall a, b :: a in sites && b in sites && a != b ==> !Clash(sites[a].allowedOrigin, sites[b].allowedOrigin)
  }

  lemma ClashIsSymmetric(a: string, b: string)
    ensures Clash(a, b) == Clash(b, a)
  {
    assert OriginSet(a) * OriginSet(b) == OriginSet(b) * OriginSet(a);
  }

  lemma ReplaceKeepsDisjoint(sites: map<nat, Site>, id: nat, site: Site)
    requires Disjoint(sites)
    requires forall other :: other in sites && other != id ==> !Clash(sites[other].allowedOrigin, site.allowedOrigin)
    ensures Disjoint(sites[id := site])
  {
    var next := sites[id := site];
    forall a, b | a in next && b in next && a != b
      ensures !Clash(next[a].allowedOrigin, next[b].allowedOrigin) {
      ClashIsSymmetric(next[a].allowedOrigin, next[b].allowedOrigin);
    }
  }

  lemma SameOrigins(a: string, b: string)
    requires EqualFold(TrimSpace(a), TrimSpace(b))
    ensures OriginSet(a) == OriginSet(b)
  {
    SameTextUpToCase(a, b);
  }

  lemma UpdateKeepsDisjoint(s: State, id: nat, r: UpdateRequest, canManage: bool)
    requires Disjoint(s.sites)
    ensures Disjoint(AfterUpdate(s, id, r, canManage).sites)
  {
    if UpdateResponse(s.sites, id, r, canManage) == Done {
      var site := s.sites[id];
      var next := Updated(site, r);
      if !ChangesOrigin(site, r) && r.allowedOrigin.Some? {
        TrimIsIdempotent(r.allowedOrigin.value);
        SameOrigins(site.allowedOrigin, next.allowedOrigin);
      }
      forall other | other in s.sites && other != id ensures !Clash(s.sites[other].allowedOrigin, next.allowedOrigin) {
        assert !Clash(s.sites[other].allowedOrigin, site.allowedOrigin);
      }
      ReplaceKeepsDisjoint(s.sites, id, next);
    }
  }

  lemma CreateKeepsDisjoint(s: State, r: CreateRequest)
    requires Disjoint(s.sites)
    ensures Disjoint(AfterCreate(s, r).sites)
  {
    if CreateResponse(s.sites, r) == Done {
      ReplaceKeepsDisjoint(s.sites, s.nextId, NewSite(r));
    }
  }

  lemma FinishKeepsDisjoint(s: State, outcome: Outcome)
    requires Disjoint(s.sites) && s.pending.Some?
    ensures Disjoint(AfterFinish(s, outcome).sites)
  {
    var f := s.pending.value;
    if f.id in s.sites {
      ReplaceKeepsDisjoint(s.sites, f.id, AfterFinish(s, outcome).sites[f.id]);
    }
  }

  lemma StepKeepsDisjoint(config: Config, s: State, step: Step)
    requires Disjoint(s.sites) && Enabled(s, step)
    ensures Disjoint(Next(config, s, step).sites)
  {
    match step
    case Create(r) => CreateKeepsDisjoint(s, r);
    case Update(id, r, canManage) => UpdateKeepsDisjoint(s, id, r, canManage);
    case Finish(outcome) => FinishKeepsDisjoint(s, outcome);
    case _ =>
  }

  /** In every run the origins of distinct sites are disjoint up to case, also
      through updates that skip the conflict check because only case changes. */
  lemma {:induction false} OriginsStayDisjoint(config: Config, states: seq<State>, steps: seq<Step>, n: nat)
    requires Run(config, states, steps) && n < |states|
    ensures Disjoint(states[n].sites)
  {
    if n > 0 {
      OriginsStayDisjoint(config, states, steps, n - 1);
      StepKeepsDisjoint(config, states[n - 1], steps[n - 1]);
    }
  }

  // ------------------------------------------------- what each step does

  /** Some word of one text equals, up to case, some word of the other. */
  predicate SharesAWord(a: string, b: string) {
    exists j, k :: 0 <= j < |Tokens(a)| && 0 <= k < |Tokens(b)| && EqualFold(Tokens(a)[j], Tokens(b)[k])
  }

  lemma ClashMeaning(a: string, b: string)
    ensures Clash(a, b) <==> SharesAWord(a, b)
  {
    FirstOccurrencesKeepFold(Tokens(a));
    FirstOccurrencesKeepFold(Tokens(b));
    if Clash(a, b) {
      var w :| w in OriginSet(a) * OriginSet(b);
      FoldedWord(Tokens(a), w);
      FoldedWord(Tokens(b), w);
    }
    if j, k :| 0 <= j < |Tokens(a)| && 0 <= k < |Tokens(b)| && EqualFold(Tokens(a)[j], Tokens(b)[k]) {
      assert Tokens(a)[j] in Tokens(a) && Tokens(b)[k] in Tokens(b);
      assert ToLower(Tokens(a)[j]) in OriginSet(a) * OriginSet(b);
    }
  }

  lemma FoldedWord(list: seq<string>, w: string)
    requires w in FoldSet(list)
    ensures exists k :: 0 <= k < |list| && ToLower(list[k]) == w
  {
    var t :| t in list && ToLower(t) == w;
    var k :| 0 <= k < |list| && list[k] == t;
  }

  /** No site but the excepted one shares a word with the text. */
  ghost predicate IsFree(sites: map<nat, Site>, allowedOrigin: string, except: Option<nat>) {
    forall id :: id in sites && Some(id) != except ==> !SharesAWord(sites[id].allowedOrigin, allowedOrigin)
  }

  lemma ConflictMeaning(sites: map<nat, Site>, allowedOrigin: string, excluded: Option<nat>)
    ensures Conflict(sites, allowedOrigin, excluded) <==> !IsFree(sites, allowedOrigin, excluded)
  {
    forall id | id in sites ensures Clash(sites[id].allowedOrigin, allowedOrigin)
                                <==> SharesAWord(sites[id].allowedOrigin, allowedOrigin) {
      ClashMeaning(sites[id].allowedOrigin, allowedOrigin);
    }
  }

  /** The first word of a list of origins, or nothing. */
  function FirstWord(allowedOrigin: string): string {
    if Tokens(allowedOrigin) == [] then "" else Tokens(allowedOrigin)[0]
  }

  lemma PrimaryOriginMeaning(allowedOrigin: string)
    ensures PrimaryOrigin(allowedOrigin) == FirstWord(allowedOrigin) == Primary(allowedOrigin)
  {
    PrimaryIsFirstWord(allowedOrigin);
    if Tokens(allowedOrigin) != [] {
      TokensAreWords(allowedOrigin);
      assert Tokens(allowedOrigin)[0] in Tokens(allowedOrigin);
      WordIsTrimmed(Tokens(allowedOrigin)[0]);
    }
  }

  /** A site is created exactly for a name, an origin text and an owner, the request's
      or else the creator, with valid widget settings, if no site shares a word with
      the text. It gets the next number, the trimmed text, and empty icon columns for
      its first word; no other site changes. */
  lemma CreateEffect(s: State, r: CreateRequest)
    ensures CreateResponse(s.sites, r) == Done
       <==> TrimSpace(r.name) != "" && TrimSpace(r.allowedOrigin) != ""
            && (TrimSpace(r.ownerEmail) != "" || r.creatorEmail != "") && r.widgetValid
            && IsFree(s.sites, TrimSpace(r.allowedOrigin), None)
    ensures CreateResponse(s.sites, r) == Done ==>
              AfterCreate(s, r).sites == s.sites[s.nextId := Site(TrimSpace(r.allowedOrigin),
                Icon(FirstWord(TrimSpace(r.allowedOrigin)), [], "", 0, 0))]
    ensures CreateResponse(s.sites, r) != Done ==> AfterCreate(s, r) == s
  {
    ConflictMeaning(s.sites, TrimSpace(r.allowedOrigin), None);
    PrimaryOriginMeaning(TrimSpace(r.allowedOrigin));
    assert |ToLower(TrimSpace(r.ownerEmail))| == |TrimSpace(r.ownerEmail)|;
  }

  /** An accepted update gives the site the new trimmed text, if there is one. A text
      that differs by more than case must be free, and empties the icon columns for
      its first word; otherwise they stay, but for a missing origin. No other site
      changes, and a refused update changes nothing. */
  lemma UpdateEffect(s: State, id: nat, r: UpdateRequest, canManage: bool, t: State, response: Response)
    requires response == UpdateResponse(s.sites, id, r, canManage) && t == AfterUpdate(s, id, r, canManage)
    ensures response != Done ==> t == s
    ensures response == Done ==>
              id in s.sites && canManage && t.sites == s.sites[id := t.sites[id]]
              && t.sites[id].allowedOrigin
              == if r.allowedOrigin.Some? then TrimSpace(r.allowedOrigin.value) else s.sites[id].allowedOrigin
    ensures response == Done && ChangesText(s.sites[id], t.sites[id]) ==>
              IsFree(s.sites, t.sites[id].allowedOrigin, Some(id))
              && t.sites[id].icon == Icon(FirstWord(t.sites[id].allowedOrigin), [], "", 0, 0)
    ensures response == Done && !ChangesText(s.sites[id], t.sites[id]) ==>
              t.sites[id].icon == s.sites[id].icon.(origin :=
                if TrimSpace(s.sites[id].icon.origin) == "" then FirstWord(t.sites[id].allowedOrigin)
                else s.sites[id].icon.origin)
  {
    if response == Done {
      var site := s.sites[id];
      ConflictMeaning(s.sites, NewOrigin(site, r), Some(id));
      PrimaryOriginMeaning(NewOrigin(site, r));
      if r.allowedOrigin.Some? {
        TrimIsIdempotent(r.allowedOrigin.value);
      }
    }
  }

  /** The texts differ by more than case and outer space. */
  predicate ChangesText(before: Site, after: Site) {
    !EqualFold(TrimSpace(before.allowedOrigin), TrimSpace(after.allowedOrigin))
  }

  /** Deleting removes exactly that site, for its manager. */
  lemma DeleteEffect(s: State, id: nat, canManage: bool)
    ensures DeleteResponse(s.sites, id, canManage) == Done <==> id in s.sites && canManage
    ensures DeleteResponse(s.sites, id, canManage) != Done ==> AfterDelete(s, id, canManage) == s
    ensures DeleteResponse(s.sites, id, canManage) == Done ==>
              id !in AfterDelete(s, id, canManage).sites
              && forall other :: other != id ==>
                   (other in AfterDelete(s, id, canManage).sites <==> other in s.sites)
                   && (other in s.sites ==> AfterDelete(s, id, canManage).sites[other] == s.sites[other])
  {
  }

  /** A forced fetch is made for every site that has an origin, and is for its first
      word, from the row as it is. */
  lemma ForcedFetchEffect(config: Config, s: State, id: nat, notify: bool, d: nat)
    ensures Starts(config, s, id, true) <==> id in s.sites && FirstWord(s.sites[id].allowedOrigin) != ""
    ensures Starts(config, s, id, true) ==>
              AfterBegin(config, s, id, true, notify, d).pending
              == Some(Fetch(id, FirstWord(s.sites[id].allowedOrigin), s.sites[id].icon, true, notify, s.now + d))
  {
    if id in s.sites {
      PrimaryOriginMeaning(s.sites[id].allowedOrigin);
    }
  }
}
