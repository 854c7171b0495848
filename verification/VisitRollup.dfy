/** The rollup job of internal/task/visit_rollup.go between the visits that
    internal/api/visit_collector.go records. The job reads the clock twice: once
    before aggregating, once before pruning. */
module VisitRollup {
  import opened Basics
  import opened Text
  import opened Visits

  datatype Rollup = Rollup(pageViews: nat, uniqueVisitors: nat)

  type RollupKey = (string, int)

  datatype Phase = Idle | ClockRead(day: nat) | Aggregated

  /** `recorded`, `aggregated` and `prunedBefore` are history: all visits ever
      recorded, the days aggregated, and the latest cutoff day of any pruning. */
  datatype State = State(
    now: Time,
    visits: seq<Visit>,
    rollups: map<RollupKey, Rollup>,
    phase: Phase,
    retentionDays: int,
    recorded: seq<Visit>,
    aggregated: set<int>,
    prunedBefore: nat)

  datatype Step =
    | Tick(now: Time)
    | Collect(site: string, visitor: string, url: string, referrer: string, isBot: bool, urlParses: bool)
    | ReadClock
    | Aggregate
    | Prune

  ghost predicate Initial(s: State) {
    s.visits == [] && s.rollups == map[] && s.phase.Idle? && s.recorded == [] && s.aggregated == {}
    && s.prunedBefore == 0
  }

  /** The clock is monotone and has passed the first day of the calendar. */
  predicate Enabled(s: State, step: Step) {
    match step
    case Tick(now) => s.now <= now
    case Collect(_, _, _, _, _, _) => true
    case ReadClock => s.phase.Idle? && s.now >= DAY
    case Aggregate => s.phase.ClockRead? && s.phase.day > 0
    case Prune => s.phase.Aggregated?
  }

  function ActiveSites(visits: seq<Visit>, day: int): set<string> {
    set v | v in visits && !v.isBot && DayOf(v.at) == day :: v.site
  }

  /** NewSiteVisitRollup: no site, or the zero date, makes no row. */
  function NewRollup(site: string, day: int, pageViews: nat, uniqueVisitors: nat): Option<(RollupKey, Rollup)> {
    if TrimSpace(site) == "" || day == 0 then None
    else Some(((TrimSpace(site), day), Rollup(pageViews, uniqueVisitors)))
  }

  function RollupOf(visits: seq<Visit>, site: string, day: int): Rollup {
    Rollup(|OfDay(visits, site, day)|, |Visitors(OfDay(visits, site, day))|)
  }

  /** One row of the grouped query, inserted or overwritten by (site, date). */
  function Upsert(rollups: map<RollupKey, Rollup>, visits: seq<Visit>, site: string, day: int): map<RollupKey, Rollup> {
    var row := RollupOf(visits, site, day);
    match NewRollup(site, day, row.pageViews, row.uniqueVisitors)
    case None => rollups
    case Some((key, rollup)) => rollups[key := rollup]
  }

  /** The table after the upserts of all `sites`, in whatever order. */
  function UpsertAll(rollups: map<RollupKey, Rollup>, visits: seq<Visit>, sites: set<string>, day: int)
    : map<RollupKey, Rollup>
  {
    if day == 0 then rollups
    else map key | key in rollups.Keys + Keys(sites, day) ::
           if key in Keys(sites, day) then RollupOf(visits, key.0, day) else rollups[key]
  }

  function Keys(sites: set<string>, day: int): set<RollupKey> {
    set site | site in sites :: (site, day)
  }

  /** Midnight of the first day to keep. */
  function CutoffDay(now: Time, retentionDays: nat): nat {
    if now < retentionDays * DAY then 0 else DayOf(now - retentionDays * DAY)
  }

  function Next(s: State, step: Step): State
    requires Enabled(s, step)
  {
    match step
    case Tick(now) => s.(now := now)
    case Collect(site, visitor, url, referrer, isBot, urlParses) =>
      (match NewVisit(site, visitor, url, referrer, isBot, urlParses, s.now)
       case None => s
       case Some(v) => s.(visits := s.visits + [v], recorded := s.recorded + [v]))
    case ReadClock => s.(phase := ClockRead(DayOf(s.now)))
    case Aggregate =>
      var day := s.phase.day - 1;
      s.(rollups := UpsertAll(s.rollups, s.visits, ActiveSites(s.visits, day), day),
         aggregated := s.aggregated + (if day == 0 then {} else {day}),
         phase := Aggregated)
    case Prune =>
      if s.retentionDays <= 0 then s.(phase := Idle)
      else
        var cutoff := CutoffDay(s.now, s.retentionDays);
        s.(visits := KeepFrom(s.visits, cutoff),
           prunedBefore := if cutoff > s.prunedBefore then cutoff else s.prunedBefore,
           phase := Idle)
  }

  // ------------------------------------------------------- the collector

  /** The parts of a collecting request that matter. */
  datatype Request = Request(
    site: string, url: string, refererHeader: string, referrer: string,
    visitor: string, visitorHeader: string, isBot: bool)

  datatype Response = Pixel | MissingSite | UnknownSite | OriginForbidden | InvalidVisit

  function FirstGiven(first: string, second: string): string {
    if TrimSpace(first) != "" then TrimSpace(first) else TrimSpace(second)
  }

  /** Header before query for the referrer, query before header for the visitor, and
      the referrer in place of a missing URL. */
  function Requested(r: Request, urlParses: bool): Step {
    var referrer := FirstGiven(r.refererHeader, r.referrer);
    Collect(TrimSpace(r.site), FirstGiven(r.visitor, r.visitorHeader), FirstGiven(r.url, referrer), referrer,
            r.isBot, urlParses)
  }

  /** The visit that a request reports at an instant. */
  function VisitOf(r: Request, at: Time): Visit {
    var referrer := FirstGiven(r.refererHeader, r.referrer);
    Visit(TrimSpace(r.site), FirstGiven(r.visitor, r.visitorHeader), FirstGiven(r.url, referrer), referrer, r.isBot, at)
  }

  lemma FirstGivenIsTrimmed(first: string, second: string)
    ensures TrimSpace(FirstGiven(first, second)) == FirstGiven(first, second)
  {
    TrimIsIdempotent(first);
    TrimIsIdempotent(second);
  }

  /** A visit is made exactly of a request with a site, a URL that parses, and no
      visitor or one of the length of an identifier. */
  lemma RequestedVisit(r: Request, urlParses: bool, at: Time, step: Step, v: Visit)
    requires step == Requested(r, urlParses) && v == VisitOf(r, at)
    ensures NewVisit(step.site, step.visitor, step.url, step.referrer, step.isBot, urlParses, at)
         == if v.site != "" && v.url != "" && urlParses && |v.visitor| in {0, 36} then Some(v) else None
  {
    TrimIsIdempotent(r.site);
    FirstGivenIsTrimmed(r.refererHeader, r.referrer);
    FirstGivenIsTrimmed(r.visitor, r.visitorHeader);
    FirstGivenIsTrimmed(r.url, FirstGiven(r.refererHeader, r.referrer));
  }

  method ReadRequest(r: Request) returns (visitor: string, url: string, referrer: string)
    ensures referrer == FirstGiven(r.refererHeader, r.referrer)
    ensures url == FirstGiven(r.url, referrer)
    ensures visitor == FirstGiven(r.visitor, r.visitorHeader)
  {
    referrer := TrimSpace(r.refererHeader);
    if referrer == "" { referrer := TrimSpace(r.referrer); }
    TrimIsIdempotent(r.refererHeader);
    TrimIsIdempotent(r.referrer);
    url := TrimSpace(r.url);
    if url == "" && referrer != "" { url := referrer; }
    visitor := TrimSpace(r.visitor);
    if visitor == "" { visitor := TrimSpace(r.visitorHeader); }
  }

  function Answer(r: Request, known: bool, originAllowed: bool, urlParses: bool): Response {
    var step := Requested(r, urlParses);
    if TrimSpace(r.site) == "" then MissingSite
    else if !known then UnknownSite
    else if !originAllowed then OriginForbidden
    else if NewVisit(step.site, step.visitor, step.url, step.referrer, step.isBot, urlParses, 0).None? then InvalidVisit
    else Pixel
  }

  // ----------------------------------------------------------- the class

  class VisitRollupJob {
    var now: Time
    var visits: seq<Visit>
    var rollups: map<RollupKey, Rollup>
    var phase: Phase
    const retentionDays: int
    ghost var recorded: seq<Visit>
    ghost var aggregated: set<int>
    ghost var prunedBefore: nat

    ghost function Current(): State
      reads this
    {
      State(now, visits, rollups, phase, retentionDays, recorded, aggregated, prunedBefore)
    }

    constructor (clock: Time, retention: int)
      ensures Initial(Current()) && now == clock && retentionDays == retention
    {
      now, visits, rollups, phase := clock, [], map[], Idle;
      retentionDays := retention;
      recorded, aggregated, prunedBefore := [], {}, 0;
    }

    /** The collecting handler: `known` and `originAllowed` are what the sites table
        and the allowed origins say, `urlParses` what the URL library says of the
        resolved URL. */
    method CollectVisit(r: Request, known: bool, originAllowed: bool, urlParses: bool) returns (response: Response)
      modifies this
      ensures response == Answer(r, known, originAllowed, urlParses)
      ensures Current() == if response in {Pixel, InvalidVisit} then Next(old(Current()), Requested(r, urlParses))
                           else old(Current())
      ensures response != Pixel ==> Current() == old(Current())
      ensures response == Pixel ==> visits == old(visits) + [VisitOf(r, now)]
      ensures response == Pixel <==>
                TrimSpace(r.site) != "" && known && originAllowed && VisitOf(r, now).url != "" && urlParses
                && |VisitOf(r, now).visitor| in {0, 36}
      ensures now == old(now) && rollups == old(rollups)
    {
      if TrimSpace(r.site) == "" { return MissingSite; }
      if !known { return UnknownSite; }
      if !originAllowed { return OriginForbidden; }
      var visitor, url, referrer := ReadRequest(r);
      RequestedVisit(r, urlParses, now, Requested(r, urlParses), VisitOf(r, now));
      var visit := NewVisit(TrimSpace(r.site), visitor, url, referrer, r.isBot, urlParses, now);
      if visit.None? { return InvalidVisit; }
      visits := visits + [visit.value];
      recorded := recorded + [visit.value];
      return Pixel;
    }

    method BeginRun()
      requires Enabled(Current(), ReadClock)
      modifies this
      ensures Current() == Next(old(Current()), ReadClock)
    {
      phase := ClockRead(DayOf(now));
    }

    method AggregatePreviousDay()
      requires Enabled(Current(), Aggregate) && ProperSites(visits)
      modifies this
      ensures Current() == Next(old(Current()), Aggregate)
    {
      var day := phase.day - 1;
      var results := ActiveSites(visits, day);
      var todo := results;
      while todo != {}
        invariant todo <= results
        invariant rollups == UpsertAll(old(rollups), visits, results - todo, day)
        invariant Current() == old(Current()).(rollups := rollups)
        decreases todo
      {
        var site :| site in todo;
        var row := RollupOf(visits, site, day);
        var built := NewRollup(site, day, row.pageViews, row.uniqueVisitors);
        UpsertOneMore(old(rollups), visits, results - todo, site, day);
        assert results - (todo - {site}) == (results - todo) + {site};
        todo := todo - {site};
        if built.Some? {
          rollups := rollups[built.value.0 := built.value.1];
        }
      }
      assert results - todo == results;
      phase := Aggregated;
      aggregated := aggregated + (if day == 0 then {} else {day});
    }

    method PruneOldVisits()
      requires Enabled(Current(), Prune)
      modifies this
      ensures Current() == Next(old(Current()), Prune)
    {
      phase := Idle;
      if retentionDays <= 0 { return; }
      var cutoff := CutoffDay(now, retentionDays);
      visits := KeepFrom(visits, cutoff);
      prunedBefore := if cutoff > prunedBefore then cutoff else prunedBefore;
    }
  }

  lemma UpsertOneMore(
    rollups: map<RollupKey, Rollup>, visits: seq<Visit>, done: set<string>, site: string, day: int)
    requires ProperSites(visits) && site in ActiveSites(visits, day)
    ensures UpsertAll(rollups, visits, done + {site}, day)
         == Upsert(UpsertAll(rollups, visits, done, day), visits, site, day)
  {
    TrimmedIsFixed(site);
    if day != 0 {
      assert Keys(done + {site}, day) == Keys(done, day) + {(site, day)};
    }
  }

  // ---------------------------------------------------------- invariants

  ghost predicate ProperSites(visits: seq<Visit>) {
    forall v :: v in visits ==> v.site != "" && Trimmed(v.site)
  }

  function Stored(s: State, site: string, day: int): Rollup {
    if (site, day) in s.rollups then s.rollups[(site, day)] else Rollup(0, 0)
  }

  /** Every aggregated day's row is that of all visits ever recorded that day. */
  ghost predicate RowsConserved(s: State) {
    forall site: string, day :: day in s.aggregated ==> Stored(s, site, day) == RollupOf(s.recorded, site, day)
  }

  ghost predicate Valid(s: State) {
    && ProperSites(s.visits)
    && s.prunedBefore <= (if DayOf(s.now) == 0 then 0 else DayOf(s.now) - 1)
    && (s.phase.ClockRead? ==> s.phase.day <= DayOf(s.now) && s.prunedBefore <= s.phase.day - 1)
    && (forall day :: day in s.aggregated ==> 0 < day < DayOf(s.now))
    && (forall site: string, day: int :: day >= s.prunedBefore ==>
          OfDay(s.visits, site, day) == OfDay(s.recorded, site, day))
    && (forall key :: key in s.rollups ==> key.1 in s.aggregated)
    && RowsConserved(s)
  }

  lemma DayIsMonotone(a: Time, b: Time)
    requires a <= b
    ensures DayOf(a) <= DayOf(b)
  {
  }

  lemma CollectKeepsValid(s: State, v: Visit)
    requires Valid(s) && v.at == s.now && v.site != "" && Trimmed(v.site)
    ensures Valid(s.(visits := s.visits + [v], recorded := s.recorded + [v]))
  {
    forall site: string, day: int
      ensures OfDay(s.visits + [v], site, day) == OfDay(s.visits, site, day) + if Counts(v, site, day) then [v] else []
      ensures OfDay(s.recorded + [v], site, day) == OfDay(s.recorded, site, day) + if Counts(v, site, day) then [v] else []
    {
      OfDaySnoc(s.visits, v, site, day);
      OfDaySnoc(s.recorded, v, site, day);
    }
    forall site: string, day | day in s.aggregated
      ensures RollupOf(s.recorded + [v], site, day) == RollupOf(s.recorded, site, day)
    {
      OfDaySnoc(s.recorded, v, site, day);
      assert OfDay(s.recorded + [v], site, day) == OfDay(s.recorded, site, day);
    }
  }

  lemma ActiveMeansCounted(visits: seq<Visit>, site: string, day: int)
    ensures site in ActiveSites(visits, day) <==> OfDay(visits, site, day) != []
  {
    OfDayMembers(visits, site, day);
    if site in ActiveSites(visits, day) {
      var v :| v in visits && !v.isBot && DayOf(v.at) == day && v.site == site;
      assert v in OfDay(visits, site, day);
    }
    if OfDay(visits, site, day) != [] {
      var v := OfDay(visits, site, day)[0];
      assert v in OfDay(visits, site, day);
    }
  }

  /** The day just aggregated: an active site's row is that of the stored visits,
      an inactive site has no visits and keeps what row it had. */
  lemma AggregateStoresDay(s: State, site: string, day: int)
    requires Enabled(s, Aggregate) && day == s.phase.day - 1 != 0
    ensures Stored(Next(s, Aggregate), site, day)
         == if site in ActiveSites(s.visits, day) then RollupOf(s.visits, site, day) else Stored(s, site, day)
  {
  }

  lemma InactiveRollup(visits: seq<Visit>, site: string, day: int)
    requires site !in ActiveSites(visits, day)
    ensures RollupOf(visits, site, day) == Rollup(0, 0)
  {
    ActiveMeansCounted(visits, site, day);
    assert Visitors([]) == {};
  }

  lemma AggregatedDayIsConserved(s: State, site: string, day: int)
    requires Valid(s) && Enabled(s, Aggregate) && day == s.phase.day - 1 != 0
    ensures Stored(Next(s, Aggregate), site, day) == RollupOf(s.recorded, site, day)
  {
    assert OfDay(s.visits, site, day) == OfDay(s.recorded, site, day);
    assert RollupOf(s.visits, site, day) == RollupOf(s.recorded, site, day);
    AggregateStoresDay(s, site, day);
    if site !in ActiveSites(s.visits, day) {
      InactiveRollup(s.visits, site, day);
      if (site, day) in s.rollups {
        assert day in s.aggregated;
      }
    }
  }

  lemma AggregateConserves(s: State, site: string, d: int)
    requires Valid(s) && Enabled(s, Aggregate) && d in Next(s, Aggregate).aggregated
    ensures Stored(Next(s, Aggregate), site, d) == RollupOf(s.recorded, site, d)
  {
    if d == s.phase.day - 1 {
      AggregatedDayIsConserved(s, site, d);
    } else {
      OtherDaysUntouched(s, site, d);
    }
  }

  lemma OtherDaysUntouched(s: State, site: string, d: int)
    requires Enabled(s, Aggregate) && d != s.phase.day - 1
    ensures Stored(Next(s, Aggregate), site, d) == Stored(s, site, d)
  {
  }

  lemma AggregateKeepsValid(s: State)
    requires Valid(s) && Enabled(s, Aggregate)
    ensures Valid(Next(s, Aggregate))
  {
    var t := Next(s, Aggregate);
    forall site: string, d | d in t.aggregated ensures Stored(t, site, d) == RollupOf(t.recorded, site, d) {
      AggregateConserves(s, site, d);
    }
  }

  lemma PruneKeepsValid(s: State)
    requires Valid(s) && Enabled(s, Prune)
    ensures Valid(Next(s, Prune))
  {
    if s.retentionDays > 0 {
      var cutoff := CutoffDay(s.now, s.retentionDays);
      CutoffIsBeforeYesterday(s.now, s.retentionDays);
      forall site: string, day: int | day >= cutoff
        ensures OfDay(KeepFrom(s.visits, cutoff), site, day) == OfDay(s.visits, site, day)
      {
        KeepFromKeepsDay(s.visits, cutoff, site, day);
      }
      KeepFromKeepsSites(s.visits, cutoff);
    }
  }

  lemma CutoffIsBeforeYesterday(now: Time, retentionDays: nat)
    requires retentionDays > 0
    ensures CutoffDay(now, retentionDays) <= (if DayOf(now) == 0 then 0 else DayOf(now) - 1)
  {
    if now >= retentionDays * DAY {
      assert retentionDays * DAY >= DAY;
      DayIsMonotone(now - retentionDays * DAY, now - DAY);
      assert DayOf(now - DAY) == DayOf(now) - 1;
    }
  }

  lemma {:induction false} KeepFromKeepsSites(visits: seq<Visit>, from: nat)
    ensures forall v :: v in KeepFrom(visits, from) ==> v in visits
  {
    if visits != [] {
      KeepFromKeepsSites(visits[..|visits| - 1], from);
    }
  }

  // -------------------------------------------------- what a step does

  /** The visit is at most `retentionDays` days old, counted in UTC days. */
  predicate Retained(v: Visit, retentionDays: nat, now: Time) {
    DayOf(v.at) + retentionDays >= DayOf(now)
  }

  lemma CutoffMeaning(at: Time, now: Time, retentionDays: nat)
    ensures at >= CutoffDay(now, retentionDays) * DAY <==> DayOf(at) + retentionDays >= DayOf(now)
  {
    DayMeaning(at, CutoffDay(now, retentionDays));
    if now >= retentionDays * DAY {
      DaysBefore(now, retentionDays);
    } else {
      DayMeaning(now, retentionDays);
    }
  }

  lemma DayMeaning(at: Time, day: nat)
    ensures at >= day * DAY <==> DayOf(at) >= day
  {
  }

  lemma DaysBefore(now: Time, days: nat)
    requires now >= days * DAY
    ensures DayOf(now - days * DAY) == DayOf(now) - days
  {
    var rest := now - days * DAY;
    assert now == (rest / DAY + days) * DAY + rest % DAY;
  }

  /** What is kept from a list of visits: each with its multiplicity, in order. */
  lemma {:induction false} KeepFromKeeps(visits: seq<Visit>, from: nat, v: Visit)
    ensures multiset(KeepFrom(visits, from))[v] == if v.at >= from * DAY then multiset(visits)[v] else 0
    ensures Subsequence(KeepFrom(visits, from), visits)
  {
    if visits != [] {
      var init, last := visits[..|visits| - 1], visits[|visits| - 1];
      assert visits == init + [last];
      KeepFromKeeps(init, from, v);
      if last.at >= from * DAY {
        SubsequenceKeep(KeepFrom(init, from), init, last);
      } else {
        assert KeepFrom(init, from) + [] == KeepFrom(init, from);
        SubsequenceSkip(KeepFrom(init, from), init, last);
      }
    }
  }

  /** Pruning deletes exactly the visits more than the retention old, none without a
      retention; it keeps the others in order and multiplicity, and all rollups. */
  lemma PruneDeletesExactly(s: State, v: Visit)
    requires Enabled(s, Prune)
    ensures s.retentionDays <= 0 ==> Next(s, Prune).visits == s.visits
    ensures s.retentionDays > 0 ==>
              multiset(Next(s, Prune).visits)[v] == if Retained(v, s.retentionDays, s.now) then multiset(s.visits)[v] else 0
    ensures s.retentionDays > 0 ==>
              (v in Next(s, Prune).visits <==> v in s.visits && DayOf(v.at) + s.retentionDays >= DayOf(s.now))
    ensures s.retentionDays > 0 ==> Subsequence(Next(s, Prune).visits, s.visits)
    ensures Next(s, Prune).rollups == s.rollups
  {
    if s.retentionDays > 0 {
      var cutoff := CutoffDay(s.now, s.retentionDays);
      CutoffMeaning(v.at, s.now, s.retentionDays);
      KeepFromKeeps(s.visits, cutoff, v);
      InMultiset(Next(s, Prune).visits, v);
      InMultiset(s.visits, v);
    }
  }

  lemma InMultiset(visits: seq<Visit>, v: Visit)
    ensures v in visits <==> multiset(visits)[v] > 0
  {
  }

  lemma StepKeepsValid(s: State, step: Step)
    requires Valid(s) && Enabled(s, step)
    ensures Valid(Next(s, step))
  {
    match step
    case Tick(now) => DayIsMonotone(s.now, now);
    case Collect(site, visitor, url, referrer, isBot, urlParses) =>
      var visit := NewVisit(site, visitor, url, referrer, isBot, urlParses, s.now);
      if visit.Some? {
        TrimSpaceIsTrimmed(site);
        CollectKeepsValid(s, visit.value);
      }
    case ReadClock =>
    case Aggregate => AggregateKeepsValid(s);
    case Prune => PruneKeepsValid(s);
  }

  // ---------------------------------------------------------------- runs

  ghost predicate Run(states: seq<State>, steps: seq<Step>) {
    && |states| == |steps| + 1
    && Initial(states[0])
    && forall i :: 0 <= i < |steps| ==> Enabled(states[i], steps[i]) && states[i + 1] == Next(states[i], steps[i])
  }

  ghost predicate Reachable(s: State) {
    exists states, steps :: Run(states, steps) && states[|steps|] == s
  }

  lemma InitialIsReachable(s: State)
    requires Initial(s)
    ensures Reachable(s)
  {
    assert Run([s], []);
  }

  lemma StepReaches(s: State, step: Step)
    requires Reachable(s) && Enabled(s, step)
    ensures Reachable(Next(s, step))
  {
    var states, steps :| Run(states, steps) && states[|steps|] == s;
    var states', steps' := states + [Next(s, step)], steps + [step];
    assert Run(states', steps') && states'[|steps'|] == Next(s, step);
  }

  lemma {:induction false} RunsStayValid(states: seq<State>, steps: seq<Step>, n: nat)
    requires Run(states, steps) && n < |states|
    ensures Valid(states[n])
  {
    if n > 0 {
      RunsStayValid(states, steps, n - 1);
      StepKeepsValid(states[n - 1], steps[n - 1]);
    }
  }

  lemma {:induction false} PhaseHolds(states: seq<State>, steps: seq<Step>, i: nat, j: nat)
    requires Run(states, steps) && i < j <= |steps| && steps[i].ReadClock?
    requires forall k :: i < k < j ==> !steps[k].Aggregate?
    ensures states[j].phase == ClockRead(DayOf(states[i].now))
    decreases j
  {
    if i + 1 < j {
      PhaseHolds(states, steps, i, j - 1);
    }
  }

  lemma {:induction false} AggregatedStays(states: seq<State>, steps: seq<Step>, i: nat, n: nat)
    requires Run(states, steps) && i < n <= |steps|
    requires steps[i].Aggregate? && states[i].phase.day > 1
    ensures states[i].phase.day - 1 in states[n].aggregated
    decreases n
  {
    if i + 1 < n {
      AggregatedStays(states, steps, i, n - 1);
    }
  }

  /** Conservation: once a run of the job that read the clock on some day has
      aggregated, then at any later point and for every site, the row of the day
      before holds the page views and unique visitors of all non-bot visits ever
      recorded that day. Midnights inside the run, repeated runs and pruning with
      any retention change nothing. The zero date alone is never stored. */
  lemma RollupsAreConserved(states: seq<State>, steps: seq<Step>, i: nat, j: nat, n: nat, site: string, day: int)
    requires Run(states, steps) && i < j < n <= |steps|
    requires steps[i].ReadClock? && steps[j].Aggregate? && day == DayOf(states[i].now) - 1 != 0
    requires forall k :: i < k < j ==> !steps[k].Aggregate?
    ensures Stored(states[n], site, day).pageViews == |OfDay(states[n].recorded, site, day)|
    ensures Stored(states[n], site, day).uniqueVisitors == |Visitors(OfDay(states[n].recorded, site, day))|
  {
    PhaseHolds(states, steps, i, j);
    AggregatedStays(states, steps, j, n);
    RunsStayValid(states, steps, n);
  }

  /** A day that no pruning has reached still has all its visits, so its row also
      agrees with a count over the visits table. */
  lemma UnprunedDaysAgree(states: seq<State>, steps: seq<Step>, n: nat, site: string, day: int)
    requires Run(states, steps) && n < |states|
    requires day in states[n].aggregated && day >= states[n].prunedBefore
    ensures Stored(states[n], site, day) == RollupOf(states[n].visits, site, day)
  {
    RunsStayValid(states, steps, n);
    assert OfDay(states[n].visits, site, day) == OfDay(states[n].recorded, site, day);
  }
}
