/** The daily trend of internal/api/site_stats.go. */
module VisitTrend {
  import opened Basics
  import opened Text
  import opened Visits
  import VisitRollup

  const DEFAULT_TREND_DAYS := 7
  const MAX_TREND_DAYS := 30

  datatype DailyStat = DailyStat(date: int, pageViews: nat, uniqueVisitors: nat)

  function NormalizeTrendDays(days: int): (n: nat)
    ensures 1 <= n <= MAX_TREND_DAYS
    ensures 1 <= days <= MAX_TREND_DAYS ==> n == days
    ensures days > MAX_TREND_DAYS ==> n == MAX_TREND_DAYS
  {
    if days <= 0 then DEFAULT_TREND_DAYS else if days > MAX_TREND_DAYS then MAX_TREND_DAYS else days
  }

  function NamedVisitors(visits: seq<Visit>): set<string> {
    set v | v in visits && v.visitor != "" :: v.visitor
  }

  /** The days the grouped query has a row for: no upper bound on the date. */
  function QueriedDays(visits: seq<Visit>, site: string, from: int): set<int> {
    set v | v in visits && v.site == site && !v.isBot && DayOf(v.at) >= from :: DayOf(v.at)
  }

  function StatOf(visits: seq<Visit>, site: string, day: int): DailyStat {
    DailyStat(day, |OfDay(visits, site, day)|, |NamedVisitors(OfDay(visits, site, day))|)
  }

  /** The entries of n consecutive days. */
  function Trend(visits: seq<Visit>, site: string, from: int, n: nat): seq<DailyStat> {
    seq(n, k requires 0 <= k < n => StatOf(visits, site, from + k))
  }

  /** Exactly the normalized number of days, ending today. */
  method ComputeVisitTrend(visits: seq<Visit>, site: string, days: int, now: Time) returns (trend: seq<DailyStat>)
    ensures trend == if TrimSpace(site) == "" then []
                     else Trend(visits, site, DayOf(now) + 1 - NormalizeTrendDays(days), NormalizeTrendDays(days))
  {
    if TrimSpace(site) == "" { return []; }
    var n := NormalizeTrendDays(days);
    var startDay: int := DayOf(now) - (n - 1);
    var entries := EntriesByDay(visits, site, startDay);
    trend := [];
    for k := 0 to n
      invariant |trend| == k
      invariant forall j :: 0 <= j < k ==> trend[j] == StatOf(visits, site, startDay + j)
    {
      var date := startDay + k;
      if date in entries {
        trend := trend + [entries[date]];
      } else {
        UnqueriedDayIsEmpty(visits, site, startDay, date);
        trend := trend + [DailyStat(date, 0, 0)];
      }
    }
  }

  /** The rows of the grouped query, by day. */
  method EntriesByDay(visits: seq<Visit>, site: string, startDay: int) returns (entries: map<int, DailyStat>)
    ensures entries.Keys == QueriedDays(visits, site, startDay)
    ensures forall d :: d in entries ==> entries[d] == StatOf(visits, site, d)
  {
    var rows := QueriedDays(visits, site, startDay);
    entries := map[];
    var todo := rows;
    while todo != {}
      invariant todo <= rows && entries.Keys == rows - todo
      invariant forall d :: d in entries ==> entries[d] == StatOf(visits, site, d)
      decreases todo
    {
      var day :| day in todo;
      entries := entries[day := StatOf(visits, site, day)];
      todo := todo - {day};
    }
  }

  /** The visitors of a day that are not blank. */
  function VisitorsOn(visits: seq<Visit>, site: string, day: int): set<string> {
    set v | v in visits && v.site == site && !v.isBot && DayOf(v.at) == day && v.visitor != "" :: v.visitor
  }

  lemma StatMeaning(visits: seq<Visit>, site: string, day: int)
    ensures StatOf(visits, site, day)
         == DailyStat(day, InWindow(visits, site, day, day + 1), |VisitorsOn(visits, site, day)|)
  {
    EmptyWindow(visits, site, day);
    OneMoreDay(visits, site, day, day);
    OfDayMembers(visits, site, day);
    assert NamedVisitors(OfDay(visits, site, day)) == VisitorsOn(visits, site, day);
  }

  /** The entries are for n consecutive days, each with the number of non-bot visits of
      that day and of their different visitors, blank ones aside. */
  lemma TrendMeaning(visits: seq<Visit>, site: string, from: int, n: nat, k: nat, day: int)
    requires k < n && day == from + k
    ensures |Trend(visits, site, from, n)| == n
    ensures Trend(visits, site, from, n)[k]
         == DailyStat(day, InWindow(visits, site, day, day + 1), |VisitorsOn(visits, site, day)|)
  {
    StatMeaning(visits, site, day);
    assert Trend(visits, site, from, n)[k] == StatOf(visits, site, day);
  }

  lemma CountedDaysAreQueried(visits: seq<Visit>, site: string, from: int, day: int)
    requires day >= from
    ensures OfDay(visits, site, day) != [] ==> day in QueriedDays(visits, site, from)
  {
    OfDayMembers(visits, site, day);
    if OfDay(visits, site, day) != [] {
      assert OfDay(visits, site, day)[0] in OfDay(visits, site, day);
    }
  }

  lemma UnqueriedDayIsEmpty(visits: seq<Visit>, site: string, from: int, day: int)
    requires day >= from && day !in QueriedDays(visits, site, from)
    ensures StatOf(visits, site, day) == DailyStat(day, 0, 0)
  {
    CountedDaysAreQueried(visits, site, from, day);
    assert NamedVisitors([]) == {};
  }

  function TotalViews(trend: seq<DailyStat>): nat {
    if trend == [] then 0 else TotalViews(trend[..|trend| - 1]) + trend[|trend| - 1].pageViews
  }

  /** The non-bot visits of a site from day `from` up to but not including `to`. */
  function InWindow(visits: seq<Visit>, site: string, from: int, to: int): nat {
    if visits == [] then 0
    else
      var last := visits[|visits| - 1];
      InWindow(visits[..|visits| - 1], site, from, to)
      + if last.site == site && !last.isBot && from <= DayOf(last.at) < to then 1 else 0
  }

  lemma {:induction false} OneMoreDay(visits: seq<Visit>, site: string, from: int, to: int)
    requires from <= to
    ensures InWindow(visits, site, from, to + 1) == InWindow(visits, site, from, to) + |OfDay(visits, site, to)|
  {
    if visits != [] {
      OneMoreDay(visits[..|visits| - 1], site, from, to);
    }
  }

  lemma {:induction false} EmptyWindow(visits: seq<Visit>, site: string, from: int)
    ensures InWindow(visits, site, from, from) == 0
  {
    if visits != [] {
      EmptyWindow(visits[..|visits| - 1], site, from);
    }
  }

  /** The entries of a trend add up to exactly the non-bot visits of its window:
      each visit of those days is counted once, and none outside is. */
  lemma {:induction false} TrendTotal(visits: seq<Visit>, site: string, from: int, n: nat)
    ensures TotalViews(Trend(visits, site, from, n)) == InWindow(visits, site, from, from + n)
  {
    if n == 0 {
      EmptyWindow(visits, site, from);
    } else {
      var trend := Trend(visits, site, from, n);
      assert |trend| == n && trend[n - 1] == StatOf(visits, site, from + n - 1);
      assert trend[..n - 1] == Trend(visits, site, from, n - 1);
      TrendTotal(visits, site, from, n - 1);
      OneMoreDay(visits, site, from, from + n - 1);
    }
  }

  /** For every aggregated day that no pruning has reached, the trend and the stored
      rollup show the same page views, at every point of a run of the job. Their
      unique visitors agree exactly when no visit of the day lacks a visitor. */
  lemma TrendAgreesWithRollup(
    states: seq<VisitRollup.State>, steps: seq<VisitRollup.Step>, i: nat, site: string, day: int)
    requires VisitRollup.Run(states, steps) && i < |states|
    requires day in states[i].aggregated && day >= states[i].prunedBefore
    ensures StatOf(states[i].visits, site, day).pageViews == VisitRollup.Stored(states[i], site, day).pageViews
    ensures StatOf(states[i].visits, site, day).uniqueVisitors == VisitRollup.Stored(states[i], site, day).uniqueVisitors
            <==> AllNamed(OfDay(states[i].visits, site, day))
  {
    VisitRollup.UnprunedDaysAgree(states, steps, i, site, day);
    BlankVisitorCounts(OfDay(states[i].visits, site, day));
  }

  /** A visit on the first day, and a run of the job on the second. */
  lemma AggregatedVisitIsReachable(v: Visit, state: VisitRollup.State)
    requires v == Visit(v.site, "", v.url, "", false, DAY)
    requires TrimSpace(v.site) == v.site != "" && TrimSpace(v.url) == v.url != ""
    requires state == VisitRollup.State(2 * DAY, [v], map[], VisitRollup.ClockRead(2), 0, [v], {}, 0)
    ensures VisitRollup.Reachable(VisitRollup.Next(state, VisitRollup.Aggregate))
  {
    var s0 := VisitRollup.State(DAY, [], map[], VisitRollup.Idle, 0, [], {}, 0);
    var s1 := s0.(visits := [v], recorded := [v]);
    var collect := VisitRollup.Collect(v.site, "", v.url, "", false, true);
    VisitRollup.InitialIsReachable(s0);
    assert VisitRollup.Next(s0, collect) == s1;
    VisitRollup.StepReaches(s0, collect);
    VisitRollup.StepReaches(s1, VisitRollup.Tick(2 * DAY));
    VisitRollup.StepReaches(s1.(now := 2 * DAY), VisitRollup.ReadClock);
    VisitRollup.StepReaches(state, VisitRollup.Aggregate);
  }

  /** A reachable state in which an aggregated day still has all its visits. */
  ghost predicate ShowsBoth(s: VisitRollup.State, day: int) {
    VisitRollup.Reachable(s) && day in s.aggregated && day >= s.prunedBefore
  }

  /** They do differ: a visit without a visitor, aggregated on the next day. */
  lemma UniqueVisitorsCanDiffer(site: string, url: string)
    requires TrimSpace(site) == site != "" && TrimSpace(url) == url != ""
    ensures exists s :: ShowsBoth(s, 1)
                        && StatOf(s.visits, site, 1).uniqueVisitors != VisitRollup.Stored(s, site, 1).uniqueVisitors
  {
    var v := Visit(site, "", url, "", false, DAY);
    var s3 := VisitRollup.State(2 * DAY, [v], map[], VisitRollup.ClockRead(2), 0, [v], {}, 0);
    AggregatedVisitIsReachable(v, s3);
    var s4 := VisitRollup.Next(s3, VisitRollup.Aggregate);
    assert ShowsBoth(s4, 1);
    var states, steps :| VisitRollup.Run(states, steps) && states[|steps|] == s4;
    OfDayMembers(s4.visits, site, 1);
    assert v in OfDay(s4.visits, site, 1);
    TrendAgreesWithRollup(states, steps, |steps|, site, 1);
  }

  predicate AllNamed(visits: seq<Visit>) {
    forall v :: v in visits ==> v.visitor != ""
  }

  lemma BlankVisitorCounts(visits: seq<Visit>)
    ensures |Visitors(visits)| == |NamedVisitors(visits)| <==> AllNamed(visits)
  {
    if v :| v in visits && v.visitor == "" {
      assert "" in Visitors(visits);
      assert NamedVisitors(visits) == Visitors(visits) - {""};
    } else {
      assert NamedVisitors(visits) == Visitors(visits);
    }
  }
}
