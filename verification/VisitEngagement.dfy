/** Visitor engagement of internal/api/site_stats.go: a streaming group-by over the
    visit rows, then a fold over the groups in map order. */
module VisitEngagement {
  import opened Basics
  import opened Text
  import opened Visits

  const DEFAULT_ENGAGEMENT_DAYS := 30
  const MAX_ENGAGEMENT_DAYS := 90
  const NANOSECONDS_PER_SECOND: nat := 1_000_000_000

  /** One row of the query. */
  datatype Row = Row(visitor: string, at: Time)

  datatype Aggregate = Aggregate(count: nat, first: Time, last: Time)

  datatype DepthDistribution = DepthDistribution(single: nat, twoToThree: nat, fourToSeven: nat, eightOrMore: nat)

  datatype TimeDistribution = TimeDistribution(underThirty: nat, underTwoMinutes: nat, underTenMinutes: nat, longer: nat)

  datatype Engagement = Engagement(
    tracked: nat,
    returning: nat,
    returningRate: real,
    averagePages: real,
    depth: DepthDistribution,
    time: TimeDistribution)

  function NormalizeEngagementDays(days: int): (n: nat)
    ensures 1 <= n <= MAX_ENGAGEMENT_DAYS
    ensures 1 <= days <= MAX_ENGAGEMENT_DAYS ==> n == days
    ensures days > MAX_ENGAGEMENT_DAYS ==> n == MAX_ENGAGEMENT_DAYS
  {
    if days <= 0 then DEFAULT_ENGAGEMENT_DAYS else if days > MAX_ENGAGEMENT_DAYS then MAX_ENGAGEMENT_DAYS else days
  }

  /** The rows of the query: non-bot visits of the site with a visitor, from
      midnight of the first day on. */
  function Selected(visits: seq<Visit>, site: string, from: int): seq<Row> {
    if visits == [] then []
    else
      var last := visits[|visits| - 1];
      Selected(visits[..|visits| - 1], site, from)
      + if last.site == site && !last.isBot && last.visitor != "" && DayOf(last.at) >= from
        then [Row(last.visitor, last.at)] else []
  }

  // ------------------------------------------------- declarative group-by

  function Key(row: Row): string {
    TrimSpace(row.visitor)
  }

  function KeysOf(rows: seq<Row>): set<string> {
    set row | row in rows && Key(row) != "" :: Key(row)
  }

  /** The times at which a visitor was seen, with repetitions. */
  function TimesOf(rows: seq<Row>, visitor: string): multiset<Time> {
    if rows == [] then multiset{}
    else
      var last := rows[|rows| - 1];
      TimesOf(rows[..|rows| - 1], visitor) + if Key(last) == visitor then multiset{last.at} else multiset{}
  }

  /** Count, earliest and latest of a nonempty collection of times. */
  ghost predicate Summarizes(a: Aggregate, times: multiset<Time>) {
    && a.count == |times|
    && a.first in times && a.last in times
    && forall t :: t in times ==> a.first <= t <= a.last
  }

  /** The map groups the rows: one entry for each visitor that is not blank,
      summarizing exactly its own times. */
  ghost predicate Groups(groups: map<string, Aggregate>, rows: seq<Row>) {
    && groups.Keys == KeysOf(rows)
    && forall visitor :: visitor in groups ==> Summarizes(groups[visitor], TimesOf(rows, visitor))
  }

  lemma SummaryIsUnique(a: Aggregate, b: Aggregate, times: multiset<Time>)
    requires Summarizes(a, times) && Summarizes(b, times)
    ensures a == b
  {
  }

  lemma TimesWithout(rows: seq<Row>, k: nat, visitor: string)
    requires k < |rows|
    ensures TimesOf(rows, visitor) == TimesOf(Without(rows, k), visitor) + TimesOf([rows[k]], visitor)
  {
    assert rows == rows[..k] + ([rows[k]] + rows[k + 1..]);
    TimesConcat(rows[..k], [rows[k]] + rows[k + 1..], visitor);
    TimesConcat([rows[k]], rows[k + 1..], visitor);
    TimesConcat(rows[..k], rows[k + 1..], visitor);
  }

  /** Rows in another order have the same times for every visitor. */
  lemma {:induction false} TimesIgnoreOrder(rows: seq<Row>, others: seq<Row>, visitor: string)
    requires multiset(rows) == multiset(others)
    ensures TimesOf(rows, visitor) == TimesOf(others, visitor)
    decreases |rows|
  {
    if rows == [] {
      assert |others| == |multiset(others)| == 0;
    } else {
      var n := |rows| - 1;
      assert rows[n] in multiset(others);
      var k :| 0 <= k < |others| && others[k] == rows[n];
      WithoutDropsOne(rows, n);
      WithoutDropsOne(others, k);
      assert multiset(Without(rows, n)) == multiset(rows) - multiset{rows[n]};
      assert multiset(Without(others, k)) == multiset(others) - multiset{rows[n]};
      TimesIgnoreOrder(Without(rows, n), Without(others, k), visitor);
      TimesWithout(rows, n, visitor);
      TimesWithout(others, k, visitor);
    }
  }

  lemma {:induction false} TimesConcat(a: seq<Row>, b: seq<Row>, visitor: string)
    ensures TimesOf(a + b, visitor) == TimesOf(a, visitor) + TimesOf(b, visitor)
  {
    if b == [] {
      assert a + b == a;
    } else {
      assert (a + b)[..|a + b| - 1] == a + b[..|b| - 1];
      TimesConcat(a, b[..|b| - 1], visitor);
    }
  }

  lemma KeysIgnoreOrder(rows: seq<Row>, others: seq<Row>)
    requires multiset(rows) == multiset(others)
    ensures KeysOf(rows) == KeysOf(others)
  {
    assert forall row :: row in rows <==> row in multiset(rows);
    assert forall row :: row in others <==> row in multiset(others);
  }

  lemma SameGroup(groups: map<string, Aggregate>, rows: seq<Row>, others: seq<Row>, others': map<string, Aggregate>, v: string)
    requires Groups(groups, rows) && Groups(others', others) && multiset(rows) == multiset(others)
    requires v in groups && v in others'
    ensures groups[v] == others'[v]
  {
    TimesIgnoreOrder(rows, others, v);
    SummaryIsUnique(groups[v], others'[v], TimesOf(rows, v));
  }

  /** The grouping does not depend on the order of the rows. */
  lemma GroupsIgnoreOrder(groups: map<string, Aggregate>, rows: seq<Row>, others: seq<Row>, others': map<string, Aggregate>)
    requires Groups(groups, rows) && Groups(others', others) && multiset(rows) == multiset(others)
    ensures groups == others'
  {
    KeysIgnoreOrder(rows, others);
    assert groups.Keys == others'.Keys;
    forall v | v in groups ensures groups[v] == others'[v] {
      SameGroup(groups, rows, others, others', v);
    }
  }

  lemma TimesSnoc(rows: seq<Row>, row: Row, visitor: string)
    ensures TimesOf(rows + [row], visitor)
         == TimesOf(rows, visitor) + if Key(row) == visitor then multiset{row.at} else multiset{}
  {
    assert (rows + [row])[..|rows|] == rows;
  }

  lemma KeysSnoc(rows: seq<Row>, row: Row)
    ensures KeysOf(rows + [row]) == KeysOf(rows) + if Key(row) == "" then {} else {Key(row)}
  {
    assert forall r :: r in rows + [row] <==> r in rows || r == row;
  }

  lemma {:induction false} UnseenHasNoTimes(rows: seq<Row>, visitor: string)
    requires visitor != "" && visitor !in KeysOf(rows)
    ensures TimesOf(rows, visitor) == multiset{}
  {
    if rows != [] {
      var init, last := rows[..|rows| - 1], rows[|rows| - 1];
      assert rows == init + [last];
      KeysSnoc(init, last);
      UnseenHasNoTimes(init, visitor);
    }
  }

  /** One more sighting. */
  function Extended(a: Aggregate, at: Time): Aggregate {
    Aggregate(a.count + 1, if at < a.first then at else a.first, if at > a.last then at else a.last)
  }

  lemma ExtendedSummary(a: Aggregate, times: multiset<Time>, at: Time)
    requires Summarizes(a, times)
    ensures Summarizes(Extended(a, at), times + multiset{at})
  {
  }

  function WithRow(groups: map<string, Aggregate>, row: Row): map<string, Aggregate> {
    var v := Key(row);
    if v == "" then groups
    else groups[v := if v in groups then Extended(groups[v], row.at) else Aggregate(1, row.at, row.at)]
  }

  lemma WithRowSummarizes(groups: map<string, Aggregate>, rows: seq<Row>, row: Row)
    requires Groups(groups, rows) && Key(row) != ""
    ensures Summarizes(WithRow(groups, row)[Key(row)], TimesOf(rows + [row], Key(row)))
  {
    var v := Key(row);
    TimesSnoc(rows, row, v);
    if v in groups {
      ExtendedSummary(groups[v], TimesOf(rows, v), row.at);
    } else {
      UnseenHasNoTimes(rows, v);
      assert TimesOf(rows + [row], v) == multiset{row.at};
    }
  }

  lemma OtherGroupStays(groups: map<string, Aggregate>, rows: seq<Row>, row: Row, v: string)
    requires Groups(groups, rows) && v in groups && v != Key(row)
    ensures v in WithRow(groups, row) && WithRow(groups, row)[v] == groups[v]
    ensures Summarizes(groups[v], TimesOf(rows + [row], v))
  {
    TimesSnoc(rows, row, v);
    assert TimesOf(rows + [row], v) == TimesOf(rows, v);
  }

  lemma WithRowKeys(groups: map<string, Aggregate>, rows: seq<Row>, row: Row)
    requires groups.Keys == KeysOf(rows)
    ensures WithRow(groups, row).Keys == KeysOf(rows + [row])
  {
    KeysSnoc(rows, row);
  }

  lemma {:induction false} NoBlankKeys(rows: seq<Row>)
    ensures "" !in KeysOf(rows)
  {
  }

  lemma GroupsWithRow(groups: map<string, Aggregate>, rows: seq<Row>, row: Row)
    requires Groups(groups, rows)
    ensures Groups(WithRow(groups, row), rows + [row])
  {
    WithRowKeys(groups, rows, row);
    NoBlankKeys(rows);
    forall v | v in WithRow(groups, row) ensures Summarizes(WithRow(groups, row)[v], TimesOf(rows + [row], v)) {
      if v == Key(row) {
        WithRowSummarizes(groups, rows, row);
      } else {
        OtherGroupStays(groups, rows, row, v);
      }
    }
  }

  // ------------------------------------------------------------- the fold

  method AggregateRows(rows: seq<Row>) returns (groups: map<string, Aggregate>)
    ensures Groups(groups, rows)
  {
    groups := map[];
    for k := 0 to |rows|
      invariant Groups(groups, rows[..k])
    {
      var row := rows[k];
      assert rows[..k + 1] == rows[..k] + [row];
      GroupsWithRow(groups, rows[..k], row);
      groups := AddRow(groups, row);
    }
    assert rows[..|rows|] == rows;
  }

  /** The body of the loop. */
  method AddRow(groups: map<string, Aggregate>, row: Row) returns (next: map<string, Aggregate>)
    ensures next == WithRow(groups, row)
  {
    var visitor := TrimSpace(row.visitor);
    if visitor == "" { return groups; }
    if visitor !in groups { return groups[visitor := Aggregate(1, row.at, row.at)]; }
    var existing := groups[visitor];
    existing := existing.(count := existing.count + 1);
    if row.at < existing.first { existing := existing.(first := row.at); }
    if row.at > existing.last { existing := existing.(last := row.at); }
    next := groups[visitor := existing];
  }

  function AccumulateDepth(d: DepthDistribution, count: nat): DepthDistribution {
    if count <= 1 then d.(single := d.single + 1)
    else if count <= 3 then d.(twoToThree := d.twoToThree + 1)
    else if count <= 7 then d.(fourToSeven := d.fourToSeven + 1)
    else d.(eightOrMore := d.eightOrMore + 1)
  }

  function AccumulateTime(d: TimeDistribution, seconds: nat): TimeDistribution {
    if seconds < 30 then d.(underThirty := d.underThirty + 1)
    else if seconds < 120 then d.(underTwoMinutes := d.underTwoMinutes + 1)
    else if seconds < 600 then d.(underTenMinutes := d.underTenMinutes + 1)
    else d.(longer := d.longer + 1)
  }

  function ObservedSeconds(a: Aggregate): nat {
    if a.first == 0 || a.last == 0 || a.last < a.first then 0
    else (a.last - a.first) / NANOSECONDS_PER_SECOND
  }

  /** Rounding half away from zero, to the given number of parts. */
  function RoundMetric(x: real): real {
    (if x >= 0.0 then (x * 100.0 + 0.5).Floor as real else -((-x * 100.0 + 0.5).Floor as real)) / 100.0
  }

  // -------------------------------------------------- declarative summary

  /** The visitors of `done` whose page count lies between the bounds. */
  function CountBetween(groups: map<string, Aggregate>, done: set<string>, low: nat, high: nat): set<string> {
    set v | v in done && v in groups && low <= groups[v].count <= high
  }

  function CountAbove(groups: map<string, Aggregate>, done: set<string>, low: nat): set<string> {
    set v | v in done && v in groups && groups[v].count > low
  }

  function SecondsBetween(groups: map<string, Aggregate>, done: set<string>, low: nat, high: nat): set<string> {
    set v | v in done && v in groups && low <= ObservedSeconds(groups[v]) < high
  }

  function SecondsFrom(groups: map<string, Aggregate>, done: set<string>, low: nat): set<string> {
    set v | v in done && v in groups && ObservedSeconds(groups[v]) >= low
  }

  function DepthOf(groups: map<string, Aggregate>, done: set<string>): DepthDistribution {
    DepthDistribution(|CountBetween(groups, done, 0, 1)|, |CountBetween(groups, done, 2, 3)|,
                      |CountBetween(groups, done, 4, 7)|, |CountAbove(groups, done, 7)|)
  }

  function TimeOf(groups: map<string, Aggregate>, done: set<string>): TimeDistribution {
    TimeDistribution(|SecondsBetween(groups, done, 0, 30)|, |SecondsBetween(groups, done, 30, 120)|,
                     |SecondsBetween(groups, done, 120, 600)|, |SecondsFrom(groups, done, 600)|)
  }

  /** The rows that belong to visitors of `done`. */
  function RowsOf(rows: seq<Row>, done: set<string>): nat {
    if rows == [] then 0
    else RowsOf(rows[..|rows| - 1], done) + if Key(rows[|rows| - 1]) in done then 1 else 0
  }

  lemma DepthOneMore(groups: map<string, Aggregate>, done: set<string>, v: string)
    requires v in groups && v !in done
    ensures DepthOf(groups, done + {v}) == AccumulateDepth(DepthOf(groups, done), groups[v].count)
  {
    var count := groups[v].count;
    CountOneMore(groups, done, v, 0, 1);
    CountOneMore(groups, done, v, 2, 3);
    CountOneMore(groups, done, v, 4, 7);
    CountAboveOneMore(groups, done, v, 7);
  }

  lemma CountOneMore(groups: map<string, Aggregate>, done: set<string>, v: string, low: nat, high: nat)
    requires v in groups && v !in done
    ensures |CountBetween(groups, done + {v}, low, high)|
         == |CountBetween(groups, done, low, high)| + if low <= groups[v].count <= high then 1 else 0
  {
    assert CountBetween(groups, done + {v}, low, high)
        == CountBetween(groups, done, low, high) + if low <= groups[v].count <= high then {v} else {};
  }

  lemma CountAboveOneMore(groups: map<string, Aggregate>, done: set<string>, v: string, low: nat)
    requires v in groups && v !in done
    ensures |CountAbove(groups, done + {v}, low)|
         == |CountAbove(groups, done, low)| + if groups[v].count > low then 1 else 0
  {
    assert CountAbove(groups, done + {v}, low)
        == CountAbove(groups, done, low) + if groups[v].count > low then {v} else {};
  }

  lemma SecondsOneMore(groups: map<string, Aggregate>, done: set<string>, v: string, low: nat, high: nat)
    requires v in groups && v !in done
    ensures |SecondsBetween(groups, done + {v}, low, high)|
         == |SecondsBetween(groups, done, low, high)| + if low <= ObservedSeconds(groups[v]) < high then 1 else 0
  {
    assert SecondsBetween(groups, done + {v}, low, high)
        == SecondsBetween(groups, done, low, high) + if low <= ObservedSeconds(groups[v]) < high then {v} else {};
  }

  lemma SecondsFromOneMore(groups: map<string, Aggregate>, done: set<string>, v: string, low: nat)
    requires v in groups && v !in done
    ensures |SecondsFrom(groups, done + {v}, low)|
         == |SecondsFrom(groups, done, low)| + if ObservedSeconds(groups[v]) >= low then 1 else 0
  {
    assert SecondsFrom(groups, done + {v}, low)
        == SecondsFrom(groups, done, low) + if ObservedSeconds(groups[v]) >= low then {v} else {};
  }

  lemma TimeOneMore(groups: map<string, Aggregate>, done: set<string>, v: string)
    requires v in groups && v !in done
    ensures TimeOf(groups, done + {v}) == AccumulateTime(TimeOf(groups, done), ObservedSeconds(groups[v]))
  {
    SecondsOneMore(groups, done, v, 0, 30);
    SecondsOneMore(groups, done, v, 30, 120);
    SecondsOneMore(groups, done, v, 120, 600);
    SecondsFromOneMore(groups, done, v, 600);
  }

  lemma {:induction false} RowsOneMore(rows: seq<Row>, done: set<string>, v: string)
    requires v !in done
    ensures RowsOf(rows, done + {v}) == RowsOf(rows, done) + |TimesOf(rows, v)|
  {
    if rows != [] {
      RowsOneMore(rows[..|rows| - 1], done, v);
    }
  }

  lemma {:induction false} NoRowsOfNobody(rows: seq<Row>)
    ensures RowsOf(rows, {}) == 0
  {
    if rows != [] {
      NoRowsOfNobody(rows[..|rows| - 1]);
    }
  }

  /** The running totals of the second loop. */
  datatype Sums = Sums(total: nat, returning: nat, depth: DepthDistribution, time: TimeDistribution)

  function SumsOf(groups: map<string, Aggregate>, rows: seq<Row>, done: set<string>): Sums {
    Sums(RowsOf(rows, done), |CountAbove(groups, done, 1)|, DepthOf(groups, done), TimeOf(groups, done))
  }

  function Accumulate(s: Sums, a: Aggregate): Sums {
    Sums(s.total + a.count, if a.count > 1 then s.returning + 1 else s.returning,
         AccumulateDepth(s.depth, a.count), AccumulateTime(s.time, ObservedSeconds(a)))
  }

  lemma SumsOneMore(groups: map<string, Aggregate>, rows: seq<Row>, done: set<string>, v: string)
    requires v in groups && v !in done && groups[v].count == |TimesOf(rows, v)|
    ensures SumsOf(groups, rows, done + {v}) == Accumulate(SumsOf(groups, rows, done), groups[v])
  {
    DepthOneMore(groups, done, v);
    TimeOneMore(groups, done, v);
    CountAboveOneMore(groups, done, v, 1);
    RowsOneMore(rows, done, v);
  }

  lemma SumsOfNobody(groups: map<string, Aggregate>, rows: seq<Row>)
    ensures SumsOf(groups, rows, {}) == Sums(0, 0, DepthDistribution(0, 0, 0, 0), TimeDistribution(0, 0, 0, 0))
  {
    NoRowsOfNobody(rows);
    assert CountBetween(groups, {}, 0, 1) == CountBetween(groups, {}, 2, 3) == CountBetween(groups, {}, 4, 7) == {};
    assert CountAbove(groups, {}, 7) == CountAbove(groups, {}, 1) == {};
    assert SecondsBetween(groups, {}, 0, 30) == SecondsBetween(groups, {}, 30, 120) == {};
    assert SecondsBetween(groups, {}, 120, 600) == SecondsFrom(groups, {}, 600) == {};
  }

  /** The metrics for the given number of visitors and totals. */
  function Metrics(tracked: nat, s: Sums): Engagement {
    Engagement(
      tracked, s.returning,
      if tracked == 0 then 0.0 else RoundMetric(s.returning as real / tracked as real),
      if tracked == 0 then 0.0 else RoundMetric(s.total as real / tracked as real),
      s.depth, s.time)
  }

  /** What the second loop computes from the groups, in whatever order it visits
      them, and from the rows they group. */
  function EngagementOf(groups: map<string, Aggregate>, rows: seq<Row>): Engagement {
    Metrics(|groups|, SumsOf(groups, rows, groups.Keys))
  }

  /** Each group counts the rows of its visitor. */
  ghost predicate CountsRows(groups: map<string, Aggregate>, rows: seq<Row>) {
    forall v :: v in groups ==> groups[v].count == |TimesOf(rows, v)|
  }

  method SumGroups(groups: map<string, Aggregate>, ghost rows: seq<Row>) returns (s: Sums)
    requires CountsRows(groups, rows)
    ensures s == SumsOf(groups, rows, groups.Keys)
  {
    SumsOfNobody(groups, rows);
    forall done, v | v in groups && v !in done
      ensures SumsOf(groups, rows, done + {v}) == Accumulate(SumsOf(groups, rows, done), groups[v]) {
      SumsOneMore(groups, rows, done, v);
    }
    s := FoldGroups(groups, done => SumsOf(groups, rows, done));
  }

  /** The loop, for any sums that grow by one group at a time. */
  method FoldGroups(groups: map<string, Aggregate>, ghost sums: set<string> -> Sums) returns (s: Sums)
    requires sums({}) == Sums(0, 0, DepthDistribution(0, 0, 0, 0), TimeDistribution(0, 0, 0, 0))
    requires forall done, v :: v in groups && v !in done ==> sums(done + {v}) == Accumulate(sums(done), groups[v])
    ensures s == sums(groups.Keys)
  {
    s := Sums(0, 0, DepthDistribution(0, 0, 0, 0), TimeDistribution(0, 0, 0, 0));
    var todo := groups.Keys;
    ghost var done: set<string> := {};
    while todo != {}
      invariant todo <= groups.Keys && done == groups.Keys - todo
      invariant s == sums(done)
      decreases todo
    {
      var v :| v in todo;
      s := AddGroup(s, groups[v]);
      todo := todo - {v};
      done := done + {v};
    }
    assert done == groups.Keys;
  }

  /** The body of the loop. */
  method AddGroup(s: Sums, a: Aggregate) returns (next: Sums)
    ensures next == Accumulate(s, a)
  {
    next := s.(total := s.total + a.count);
    if a.count > 1 { next := next.(returning := next.returning + 1); }
    next := next.(depth := AccumulateDepth(next.depth, a.count));
    next := next.(time := AccumulateTime(next.time, ObservedSeconds(a)));
  }

  method SummarizeGroups(groups: map<string, Aggregate>, ghost rows: seq<Row>) returns (metrics: Engagement)
    requires Groups(groups, rows)
    ensures metrics == EngagementOf(groups, rows)
  {
    var s := SumGroups(groups, rows);
    var tracked := |groups|;
    metrics := Engagement(tracked, s.returning, 0.0, 0.0, s.depth, s.time);
    if tracked > 0 {
      metrics := metrics.(returningRate := RoundMetric(s.returning as real / tracked as real),
                          averagePages := RoundMetric(s.total as real / tracked as real));
    }
  }

  /** The metrics report the rows: they are computed from their grouping. */
  ghost predicate Reports(metrics: Engagement, rows: seq<Row>) {
    exists groups :: Groups(groups, rows) && metrics == EngagementOf(groups, rows)
  }

  method EngagementOfRows(rows: seq<Row>) returns (metrics: Engagement)
    ensures Reports(metrics, rows)
  {
    var groups := AggregateRows(rows);
    metrics := SummarizeGroups(groups, rows);
  }

  method ComputeVisitEngagement(visits: seq<Visit>, site: string, days: int, now: Time)
    returns (metrics: Engagement)
    ensures if TrimSpace(site) == "" then metrics == Metrics(0, Sums(0, 0, DepthDistribution(0, 0, 0, 0), TimeDistribution(0, 0, 0, 0)))
            else Reports(metrics, Selected(visits, site, DayOf(now) + 1 - NormalizeEngagementDays(days)))
  {
    if TrimSpace(site) == "" {
      return Engagement(0, 0, 0.0, 0.0, DepthDistribution(0, 0, 0, 0), TimeDistribution(0, 0, 0, 0));
    }
    var startDay: int := DayOf(now) - (NormalizeEngagementDays(days) - 1);
    metrics := EngagementOfRows(Selected(visits, site, startDay));
  }

  // ----------------------------------------------------------- properties

  /** Rows in another order are reported alike. */
  lemma ReportsIgnoreOrder(a: Engagement, b: Engagement, rows: seq<Row>, others: seq<Row>)
    requires Reports(a, rows) && Reports(b, others) && multiset(rows) == multiset(others)
    ensures a == b
  {
    var g :| Groups(g, rows) && a == EngagementOf(g, rows);
    var h :| Groups(h, others) && b == EngagementOf(h, others);
    GroupsIgnoreOrder(g, rows, others, h);
    RowsOfIgnoreOrder(rows, others, g.Keys);
  }

  lemma {:induction false} RowsOfIgnoreOrder(rows: seq<Row>, others: seq<Row>, done: set<string>)
    requires multiset(rows) == multiset(others)
    ensures RowsOf(rows, done) == RowsOf(others, done)
    decreases done
  {
    if done == {} {
      NoRowsOfNobody(rows);
      NoRowsOfNobody(others);
    } else {
      var v :| v in done;
      RowsOfIgnoreOrder(rows, others, done - {v});
      RowsOneMore(rows, done - {v}, v);
      RowsOneMore(others, done - {v}, v);
      TimesIgnoreOrder(rows, others, v);
      assert done - {v} + {v} == done;
    }
  }

  /** Both distributions account for every tracked visitor once, the returning
      visitors are the tracked ones that saw more than one page, and the visits
      counted are exactly the rows whose visitor is not blank. */
  lemma EngagementAddsUp(e: Engagement, rows: seq<Row>)
    requires Reports(e, rows)
    ensures e.tracked == |KeysOf(rows)|
    ensures e.depth.single + e.depth.twoToThree + e.depth.fourToSeven + e.depth.eightOrMore == e.tracked
    ensures e.time.underThirty + e.time.underTwoMinutes + e.time.underTenMinutes + e.time.longer == e.tracked
    ensures e.returning == e.tracked - e.depth.single
    ensures e.tracked > 0 ==> e.averagePages == RoundMetric(NamedRows(rows) as real / e.tracked as real)
    ensures e.tracked > 0 ==> e.returningRate == RoundMetric(e.returning as real / e.tracked as real)
  {
    var groups :| Groups(groups, rows) && e == EngagementOf(groups, rows);
    DepthCoversAll(groups, groups.Keys);
    TimeCoversAll(groups, groups.Keys);
    assert |groups| == |groups.Keys|;
    RowsOfAllKeys(rows, groups.Keys);
  }

  lemma {:induction false} DepthCoversAll(groups: map<string, Aggregate>, done: set<string>)
    requires done <= groups.Keys
    ensures var d := DepthOf(groups, done);
            d.single + d.twoToThree + d.fourToSeven + d.eightOrMore == |done|
            && |CountAbove(groups, done, 1)| == |done| - d.single
  {
    if done != {} {
      var v :| v in done;
      DepthCoversAll(groups, done - {v});
      DepthOneMore(groups, done - {v}, v);
      CountAboveOneMore(groups, done - {v}, v, 1);
      assert done - {v} + {v} == done;
    }
  }

  lemma {:induction false} TimeCoversAll(groups: map<string, Aggregate>, done: set<string>)
    requires done <= groups.Keys
    ensures var d := TimeOf(groups, done);
            d.underThirty + d.underTwoMinutes + d.underTenMinutes + d.longer == |done|
  {
    if done != {} {
      var v :| v in done;
      TimeCoversAll(groups, done - {v});
      TimeOneMore(groups, done - {v}, v);
      assert done - {v} + {v} == done;
    }
  }

  function NamedRows(rows: seq<Row>): nat {
    if rows == [] then 0
    else NamedRows(rows[..|rows| - 1]) + if Key(rows[|rows| - 1]) != "" then 1 else 0
  }

  lemma {:induction false} RowsOfAllKeys(rows: seq<Row>, keys: set<string>)
    requires KeysOf(rows) <= keys && "" !in keys
    ensures RowsOf(rows, keys) == NamedRows(rows)
  {
    if rows != [] {
      var init, last := rows[..|rows| - 1], rows[|rows| - 1];
      assert rows == init + [last];
      KeysSnoc(init, last);
      RowsOfAllKeys(init, keys);
    }
  }

  /** Rounding moves a metric by at most half a hundredth, and never past another:
      it is monotone. */
  lemma RoundingIsClose(x: real)
    ensures -0.005 <= RoundMetric(x) - x <= 0.005
  {
    var y := if x >= 0.0 then x * 100.0 else -x * 100.0;
    var f := (y + 0.5).Floor as real;
    assert f <= y + 0.5 < f + 1.0;
  }

  lemma RoundingIsMonotone(x: real, y: real)
    requires 0.0 <= x <= y
    ensures RoundMetric(x) <= RoundMetric(y)
  {
    assert (x * 100.0 + 0.5).Floor <= (y * 100.0 + 0.5).Floor;
  }

  // ------------------------------------------------- what is measured

  /** The visit is counted for engagement. */
  predicate IsEngaged(v: Visit, site: string, from: int) {
    v.site == site && !v.isBot && v.visitor != "" && DayOf(v.at) >= from
  }

  function RowsFor(visits: seq<Visit>): (rows: seq<Row>)
    ensures |rows| == |visits|
  {
    seq(|visits|, k requires 0 <= k < |visits| => RowOf(visits[k]))
  }

  function RowOf(v: Visit): Row {
    Row(v.visitor, v.at)
  }

  lemma {:induction false} SelectedRows(visits: seq<Visit>, site: string, from: int, keep: Visit -> bool)
    requires forall v :: keep(v) <==> IsEngaged(v, site, from)
    ensures Selected(visits, site, from) == RowsFor(Where(visits, keep))
  {
    if visits != [] {
      SelectedRows(visits[..|visits| - 1], site, from, keep);
    }
  }

  /** The rows measured are exactly the site's visits that are not by bots, have a
      visitor and are not before the first day, each as often as it was recorded, in
      their order. */
  lemma SelectedMeaning(visits: seq<Visit>, site: string, from: int, keep: Visit -> bool, v: Visit)
    requires forall x :: keep(x) <==> IsEngaged(x, site, from)
    ensures Selected(visits, site, from) == RowsFor(Where(visits, keep))
    ensures multiset(Where(visits, keep))[v] == if IsEngaged(v, site, from) then multiset(visits)[v] else 0
    ensures Subsequence(Where(visits, keep), visits)
  {
    SelectedRows(visits, site, from, keep);
    WhereMeaning(visits, keep, v);
  }

  /** The observed time of a visitor is the whole seconds between its earliest and its
      latest visit, unless one of them has the zero time. */
  lemma ObservedMeaning(a: Aggregate, times: multiset<Time>, seconds: nat)
    requires Summarizes(a, times) && 0 !in times
    ensures ObservedSeconds(a) == seconds
       <==> seconds * 1_000_000_000 <= a.last - a.first < (seconds + 1) * 1_000_000_000
  {
  }

  /** A rounded metric is a whole number of hundredths, and a metric halfway between
      two is rounded up. */
  lemma RoundingMeaning(x: real, hundredths: int)
    requires x >= 0.0
    ensures RoundMetric(x) == hundredths as real / 100.0
       <==> hundredths as real - 0.5 <= x * 100.0 < hundredths as real + 0.5
  {
    var f := (x * 100.0 + 0.5).Floor;
    assert f as real <= x * 100.0 + 0.5 < f as real + 1.0;
    assert RoundMetric(x) == f as real / 100.0;
    assert RoundMetric(x) == hundredths as real / 100.0 <==> f == hundredths;
  }

  /** The visitors of the rows that were seen this often. */
  function SeenBetween(rows: seq<Row>, low: nat, high: nat): set<string> {
    set v | v in KeysOf(rows) && low <= |TimesOf(rows, v)| <= high
  }

  lemma CountsAreSeen(groups: map<string, Aggregate>, rows: seq<Row>, low: nat, high: nat)
    requires Groups(groups, rows)
    ensures CountBetween(groups, groups.Keys, low, high) == SeenBetween(rows, low, high)
  {
  }

  lemma {:induction false} EveryKeyIsSeen(rows: seq<Row>, v: string)
    requires v in KeysOf(rows)
    ensures |TimesOf(rows, v)| > 0
  {
    var row :| row in rows && Key(row) == v;
    TimesOfMember(rows, row);
    assert row.at in TimesOf(rows, v);
  }

  lemma {:induction false} TimesOfMember(rows: seq<Row>, row: Row)
    requires row in rows
    ensures row.at in TimesOf(rows, Key(row))
  {
    if rows[|rows| - 1] != row {
      TimesOfMember(rows[..|rows| - 1], row);
    }
  }

  lemma SeenFromZero(rows: seq<Row>, high: nat)
    ensures SeenBetween(rows, 0, high) == SeenBetween(rows, 1, high)
  {
    forall v | v in KeysOf(rows) ensures |TimesOf(rows, v)| > 0 {
      EveryKeyIsSeen(rows, v);
    }
  }

  lemma AboveAreTheOthers(groups: map<string, Aggregate>, rows: seq<Row>, low: nat)
    requires Groups(groups, rows)
    ensures CountAbove(groups, groups.Keys, low) == KeysOf(rows) - SeenBetween(rows, 0, low)
  {
    CountsAreSeen(groups, rows, 0, low);
    assert CountAbove(groups, groups.Keys, low) == groups.Keys - CountBetween(groups, groups.Keys, 0, low);
  }

  /** The depth buckets count the visitors seen once, two or three times, four to seven
      times, and more often; the returning ones are those seen more than once. */
  lemma DepthMeaning(e: Engagement, rows: seq<Row>)
    requires Reports(e, rows)
    ensures e.depth.single == |SeenBetween(rows, 1, 1)|
    ensures e.depth.twoToThree == |SeenBetween(rows, 2, 3)|
    ensures e.depth.fourToSeven == |SeenBetween(rows, 4, 7)|
    ensures e.depth.eightOrMore == |KeysOf(rows) - SeenBetween(rows, 1, 7)|
    ensures e.returning == |KeysOf(rows) - SeenBetween(rows, 1, 1)|
  {
    var groups :| Groups(groups, rows) && e == EngagementOf(groups, rows);
    DepthOfGroups(groups, rows);
    AboveAreTheOthers(groups, rows, 1);
    SeenFromZero(rows, 1);
  }

  lemma DepthOfGroups(groups: map<string, Aggregate>, rows: seq<Row>)
    requires Groups(groups, rows)
    ensures DepthOf(groups, groups.Keys)
         == DepthDistribution(|SeenBetween(rows, 1, 1)|, |SeenBetween(rows, 2, 3)|, |SeenBetween(rows, 4, 7)|,
                              |KeysOf(rows) - SeenBetween(rows, 1, 7)|)
  {
    CountsAreSeen(groups, rows, 0, 1);
    CountsAreSeen(groups, rows, 2, 3);
    CountsAreSeen(groups, rows, 4, 7);
    AboveAreTheOthers(groups, rows, 7);
    SeenFromZero(rows, 1);
    SeenFromZero(rows, 7);
  }

  /** The earliest and the latest of the times. */
  ghost predicate AreEnds(first: Time, last: Time, times: multiset<Time>) {
    first in times && last in times && forall t :: t in times ==> first <= t <= last
  }

  /** Between the earliest and the latest of the times lie at least so many seconds. */
  ghost predicate SpansAtLeast(times: multiset<Time>, seconds: nat) {
    exists first: Time, last: Time :: AreEnds(first, last, times) && last - first >= seconds * 1_000_000_000
  }

  lemma SpanOfSummary(a: Aggregate, times: multiset<Time>, seconds: nat)
    requires Summarizes(a, times) && 0 !in times
    ensures SpansAtLeast(times, seconds) <==> ObservedSeconds(a) >= seconds
  {
    assert AreEnds(a.first, a.last, times);
    ObservedMeaning(a, times, ObservedSeconds(a));
    if SpansAtLeast(times, seconds) {
      var first: Time, last: Time :| AreEnds(first, last, times) && last - first >= seconds * 1_000_000_000;
      assert first == a.first && last == a.last;
    }
  }

  /** The visitors of the rows whose visits span so many seconds, but not so many more. */
  ghost function SpanBetween(rows: seq<Row>, low: nat, high: nat): set<string> {
    set v | v in KeysOf(rows) && SpansAtLeast(TimesOf(rows, v), low) && !SpansAtLeast(TimesOf(rows, v), high)
  }

  lemma {:induction false} NoZeroTimes(rows: seq<Row>, v: string)
    requires forall row :: row in rows ==> row.at > 0
    ensures 0 !in TimesOf(rows, v)
  {
    if rows != [] {
      NoZeroTimes(rows[..|rows| - 1], v);
    }
  }

  lemma SecondsAreSpans(groups: map<string, Aggregate>, rows: seq<Row>, low: nat, high: nat)
    requires Groups(groups, rows) && forall row :: row in rows ==> row.at > 0
    ensures SecondsBetween(groups, groups.Keys, low, high) == SpanBetween(rows, low, high)
  {
    forall v | v in groups
      ensures low <= ObservedSeconds(groups[v]) < high
         <==> SpansAtLeast(TimesOf(rows, v), low) && !SpansAtLeast(TimesOf(rows, v), high) {
      NoZeroTimes(rows, v);
      SpanOfSummary(groups[v], TimesOf(rows, v), low);
      SpanOfSummary(groups[v], TimesOf(rows, v), high);
    }
  }

  /** The time buckets count the visitors whose visits span less than thirty seconds,
      less than two minutes, less than ten minutes, and the others. */
  lemma TimeMeaning(e: Engagement, rows: seq<Row>)
    requires Reports(e, rows) && forall row :: row in rows ==> row.at > 0
    ensures e.time.underThirty == |SpanBetween(rows, 0, 30)|
    ensures e.time.underTwoMinutes == |SpanBetween(rows, 30, 120)|
    ensures e.time.underTenMinutes == |SpanBetween(rows, 120, 600)|
  {
    var groups :| Groups(groups, rows) && e == EngagementOf(groups, rows);
    SecondsAreSpans(groups, rows, 0, 30);
    SecondsAreSpans(groups, rows, 30, 120);
    SecondsAreSpans(groups, rows, 120, 600);
  }
}
