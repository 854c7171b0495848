/** The ranking of internal/api/site_stats.go: the first entries of a table of
    counts, by count descending and then by value ascending. */
module TopCounts {
  import opened Basics

  datatype Stat = Stat(value: string, count: nat)

  /** The order of Go strings, on ASCII text. */
  predicate Less(a: string, b: string) {
    b != [] && (a == [] || a[0] < b[0] || (a[0] == b[0] && Less(a[1..], b[1..])))
  }

  /** The comparison passed to the sort. */
  predicate Ranks(a: Stat, b: Stat) {
    if a.count == b.count then Less(a.value, b.value) else a.count > b.count
  }

  // ---------------------------------------------------------- strict order

  lemma {:induction false} LessIsTotal(a: string, b: string)
    ensures a == b || Less(a, b) || Less(b, a)
  {
    if a != [] && b != [] && a[0] == b[0] {
      LessIsTotal(a[1..], b[1..]);
      assert a == [a[0]] + a[1..] && b == [b[0]] + b[1..];
    }
  }

  lemma {:induction false} LessIsTransitive(a: string, b: string, c: string)
    requires Less(a, b) && Less(b, c)
    ensures Less(a, c)
  {
    if a != [] && a[0] == b[0] == c[0] {
      LessIsTransitive(a[1..], b[1..], c[1..]);
    }
  }

  lemma {:induction false} LessIsIrreflexive(a: string)
    ensures !Less(a, a)
  {
    if a != [] {
      LessIsIrreflexive(a[1..]);
    }
  }

  lemma RanksIsTotal(a: Stat, b: Stat)
    ensures a == b || Ranks(a, b) || Ranks(b, a)
  {
    LessIsTotal(a.value, b.value);
  }

  lemma RanksIsStrict(a: Stat, b: Stat)
    ensures !(Ranks(a, b) && Ranks(b, a))
  {
    if a.count == b.count && Less(a.value, b.value) && Less(b.value, a.value) {
      LessIsTransitive(a.value, b.value, a.value);
      LessIsIrreflexive(a.value);
    }
  }

  lemma RanksIsTransitive(a: Stat, b: Stat, c: Stat)
    requires Ranks(a, b) && Ranks(b, c)
    ensures Ranks(a, c)
  {
    if a.count == b.count == c.count {
      LessIsTransitive(a.value, b.value, c.value);
    }
  }

  /** At position k the texts first differ: `a` ends there, or has the smaller character. */
  predicate FirstDiffersAt(a: string, b: string, k: nat) {
    && k <= |a| && k < |b| && a[..k] == b[..k]
    && (k == |a| || a[k] < b[k])
  }

  /** The order of texts is that of their first difference. */
  lemma {:induction false} LessMeaning(a: string, b: string)
    ensures Less(a, b) <==> exists k: nat :: FirstDiffersAt(a, b, k)
  {
    if a == [] {
      assert b != [] ==> FirstDiffersAt(a, b, 0);
    } else if b != [] {
      if a[0] == b[0] {
        LessMeaning(a[1..], b[1..]);
        LaterDifference(a, b);
      } else {
        assert a[0] < b[0] ==> FirstDiffersAt(a, b, 0);
        assert forall k: nat :: FirstDiffersAt(a, b, k) && k > 0 ==> a[..k][0] == b[..k][0];
      }
    }
  }

  lemma LaterDifference(a: string, b: string)
    requires a != [] && b != [] && a[0] == b[0]
    ensures (exists k: nat :: FirstDiffersAt(a, b, k)) <==> (exists k: nat :: FirstDiffersAt(a[1..], b[1..], k))
  {
    if k: nat :| FirstDiffersAt(a, b, k) {
      assert k > 0;
      assert a[1..][..k - 1] == a[..k][1..] && b[1..][..k - 1] == b[..k][1..];
      assert FirstDiffersAt(a[1..], b[1..], k - 1);
    }
    if k: nat :| FirstDiffersAt(a[1..], b[1..], k) {
      assert a[..k + 1] == [a[0]] + a[1..][..k] && b[..k + 1] == [b[0]] + b[1..][..k];
      assert FirstDiffersAt(a, b, k + 1);
    }
  }

  // ------------------------------------------------------- the specification

  predicate Ranked(stats: seq<Stat>) {
    forall i, j :: 0 <= i < j < |stats| ==> Ranks(stats[i], stats[j])
  }

  /** The entry of a value. */
  function Entry(counts: map<string, nat>, value: string): Stat
    requires value in counts
  {
    Stat(value, counts[value])
  }

  /** The entry is left out of the list, which ranks before it throughout. */
  predicate RanksAfter(entry: Stat, top: seq<Stat>) {
    forall k :: 0 <= k < |top| ==> Ranks(top[k], entry)
  }

  /** `top` is a ranking of the best entries: its length is the limit or the number
      of values, its entries are entries of the table, and every other entry ranks
      after all of them. */
  predicate IsTop(top: seq<Stat>, counts: map<string, nat>, limit: nat) {
    && Ranked(top)
    && |top| == Min(limit, |counts|)
    && (forall k :: 0 <= k < |top| ==> top[k].value in counts && top[k] == Entry(counts, top[k].value))
    && (forall value :: value in counts ==> Entry(counts, value) in top || RanksAfter(Entry(counts, value), top))
  }

  /** More occurrences come first; equal ones are ordered by the first difference of
      their values; and nothing left out occurs more often than anything listed. */
  lemma TopIsByCount(top: seq<Stat>, counts: map<string, nat>, limit: nat)
    requires IsTop(top, counts, limit)
    ensures forall i, j :: 0 <= i < j < |top| ==> top[i].count >= top[j].count
    ensures forall i, j :: 0 <= i < j < |top| && top[i].count == top[j].count ==>
              exists k: nat :: FirstDiffersAt(top[i].value, top[j].value, k)
    ensures forall v, k :: v in counts && Entry(counts, v) !in top && 0 <= k < |top| ==> counts[v] <= top[k].count
  {
    forall i, j | 0 <= i < j < |top| && top[i].count == top[j].count
      ensures exists k: nat :: FirstDiffersAt(top[i].value, top[j].value, k) {
      assert Ranks(top[i], top[j]);
      LessMeaning(top[i].value, top[j].value);
    }
    forall v, k | v in counts && Entry(counts, v) !in top && 0 <= k < |top| ensures counts[v] <= top[k].count {
      assert RanksAfter(Entry(counts, v), top);
    }
  }

  /** There is only one such list, so neither the iteration order of the table nor
      the sorting algorithm shows in the output. */
  lemma TopIsUnique(a: seq<Stat>, b: seq<Stat>, counts: map<string, nat>, limit: nat)
    requires IsTop(a, counts, limit) && IsTop(b, counts, limit)
    ensures a == b
  {
    PrefixesAgree(a, b, counts, limit, |a|);
    assert a == a[..|a|] && b == b[..|b|];
  }

  lemma NextAgrees(a: seq<Stat>, b: seq<Stat>, counts: map<string, nat>, limit: nat, i: nat)
    requires IsTop(a, counts, limit) && IsTop(b, counts, limit)
    requires i < |a| && a[..i] == b[..i]
    ensures a[i] == b[i]
  {
    NoBetterNext(a, b, counts, limit, i);
    NoBetterNext(b, a, counts, limit, i);
    RanksIsTotal(a[i], b[i]);
  }

  lemma LongerPrefix(a: seq<Stat>, b: seq<Stat>, n: nat)
    requires 0 < n <= |a| && n <= |b| && a[..n - 1] == b[..n - 1] && a[n - 1] == b[n - 1]
    ensures a[..n] == b[..n]
  {
    assert a[..n] == a[..n - 1] + [a[n - 1]] && b[..n] == b[..n - 1] + [b[n - 1]];
  }

  lemma {:induction false} PrefixesAgree(a: seq<Stat>, b: seq<Stat>, counts: map<string, nat>, limit: nat, n: nat)
    requires IsTop(a, counts, limit) && IsTop(b, counts, limit) && n <= |a|
    ensures a[..n] == b[..n]
  {
    if n > 0 {
      PrefixesAgree(a, b, counts, limit, n - 1);
      NextAgrees(a, b, counts, limit, n - 1);
      LongerPrefix(a, b, n);
    }
  }

  /** If two such lists agree up to i, neither is better at i. */
  lemma NoBetterNext(a: seq<Stat>, b: seq<Stat>, counts: map<string, nat>, limit: nat, i: nat)
    requires IsTop(a, counts, limit) && IsTop(b, counts, limit)
    requires i < |a| && a[..i] == b[..i]
    ensures !Ranks(a[i], b[i])
  {
    RanksIsStrict(a[i], b[i]);
    RanksIsStrict(a[i], a[i]);
    forall j | 0 <= j < i ensures b[j] != a[i] {
      assert a[..i][j] == b[..i][j];
    }
    assert Entry(counts, a[i].value) in b || RanksAfter(a[i], b);
  }

  // --------------------------------------------------------------- the code

  /** Ranks the entries; stands for the library's sort. */
  method SortEntries(entries: seq<Stat>) returns (sorted: seq<Stat>)
    requires forall i, j :: 0 <= i < j < |entries| ==> entries[i] != entries[j]
    ensures Ranked(sorted) && |sorted| == |entries|
    ensures forall e :: e in sorted <==> e in entries
  {
    sorted := [];
    for k := 0 to |entries|
      invariant Ranked(sorted) && |sorted| == k
      invariant forall e :: e in sorted <==> e in entries[..k]
    {
      assert entries[..k + 1] == entries[..k] + [entries[k]];
      sorted := InsertEntry(sorted, entries[k]);
    }
    assert entries[..|entries|] == entries;
  }

  method InsertEntry(sorted: seq<Stat>, e: Stat) returns (next: seq<Stat>)
    requires Ranked(sorted) && e !in sorted
    ensures Ranked(next) && |next| == |sorted| + 1
    ensures forall x :: x in next <==> x in sorted || x == e
  {
    var k := 0;
    while k < |sorted| && Ranks(sorted[k], e)
      invariant k <= |sorted|
      invariant forall j :: 0 <= j < k ==> Ranks(sorted[j], e)
    {
      k := k + 1;
    }
    if k < |sorted| {
      RanksIsTotal(e, sorted[k]);
      forall j | k < j < |sorted| ensures Ranks(e, sorted[j]) {
        RanksIsTransitive(e, sorted[k], sorted[j]);
      }
    }
    next := Inserted(sorted, k, e);
    InsertedMembers(sorted, k, e);
    InsertedIsRanked(sorted, k, e);
  }

  function Inserted(s: seq<Stat>, k: nat, e: Stat): (r: seq<Stat>)
    requires k <= |s|
    ensures |r| == |s| + 1
  {
    s[..k] + [e] + s[k..]
  }

  lemma InsertedMembers(s: seq<Stat>, k: nat, e: Stat)
    requires k <= |s|
    ensures forall x :: x in Inserted(s, k, e) <==> x in s || x == e
  {
    assert s == s[..k] + s[k..];
  }

  lemma InsertedIsRanked(s: seq<Stat>, k: nat, e: Stat)
    requires k <= |s| && Ranked(s)
    requires forall j :: 0 <= j < k ==> Ranks(s[j], e)
    requires forall j :: k <= j < |s| ==> Ranks(e, s[j])
    ensures Ranked(Inserted(s, k, e))
  {
    var r := Inserted(s, k, e);
    forall i, j | 0 <= i < j < |r| ensures Ranks(r[i], r[j]) {
      assert r[i] == if i < k then s[i] else if i == k then e else s[i - 1];
      assert r[j] == if j < k then s[j] else if j == k then e else s[j - 1];
    }
  }

  method CollectEntries(counts: map<string, nat>) returns (entries: seq<Stat>)
    ensures |entries| == |counts|
    ensures forall i, j :: 0 <= i < j < |entries| ==> entries[i] != entries[j]
    ensures forall e :: e in entries <==> e.value in counts && e == Entry(counts, e.value)
  {
    entries := [];
    var todo := counts.Keys;
    while todo != {}
      invariant todo <= counts.Keys && |entries| + |todo| == |counts|
      invariant forall i, j :: 0 <= i < j < |entries| ==> entries[i] != entries[j]
      invariant forall e :: e in entries <==> e.value in counts && e.value !in todo && e == Entry(counts, e.value)
      decreases todo
    {
      var value :| value in todo;
      entries := entries + [Stat(value, counts[value])];
      todo := todo - {value};
    }
  }

  method TopStats(counts: map<string, nat>, limit: nat) returns (top: seq<Stat>)
    ensures IsTop(top, counts, limit)
  {
    if |counts| == 0 { return []; }
    var entries := CollectEntries(counts);
    var sorted := SortEntries(entries);
    top := if |sorted| > limit then sorted[..limit] else sorted;
    forall value | value in counts ensures Entry(counts, value) in top || RanksAfter(Entry(counts, value), top) {
      var e := Entry(counts, value);
      assert e in entries && e in sorted;
      var k :| 0 <= k < |sorted| && sorted[k] == e;
      assert k < |top| ==> top[k] == e;
    }
    forall k | 0 <= k < |top| ensures top[k].value in counts && top[k] == Entry(counts, top[k].value) {
      assert top[k] == sorted[k] && sorted[k] in entries;
    }
  }

  // ----------------------------------------------------------------- tallies

  /** One more occurrence of a value. */
  function Bump(counts: map<string, nat>, value: string): map<string, nat> {
    counts[value := if value in counts then counts[value] + 1 else 1]
  }

  /** The counts that the loop builds from a list of values. */
  function Tally(values: seq<string>): map<string, nat> {
    if values == [] then map[] else Bump(Tally(values[..|values| - 1]), values[|values| - 1])
  }

  /** The table counts the occurrences of each value, and has no other. */
  lemma {:induction false} TallyCounts(values: seq<string>, value: string)
    ensures value in Tally(values) <==> value in values
    ensures value in values ==> Tally(values)[value] == multiset(values)[value]
  {
    if values != [] {
      var init, last := values[..|values| - 1], values[|values| - 1];
      assert values == init + [last];
      TallyCounts(init, value);
      assert value !in init ==> multiset(init)[value] == 0;
    }
  }

  lemma TallyIgnoresOrder(values: seq<string>, others: seq<string>)
    requires multiset(values) == multiset(others)
    ensures Tally(values) == Tally(others)
  {
    forall value ensures value in Tally(values) <==> value in Tally(others)
                 ensures value in Tally(values) ==> Tally(values)[value] == Tally(others)[value] {
      TallyCounts(values, value);
      TallyCounts(others, value);
      assert value in values <==> value in multiset(values);
      assert value in others <==> value in multiset(others);
    }
  }

  function SumOf(stats: seq<Stat>): nat {
    if stats == [] then 0 else SumOf(stats[..|stats| - 1]) + stats[|stats| - 1].count
  }

  /** The positions of `values` that hold a value listed in `stats`. */
  function Listed(stats: seq<Stat>, values: seq<string>): nat {
    if values == [] then 0
    else Listed(stats, values[..|values| - 1]) + if Lists(stats, values[|values| - 1]) then 1 else 0
  }

  predicate Lists(stats: seq<Stat>, value: string) {
    exists k :: 0 <= k < |stats| && stats[k].value == value
  }

  lemma {:induction false} ListedOneMore(stats: seq<Stat>, s: Stat, values: seq<string>)
    requires !Lists(stats, s.value)
    ensures Listed(stats + [s], values) == Listed(stats, values) + multiset(values)[s.value]
  {
    if values != [] {
      var init, last := values[..|values| - 1], values[|values| - 1];
      assert values == init + [last];
      ListedOneMore(stats, s, init);
      ListsOneMore(stats, s, last);
    }
  }

  lemma ListsOneMore(stats: seq<Stat>, s: Stat, value: string)
    ensures Lists(stats + [s], value) <==> Lists(stats, value) || s.value == value
  {
    var all := stats + [s];
    if Lists(stats, value) {
      var k :| 0 <= k < |stats| && stats[k].value == value;
      assert all[k].value == value;
    }
    if s.value == value {
      assert all[|stats|].value == value;
    }
  }

  lemma {:induction false} ListedByNobody(values: seq<string>)
    ensures Listed([], values) == 0
  {
    if values != [] {
      ListedByNobody(values[..|values| - 1]);
    }
  }

  /** The counts of a list of entries of the tally add up to the positions they list. */
  lemma {:induction false} SumIsListed(stats: seq<Stat>, values: seq<string>)
    requires Ranked(stats)
    requires forall k :: 0 <= k < |stats| ==> stats[k].value in Tally(values) && stats[k] == Entry(Tally(values), stats[k].value)
    ensures SumOf(stats) == Listed(stats, values)
  {
    if stats == [] {
      ListedByNobody(values);
    } else {
      var init, last := stats[..|stats| - 1], stats[|stats| - 1];
      assert stats == init + [last];
      SumIsListed(init, values);
      TallyCounts(values, last.value);
      if Lists(init, last.value) {
        var k :| 0 <= k < |init| && init[k].value == last.value;
        assert stats[k] == last && Ranks(stats[k], last);
        RanksIsStrict(last, last);
      }
      ListedOneMore(init, last, values);
    }
  }

  lemma {:induction false} ListedBound(stats: seq<Stat>, values: seq<string>)
    ensures Listed(stats, values) <= |values|
    ensures Listed(stats, values) == |values| <==> forall k :: 0 <= k < |values| ==> Lists(stats, values[k])
  {
    if values != [] {
      var init, last := values[..|values| - 1], values[|values| - 1];
      ListedBound(stats, init);
      assert (forall k :: 0 <= k < |values| ==> Lists(stats, values[k]))
         <==> ((forall k :: 0 <= k < |init| ==> Lists(stats, init[k])) && Lists(stats, last)) by {
        assert values == init + [last];
      }
    }
  }

  /** The kept counts never exceed the number of rows, and they account for all of
      them exactly when nothing was cut off. */
  lemma TopAccounts(top: seq<Stat>, values: seq<string>, limit: nat)
    requires IsTop(top, Tally(values), limit)
    ensures SumOf(top) <= |values|
    ensures SumOf(top) == |values| <==> |Tally(values)| <= limit
  {
    SumIsListed(top, values);
    ListedBound(top, values);
    ListsWhatIsKept(top, values);
    KeepsAllWithin(top, Tally(values), limit);
  }

  function KeptValues(top: seq<Stat>): set<string> {
    set k | 0 <= k < |top| :: top[k].value
  }

  lemma ListsWhatIsKept(top: seq<Stat>, values: seq<string>)
    ensures (forall k :: 0 <= k < |values| ==> Lists(top, values[k])) <==> Tally(values).Keys <= KeptValues(top)
  {
    forall value ensures value in Tally(values) <==> value in values {
      TallyCounts(values, value);
    }
    forall value ensures value in KeptValues(top) <==> Lists(top, value) {
    }
  }

  lemma KeepsAllWithin(top: seq<Stat>, counts: map<string, nat>, limit: nat)
    requires IsTop(top, counts, limit)
    ensures counts.Keys <= KeptValues(top) <==> |counts| <= limit
  {
    forall i, j | 0 <= i < j < |top| ensures top[i].value != top[j].value {
      RanksIsStrict(top[i], top[i]);
    }
    KeptDistinct(top);
    assert KeptValues(top) <= counts.Keys;
    assert |counts| == |counts.Keys|;
    assert |counts.Keys - KeptValues(top)| == |counts| - |top|;
  }

  lemma {:induction false} KeptDistinct(top: seq<Stat>)
    requires forall i, j :: 0 <= i < j < |top| ==> top[i].value != top[j].value
    ensures |KeptValues(top)| == |top|
  {
    if top != [] {
      var init, last := top[..|top| - 1], top[|top| - 1];
      KeptDistinct(init);
      assert KeptValues(top) == KeptValues(init) + {last.value};
      assert last.value !in KeptValues(init);
    }
  }
}
