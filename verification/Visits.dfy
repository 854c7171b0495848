/** Recorded visits, and the queries that the rollup job and the statistics run
    over them (internal/model/visit.go). */
module Visits {
  import opened Basics
  import opened Text

  /** The zero time is a UTC midnight. */
  const DAY: nat := 86_400_000_000_000

  function DayOf(t: Time): nat {
    t / DAY
  }

  datatype Visit = Visit(site: string, visitor: string, url: string, referrer: string, isBot: bool, at: Time)

  const VISITOR_ID_LENGTH := 36

  /** NewSiteVisit: `urlParses` is the URL library's verdict. */
  function NewVisit(site: string, visitor: string, url: string, referrer: string, isBot: bool, urlParses: bool, at: Time)
    : Option<Visit>
  {
    if TrimSpace(site) == "" || TrimSpace(url) == "" || !urlParses
       || |TrimSpace(visitor)| !in {0, VISITOR_ID_LENGTH}
    then None
    else Some(Visit(TrimSpace(site), TrimSpace(visitor), TrimSpace(url), TrimSpace(referrer), isBot, at))
  }

  predicate Counts(v: Visit, site: string, day: int) {
    v.site == site && !v.isBot && DayOf(v.at) == day
  }

  /** The non-bot visits of a site on a UTC day, in order of recording. */
  function OfDay(visits: seq<Visit>, site: string, day: int): seq<Visit> {
    if visits == [] then []
    else
      var last := visits[|visits| - 1];
      OfDay(visits[..|visits| - 1], site, day) + if Counts(last, site, day) then [last] else []
  }

  function Visitors(visits: seq<Visit>): set<string> {
    set v | v in visits :: v.visitor
  }

  /** The visits at or after midnight of `day`. */
  function KeepFrom(visits: seq<Visit>, day: nat): seq<Visit> {
    if visits == [] then []
    else
      var last := visits[|visits| - 1];
      KeepFrom(visits[..|visits| - 1], day) + if last.at >= day * DAY then [last] else []
  }

  lemma OfDaySnoc(visits: seq<Visit>, v: Visit, site: string, day: int)
    ensures OfDay(visits + [v], site, day) == OfDay(visits, site, day) + if Counts(v, site, day) then [v] else []
  {
    assert (visits + [v])[..|visits|] == visits;
  }

  /** Pruning does not touch the days it keeps. */
  lemma {:induction false} KeepFromKeepsDay(visits: seq<Visit>, from: nat, site: string, day: int)
    requires day >= from
    ensures OfDay(KeepFrom(visits, from), site, day) == OfDay(visits, site, day)
  {
    if visits != [] {
      var init, last := visits[..|visits| - 1], visits[|visits| - 1];
      KeepFromKeepsDay(init, from, site, day);
      if last.at >= from * DAY {
        OfDaySnoc(KeepFrom(init, from), last, site, day);
      } else {
        assert DayOf(last.at) < from;
        assert KeepFrom(init, from) + [] == KeepFrom(init, from);
      }
    }
  }

  lemma {:induction false} OfDayMembers(visits: seq<Visit>, site: string, day: int)
    ensures forall v :: v in OfDay(visits, site, day) <==> v in visits && Counts(v, site, day)
  {
    if visits != [] {
      OfDayMembers(visits[..|visits| - 1], site, day);
    }
  }

  /** The visits that a query keeps, in their order. */
  function Where(visits: seq<Visit>, keep: Visit -> bool): seq<Visit> {
    if visits == [] then []
    else Where(visits[..|visits| - 1], keep) + if keep(visits[|visits| - 1]) then [visits[|visits| - 1]] else []
  }

  /** Each visit as often as it was recorded, if kept at all, and none out of order. */
  lemma {:induction false} WhereMeaning(visits: seq<Visit>, keep: Visit -> bool, v: Visit)
    ensures multiset(Where(visits, keep))[v] == if keep(v) then multiset(visits)[v] else 0
    ensures Subsequence(Where(visits, keep), visits)
  {
    if visits != [] {
      var init, last := visits[..|visits| - 1], visits[|visits| - 1];
      assert visits == init + [last];
      WhereMeaning(init, keep, v);
      if keep(last) {
        SubsequenceKeep(Where(init, keep), init, last);
      } else {
        assert Where(init, keep) + [] == Where(init, keep);
        SubsequenceSkip(Where(init, keep), init, last);
      }
    }
  }
}
