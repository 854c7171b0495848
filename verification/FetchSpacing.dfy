/** How far apart the favicon fetches of a site are, in terms of the fetches made
    and not of the time columns of its row. */
module FetchSpacing {
  import opened Basics
  import opened Text
  import opened Favicons
  import opened SiteRegistry
  import opened IconProvenance

  // -------------------------------------------- the time columns tell history

  function LatestAttempt(log: seq<Attempt>): Time {
    if log == [] then 0 else log[|log| - 1].at
  }

  function LatestFound(log: seq<Attempt>): Time {
    if log == [] then 0
    else if log[|log| - 1].found then log[|log| - 1].at
    else LatestFound(log[..|log| - 1])
  }

  predicate Ordered(log: seq<Attempt>) {
    && (forall i :: 0 <= i < |log| ==> 0 < log[i].at)
    && (forall i, j :: 0 <= i <= j < |log| ==> log[i].at <= log[j].at)
  }

  predicate Before(log: seq<Attempt>, at: Time) {
    forall i :: 0 <= i < |log| ==> log[i].at <= at
  }

  predicate Tells(icon: Icon, log: seq<Attempt>) {
    && icon.lastAttemptAt == LatestAttempt(log)
    && icon.fetchedAt == LatestFound(log)
    && (icon.data != [] ==> icon.fetchedAt != 0)
    && Ordered(log)
  }

  predicate ClockIsAhead(s: State) {
    && s.now > 0
    && (s.pending.Some? ==> 0 < s.pending.value.at <= s.now)
    && (forall id :: id in s.log ==> Before(s.log[id], s.now))
    && (s.pending.Some? && s.pending.value.id in s.log ==> Before(s.log[s.pending.value.id], s.pending.value.at))
  }

  predicate RowsTell(s: State) {
    && ClockIsAhead(s)
    && forall id :: id in s.sites ==> id in s.log && Tells(s.sites[id].icon, s.log[id])
  }

  lemma AppendedIsOrdered(log: seq<Attempt>, a: Attempt)
    requires Ordered(log) && Before(log, a.at) && a.at > 0
    ensures Ordered(log + [a])
    ensures LatestAttempt(log + [a]) == a.at
    ensures LatestFound(log + [a]) == if a.found then a.at else LatestFound(log)
  {
    assert (log + [a])[..|log|] == log;
  }

  lemma AppendedTells(icon: Icon, log: seq<Attempt>, f: Fetch, outcome: Outcome)
    requires Tells(icon, log) && Before(log, f.at) && f.at > 0 && TrimSpace(f.origin) != ""
    ensures Tells(Written(icon, FetchResult(f, outcome).updates), log + [Attempt(f.at, f.forced, Found(outcome))])
  {
    AppendedIsOrdered(log, Attempt(f.at, f.forced, Found(outcome)));
  }

  lemma FinishKeepsTelling(s: State, outcome: Outcome)
    requires RowsTell(s) && WellFormed(s) && s.pending.Some?
    ensures RowsTell(AfterFinish(s, outcome))
  {
    var f := s.pending.value;
    if f.id in s.sites {
      TrimmedIsFixed(f.origin);
      AppendedTells(s.sites[f.id].icon, s.log[f.id], f, outcome);
      var next := AfterFinish(s, outcome);
      assert next.log[f.id] == s.log[f.id] + [Attempt(f.at, f.forced, Found(outcome))];
      assert forall id :: id in next.log && id != f.id ==> next.log[id] == s.log[id];
    }
  }

  lemma UpdateKeepsTelling(s: State, id: nat, r: UpdateRequest, canManage: bool)
    requires RowsTell(s)
    ensures RowsTell(AfterUpdate(s, id, r, canManage))
  {
  }

  lemma CreateKeepsTelling(s: State, r: CreateRequest)
    requires RowsTell(s)
    ensures RowsTell(AfterCreate(s, r))
  {
  }

  lemma BeginKeepsTelling(config: Config, s: State, step: Step)
    requires RowsTell(s) && step.Begin? && Enabled(s, step)
    ensures RowsTell(Next(config, s, step))
  {
  }

  lemma StepKeepsTelling(config: Config, s: State, step: Step)
    requires RowsTell(s) && WellFormed(s) && Enabled(s, step)
    ensures RowsTell(Next(config, s, step))
  {
    match step
    case Create(r) => CreateKeepsTelling(s, r);
    case Update(id, r, canManage) => UpdateKeepsTelling(s, id, r, canManage);
    case Begin(_, _, _, _) => BeginKeepsTelling(config, s, step);
    case Finish(outcome) => FinishKeepsTelling(s, outcome);
    case _ =>
  }

  lemma {:induction false} RowsAlwaysTell(config: Config, states: seq<State>, steps: seq<Step>, n: nat)
    requires Run(config, states, steps) && n < |states|
    ensures RowsTell(states[n])
  {
    if n > 0 {
      RowsAlwaysTell(config, states, steps, n - 1);
      RunIsWellFormed(config, states, steps, n - 1);
      StepKeepsTelling(config, states[n - 1], steps[n - 1]);
    }
  }

  // ------------------------------------------------------------ when it is due

  predicate SomeFound(log: seq<Attempt>) {
    exists i :: 0 <= i < |log| && log[i].found
  }

  /** Every fetch that was made is at least this long ago. */
  predicate AttemptsAreOld(log: seq<Attempt>, now: Time, interval: nat) {
    forall i :: 0 <= i < |log| ==> now - log[i].at >= interval
  }

  /** Every fetch that found an icon is at least this long ago. */
  predicate FindsAreOld(log: seq<Attempt>, now: Time, interval: nat) {
    forall i :: 0 <= i < |log| && log[i].found ==> now - log[i].at >= interval
  }

  lemma AttemptsAreOldIff(log: seq<Attempt>, now: Time, interval: nat)
    requires Ordered(log)
    ensures AttemptsAreOld(log, now, interval)
       <==> LatestAttempt(log) == 0 || now - LatestAttempt(log) >= interval
  {
  }

  lemma SomeFoundSnoc(log: seq<Attempt>, a: Attempt)
    ensures SomeFound(log + [a]) <==> SomeFound(log) || a.found
  {
    if SomeFound(log) {
      var i :| 0 <= i < |log| && log[i].found;
      assert (log + [a])[i].found;
    }
    if a.found {
      assert (log + [a])[|log|].found;
    }
  }

  lemma {:induction false} FindsAreOldIff(log: seq<Attempt>, now: Time, interval: nat)
    requires Ordered(log)
    ensures FindsAreOld(log, now, interval) <==> LatestFound(log) == 0 || now - LatestFound(log) >= interval
  {
    if log != [] {
      var init, last := log[..|log| - 1], log[|log| - 1];
      assert log == init + [last];
      FindsAreOldIff(init, now, interval);
      LatestIsLast(init, last);
    }
  }

  lemma {:induction false} LatestIsLast(log: seq<Attempt>, last: Attempt)
    requires Ordered(log + [last])
    ensures LatestFound(log) <= last.at
    ensures forall i :: 0 <= i < |log| ==> log[i].at <= last.at
  {
    assert forall i :: 0 <= i < |log| ==> log[i] == (log + [last])[i] && log[i].at <= (log + [last])[|log|].at;
    if log != [] {
      var init := log[..|log| - 1];
      assert forall i :: 0 <= i < |init| ==> (init + [last])[i] == log[i];
      LatestIsLast(init, last);
    }
  }

  /** In every run, the worker starts an unforced fetch of a site exactly when the
      icon columns are for another origin than the current one, or the site has no
      icon and all fetches since the columns were cleared are at least the retry
      interval ago, or it has one and all fetches that found an icon are at least
      the refresh interval ago. */
  lemma UnforcedFetchExactlyWhenDue(config: Config, states: seq<State>, steps: seq<Step>, n: nat, id: nat)
    requires Run(config, states, steps) && n < |states|
    requires id in states[n].sites && id in states[n].log
    requires PrimaryOrigin(states[n].sites[id].allowedOrigin) != ""
    ensures Starts(config, states[n], id, false)
       <==> || !FilledFor(states[n].sites[id].icon, PrimaryOrigin(states[n].sites[id].allowedOrigin))
            || (if states[n].sites[id].icon.data == []
                then AttemptsAreOld(states[n].log[id], states[n].now, config.retryInterval)
                else FindsAreOld(states[n].log[id], states[n].now, config.refreshInterval))
  {
    RowsAlwaysTell(config, states, steps, n);
    AttemptsAreOldIff(states[n].log[id], states[n].now, config.retryInterval);
    FindsAreOldIff(states[n].log[id], states[n].now, config.refreshInterval);
  }

  // ------------------------------------------------- runs without overlap

  /** The columns are for the current origin, and hold an icon when one was found. */
  predicate ColumnsAreCurrent(s: State, id: nat)
    requires id in s.sites
  {
    && id in s.log
    && EqualFold(TrimSpace(s.sites[id].icon.origin), PrimaryOrigin(s.sites[id].allowedOrigin))
    && (s.sites[id].icon.data != [] <==> SomeFound(s.log[id]))
  }

  predicate AllColumnsAreCurrent(s: State) {
    forall id :: id in s.sites ==> ColumnsAreCurrent(s, id)
  }

  lemma CreateKeepsColumnsCurrent(s: State, r: CreateRequest)
    requires AllColumnsAreCurrent(s)
    ensures AllColumnsAreCurrent(AfterCreate(s, r))
  {
    var next := AfterCreate(s, r);
    forall id | id in next.sites ensures ColumnsAreCurrent(next, id) {
      if id in s.sites { assert ColumnsAreCurrent(s, id); }
    }
  }

  lemma UpdateKeepsColumnsCurrent(s: State, id: nat, r: UpdateRequest, canManage: bool)
    requires AllColumnsAreCurrent(s)
    ensures AllColumnsAreCurrent(AfterUpdate(s, id, r, canManage))
  {
    if UpdateResponse(s.sites, id, r, canManage) == Done {
      var next := AfterUpdate(s, id, r, canManage);
      var site := s.sites[id];
      if !ChangesOrigin(site, r) && r.allowedOrigin.Some? {
        SamePrimary(site.allowedOrigin, r.allowedOrigin.value);
      }
      TrimIsIdempotent(Origins.Primary(NewOrigin(site, r)));
      assert ColumnsAreCurrent(s, id);
      forall other | other in next.sites ensures ColumnsAreCurrent(next, other) {
        if other != id { assert ColumnsAreCurrent(s, other); }
      }
    }
  }

  lemma FinishKeepsColumnsCurrent(s: State, outcome: Outcome)
    requires AllColumnsAreCurrent(s) && FetchIsCurrent(s) && WellFormed(s) && s.pending.Some?
    ensures AllColumnsAreCurrent(AfterFinish(s, outcome))
  {
    var f := s.pending.value;
    var next := AfterFinish(s, outcome);
    if f.id in s.sites {
      TrimmedIsFixed(f.origin);
      assert ColumnsAreCurrent(s, f.id);
      SomeFoundSnoc(s.log[f.id], Attempt(f.at, f.forced, Found(outcome)));
      assert ColumnsAreCurrent(next, f.id);
    }
    forall id | id in next.sites && id != f.id ensures ColumnsAreCurrent(next, id) {
      assert ColumnsAreCurrent(s, id);
    }
  }

  lemma StepKeepsColumnsCurrent(config: Config, s: State, step: Step)
    requires AllColumnsAreCurrent(s) && FetchIsCurrent(s) && WellFormed(s) && Enabled(s, step)
    ensures AllColumnsAreCurrent(Next(config, s, step))
  {
    match step
    case Create(r) => CreateKeepsColumnsCurrent(s, r);
    case Update(id, r, canManage) => UpdateKeepsColumnsCurrent(s, id, r, canManage);
    case Finish(outcome) => FinishKeepsColumnsCurrent(s, outcome);
    case _ =>
      var next := Next(config, s, step);
      forall id | id in next.sites ensures ColumnsAreCurrent(next, id) {
        assert ColumnsAreCurrent(s, id);
      }
  }

  lemma {:induction false} ColumnsStayCurrent(config: Config, states: seq<State>, steps: seq<Step>, n: nat)
    requires Run(config, states, steps) && Quiet(states, steps) && n < |states|
    ensures AllColumnsAreCurrent(states[n])
  {
    if n > 0 {
      ColumnsStayCurrent(config, states, steps, n - 1);
      FetchesStayCurrent(config, states, steps, n - 1);
      RunIsWellFormed(config, states, steps, n - 1);
      StepKeepsColumnsCurrent(config, states[n - 1], steps[n - 1]);
    }
  }

  /** If no site changes its origin while it is being fetched, history alone decides:
      an unforced fetch starts exactly when, since the origin was last changed, no
      fetch found an icon and all are at least the retry interval ago, or some did
      and all that did are at least the refresh interval ago. */
  lemma HistoryDecides(config: Config, states: seq<State>, steps: seq<Step>, n: nat, id: nat)
    requires Run(config, states, steps) && Quiet(states, steps) && n < |states|
    requires id in states[n].sites && id in states[n].log
    requires PrimaryOrigin(states[n].sites[id].allowedOrigin) != ""
    ensures Starts(config, states[n], id, false)
       <==> if SomeFound(states[n].log[id])
            then FindsAreOld(states[n].log[id], states[n].now, config.refreshInterval)
            else AttemptsAreOld(states[n].log[id], states[n].now, config.retryInterval)
  {
    ColumnsStayCurrent(config, states, steps, n);
    assert ColumnsAreCurrent(states[n], id);
    UnforcedFetchExactlyWhenDue(config, states, steps, n, id);
    var primary := PrimaryOrigin(states[n].sites[id].allowedOrigin);
    assert |ToLower(primary)| == |primary|;
  }

  // ----------------------------------------------------------------- events

  predicate EventsInOrder(s: State) {
    && (forall i, j :: 0 <= i <= j < |s.events| ==> s.events[i].at <= s.events[j].at)
    && (forall i :: 0 <= i < |s.events| ==> s.events[i].at <= s.now)
    && (s.pending.Some? ==> forall i :: 0 <= i < |s.events| ==> s.events[i].at <= s.pending.value.at)
    && (s.pending.Some? ==> s.pending.value.at <= s.now)
  }

  lemma StepKeepsEventsInOrder(config: Config, s: State, step: Step)
    requires EventsInOrder(s) && WellFormed(s) && Enabled(s, step)
    ensures EventsInOrder(Next(config, s, step))
  {
    match step
    case Begin(id, force, notify, d) =>
    case Finish(outcome) => FinishKeepsEventsInOrder(s, outcome);
    case _ =>
  }

  lemma FinishKeepsEventsInOrder(s: State, outcome: Outcome)
    requires EventsInOrder(s) && s.pending.Some?
    ensures EventsInOrder(AfterFinish(s, outcome))
  {
    var f := s.pending.value;
    var next := AfterFinish(s, outcome);
    assert next.events == s.events || next.events == s.events + [Event(f.id, f.at)];
  }

  lemma {:induction false} EventsStayInOrder(config: Config, states: seq<State>, steps: seq<Step>, n: nat)
    requires Run(config, states, steps) && n < |states|
    ensures EventsInOrder(states[n])
  {
    if n > 0 {
      EventsStayInOrder(config, states, steps, n - 1);
      RunIsWellFormed(config, states, steps, n - 1);
      StepKeepsEventsInOrder(config, states[n - 1], steps[n - 1]);
    }
  }

  /** A completed fetch emits one event when it stores an icon, or finds the stored
      one and was asked to notify, and none otherwise; the event carries the fetch
      time that the row, if it still exists, has from then on, and is not earlier
      than any before. No other step emits. */
  lemma EventsCarryTheFetchTime(config: Config, states: seq<State>, steps: seq<Step>, n: nat)
    requires Run(config, states, steps) && n < |steps|
    ensures !steps[n].Finish? ==> states[n + 1].events == states[n].events
    ensures steps[n].Finish? ==> states[n].pending.Some? && EventOf(states[n], states[n + 1], steps[n].outcome)
  {
    RunIsWellFormed(config, states, steps, n);
    EventsStayInOrder(config, states, steps, n);
    if steps[n].Finish? {
      TrimmedIsFixed(states[n].pending.value.origin);
    }
  }

  predicate EventOf(before: State, after: State, outcome: Outcome)
    requires before.pending.Some?
  {
    var f := before.pending.value;
    if Found(outcome) && (Stores(f.snapshot, outcome) || f.notify) then
      && |after.events| == |before.events| + 1
      && after.events[..|before.events|] == before.events
      && var e := after.events[|before.events|];
         && e.id == f.id
         && (f.id in after.sites ==> after.sites[f.id].icon.fetchedAt == e.at)
         && forall i :: 0 <= i < |before.events| ==> before.events[i].at <= e.at
    else after.events == before.events
  }
}
