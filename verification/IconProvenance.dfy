/** Where the stored icons come from: the worker reads a row, fetches, and writes
    to the row later, while the dashboard may change its origin in between. */
module IconProvenance {
  import opened Basics
  import opened Text
  import opened Origins
  import opened Favicons
  import opened SiteRegistry

  /** The stored icon, if any, is what the resolver returned for the current primary
      origin of the site, up to case. */
  predicate IconIsCurrent(s: State, id: nat)
    requires id in s.sites
  {
    s.sites[id].icon.data != [] ==>
      && id in s.source
      && s.source[id].data == s.sites[id].icon.data && s.source[id].contentType == s.sites[id].icon.contentType
      && EqualFold(s.source[id].origin, PrimaryOrigin(s.sites[id].allowedOrigin))
  }

  ghost predicate IconsAreCurrent(s: State) {
    forall id :: id in s.sites ==> IconIsCurrent(s, id)
  }

  /** The step writes an icon to a row whose primary origin is no longer, up to
      case, the one it was fetched from. */
  predicate Stale(s: State, step: Step) {
    && step.Finish? && s.pending.Some?
    && s.pending.value.id in s.sites
    && Stores(s.pending.value.snapshot, step.outcome)
    && !EqualFold(s.pending.value.origin, PrimaryOrigin(s.sites[s.pending.value.id].allowedOrigin))
  }

  /** The step changes the origin of the site whose fetch is in progress. */
  ghost predicate Overlaps(s: State, step: Step) {
    && step.Update? && s.pending.Some? && s.pending.value.id == step.id
    && UpdateResponse(s.sites, step.id, step.update, step.canManage) == Done
    && ChangesOrigin(s.sites[step.id], step.update)
  }

  // ------------------------------------------------------------- invariants

  /** Site numbers are not reused, and a fetch in progress has an origin. */
  predicate WellFormed(s: State) {
    && (forall id :: id in s.sites ==> id < s.nextId)
    && (s.pending.Some? ==>
          s.pending.value.id < s.nextId && s.pending.value.origin != "" && Trimmed(s.pending.value.origin))
  }

  lemma StepKeepsWellFormed(config: Config, s: State, step: Step)
    requires WellFormed(s) && Enabled(s, step)
    ensures WellFormed(Next(config, s, step))
  {
    if step.Begin? && Starts(config, s, step.id, step.force) {
      TrimSpaceIsTrimmed(Primary(s.sites[step.id].allowedOrigin));
    }
  }

  lemma {:induction false} RunIsWellFormed(config: Config, states: seq<State>, steps: seq<Step>, n: nat)
    requires Run(config, states, steps) && n < |states|
    ensures WellFormed(states[n])
  {
    if n > 0 {
      RunIsWellFormed(config, states, steps, n - 1);
      StepKeepsWellFormed(config, states[n - 1], steps[n - 1]);
    }
  }

  lemma UpdateKeepsIconsCurrent(s: State, id: nat, r: UpdateRequest, canManage: bool)
    requires IconsAreCurrent(s)
    ensures IconsAreCurrent(AfterUpdate(s, id, r, canManage))
  {
    if UpdateResponse(s.sites, id, r, canManage) == Done {
      var site := s.sites[id];
      if !ChangesOrigin(site, r) && r.allowedOrigin.Some? {
        SamePrimary(site.allowedOrigin, r.allowedOrigin.value);
      }
      assert IconIsCurrent(s, id);
    }
  }

  lemma SamePrimary(a: string, raw: string)
    requires EqualFold(TrimSpace(a), TrimSpace(raw))
    ensures EqualFold(PrimaryOrigin(a), PrimaryOrigin(TrimSpace(raw)))
  {
    TrimIsIdempotent(raw);
    SameTextUpToCase(a, TrimSpace(raw));
    TrimLower(Primary(a));
    TrimLower(Primary(TrimSpace(raw)));
  }

  /** A completed fetch keeps every icon current exactly when it is not stale. */
  lemma FinishKeepsIconsCurrentIff(s: State, outcome: Outcome)
    requires IconsAreCurrent(s) && WellFormed(s) && s.pending.Some?
    ensures IconsAreCurrent(AfterFinish(s, outcome)) <==> !Stale(s, Finish(outcome))
  {
    var f := s.pending.value;
    var next := AfterFinish(s, outcome);
    if f.id in s.sites {
      assert IconIsCurrent(s, f.id);
      TrimmedIsFixed(f.origin);
      assert IconIsCurrent(next, f.id) <==> !Stale(s, Finish(outcome));
      forall id | id in next.sites && id != f.id ensures IconIsCurrent(next, id) {
        assert IconIsCurrent(s, id);
      }
    } else {
      forall id | id in next.sites ensures IconIsCurrent(next, id) {
        assert IconIsCurrent(s, id);
      }
    }
  }

  lemma StepKeepsIconsCurrentIff(config: Config, s: State, step: Step)
    requires IconsAreCurrent(s) && WellFormed(s) && Enabled(s, step)
    ensures IconsAreCurrent(Next(config, s, step)) <==> !Stale(s, step)
  {
    match step
    case Update(id, r, canManage) => UpdateKeepsIconsCurrent(s, id, r, canManage);
    case Finish(outcome) => FinishKeepsIconsCurrentIff(s, outcome);
    case _ =>
      var next := Next(config, s, step);
      forall id | id in next.sites ensures IconIsCurrent(next, id) {
        if id in s.sites { assert IconIsCurrent(s, id); }
      }
  }

  ghost predicate AlwaysCurrent(states: seq<State>, n: nat)
    requires n < |states|
  {
    forall i :: 0 <= i <= n ==> IconsAreCurrent(states[i])
  }

  predicate NeverStale(states: seq<State>, steps: seq<Step>, n: nat)
    requires n <= |steps| < |states|
  {
    forall i :: 0 <= i < n ==> !Stale(states[i], steps[i])
  }

  /** In a run every stored icon comes from the current primary origin of its site,
      up to case, exactly as long as no fetch writes a stale icon. */
  lemma {:induction false} IconsAreCurrentExactly(config: Config, states: seq<State>, steps: seq<Step>, n: nat)
    requires Run(config, states, steps) && n < |states|
    ensures AlwaysCurrent(states, n) <==> NeverStale(states, steps, n)
  {
    if n > 0 {
      IconsAreCurrentExactly(config, states, steps, n - 1);
      assert AlwaysCurrent(states, n) <==> AlwaysCurrent(states, n - 1) && IconsAreCurrent(states[n]);
      assert NeverStale(states, steps, n) <==> NeverStale(states, steps, n - 1) && !Stale(states[n - 1], steps[n - 1]);
      if IconsAreCurrent(states[n - 1]) {
        RunIsWellFormed(config, states, steps, n - 1);
        StepKeepsIconsCurrentIff(config, states[n - 1], steps[n - 1]);
      }
    }
  }

  // ------------------------------------------------- runs without overlap

  ghost predicate Quiet(states: seq<State>, steps: seq<Step>) {
    forall i :: 0 <= i < |steps| && i < |states| ==> !Overlaps(states[i], steps[i])
  }

  /** The fetch in progress is for the current primary origin and has read the
      stored icon. */
  predicate FetchIsCurrent(s: State) {
    s.pending.Some? && s.pending.value.id in s.sites ==>
      var f, site := s.pending.value, s.sites[s.pending.value.id];
      && EqualFold(f.origin, PrimaryOrigin(site.allowedOrigin))
      && f.snapshot.data == site.icon.data && f.snapshot.fetchedAt == site.icon.fetchedAt
  }

  lemma StepKeepsFetchCurrent(config: Config, s: State, step: Step)
    requires FetchIsCurrent(s) && WellFormed(s) && Enabled(s, step) && !Overlaps(s, step)
    ensures FetchIsCurrent(Next(config, s, step))
  {
    if step.Update? && s.pending.Some? && s.pending.value.id == step.id
       && UpdateResponse(s.sites, step.id, step.update, step.canManage) == Done
       && step.update.allowedOrigin.Some? {
      SamePrimary(s.sites[step.id].allowedOrigin, step.update.allowedOrigin.value);
    }
  }

  lemma {:induction false} FetchesStayCurrent(config: Config, states: seq<State>, steps: seq<Step>, n: nat)
    requires Run(config, states, steps) && Quiet(states, steps) && n < |states|
    ensures FetchIsCurrent(states[n])
  {
    if n > 0 {
      FetchesStayCurrent(config, states, steps, n - 1);
      RunIsWellFormed(config, states, steps, n - 1);
      StepKeepsFetchCurrent(config, states[n - 1], steps[n - 1]);
    }
  }

  /** If no site changes its origin while it is being fetched, every stored icon
      comes from the current primary origin, in every state of the run. */
  lemma QuietRunsKeepIconsCurrent(config: Config, states: seq<State>, steps: seq<Step>, n: nat)
    requires Run(config, states, steps) && Quiet(states, steps) && n < |states|
    ensures IconsAreCurrent(states[n])
  {
    forall i | 0 <= i < n ensures !Stale(states[i], steps[i]) {
      FetchesStayCurrent(config, states, steps, i);
    }
    IconsAreCurrentExactly(config, states, steps, n);
  }

  // -------------------------------------------------- what overlap can break

  ghost predicate Reachable(config: Config, s: State) {
    exists states, steps :: Run(config, states, steps) && states[|steps|] == s
  }

  lemma InitialIsReachable(config: Config, s: State)
    requires Initial(s)
    ensures Reachable(config, s)
  {
    assert Run(config, [s], []);
  }

  lemma StepReaches(config: Config, s: State, step: Step)
    requires Reachable(config, s) && Enabled(s, step)
    ensures Reachable(config, Next(config, s, step))
  {
    var states, steps :| Run(config, states, steps) && states[|steps|] == s;
    var states', steps' := states + [Next(config, s, step)], steps + [step];
    assert Run(config, states', steps') && states'[|steps'|] == Next(config, s, step);
  }

  lemma PrimaryOfWord(a: string)
    requires Words([a]) && SeparatorFree([a])
    ensures TrimSpace(a) == a && Parsed(a) == [a] && PrimaryOrigin(a) == a
  {
    assert a in [a];
    WordIsTrimmed(a);
    ReparseWords([a]);
    assert Join([a], " ") == a;
    CollectOne([], a);
    assert FoldSet([]) == {};
  }

  /** The site has moved to `b`, the icon columns are those of a fetch from `a`. */
  function AfterStaleWrite(a: string, b: string): State {
    State(map[0 := Site(b, Icon(a, [0], "", 1, 1))], 1, 1, None, [Event(0, 1)],
          map[0 := Source(a, [0], "")], map[0 := [Attempt(1, true, true)]])
  }

  /** A new site at `a` is being fetched. */
  function WhileFetching(a: string): State {
    State(map[0 := Site(a, Cleared(a))], 1, 1, Some(Fetch(0, a, Cleared(a), true, false, 1)), [], map[], map[0 := []])
  }

  lemma FetchIsReachable(config: Config, a: string)
    requires Words([a]) && SeparatorFree([a])
    ensures Reachable(config, WhileFetching(a))
  {
    PrimaryOfWord(a);
    assert a in [a];
    var s0 := State(map[], 0, 1, None, [], map[], map[]);
    InitialIsReachable(config, s0);
    CreateAlone(s0, a);
    StepReaches(config, s0, Create(CreateWord(a)));
    var s1 := Created(s0, a);
    StepReaches(config, s1, Begin(0, true, false, 0));
    assert AfterBegin(config, s1, 0, true, false, 0) == WhileFetching(a);
  }

  lemma FinishAfterMove(a: string, b: string)
    requires TrimSpace(a) == a != ""
    ensures AfterFinish(Moved(WhileFetching(a), a, b), Asset([0], "")) == AfterStaleWrite(a, b)
  {
    var next := AfterFinish(Moved(WhileFetching(a), a, b), Asset([0], ""));
    assert next.sites == map[0 := Site(b, Icon(a, [0], "", 1, 1))];
    assert next.log[0] == [] + [Attempt(1, true, true)] == [Attempt(1, true, true)];
    assert next.log == map[0 := [Attempt(1, true, true)]];
    assert next.source == map[0 := Source(a, [0], "")];
    assert next.events == [Event(0, 1)];
  }

  lemma StaleWriteIsReachable(config: Config, a: string, b: string)
    requires Words([a]) && SeparatorFree([a]) && Words([b]) && SeparatorFree([b]) && !EqualFold(a, b)
    ensures Reachable(config, AfterStaleWrite(a, b))
  {
    PrimaryOfWord(a);
    assert a in [a];
    var s2 := WhileFetching(a);
    FetchIsReachable(config, a);
    UpdateAlone(s2, a, b);
    StepReaches(config, s2, Update(0, MoveTo(b), true));
    FinishAfterMove(a, b);
    StepReaches(config, Moved(s2, a, b), Finish(Asset([0], "")));
  }

  /** With overlap, an icon fetched from `a` can end up on a site whose only origin
      is `b`, in a row that says its icon was fetched from `b`: the origin moves
      during a fetch that succeeds, and the next fetch fails. */
  lemma OverlapCanMislabelAnIcon(config: Config, a: string, b: string)
    requires Words([a]) && SeparatorFree([a]) && Words([b]) && SeparatorFree([b]) && !EqualFold(a, b)
    ensures exists s :: Reachable(config, s) && Mislabelled(s, a, b)
  {
    PrimaryOfWord(b);
    var s4 := AfterStaleWrite(a, b);
    StaleWriteIsReachable(config, a, b);
    StepReaches(config, s4, Begin(0, true, false, 0));
    var s5 := AfterBegin(config, s4, 0, true, false, 0);
    StepReaches(config, s5, Finish(Failed));
    assert Mislabelled(AfterFinish(s5, Failed), a, b);
  }

  predicate Mislabelled(s: State, a: string, b: string) {
    && 0 in s.sites && 0 in s.source
    && PrimaryOrigin(s.sites[0].allowedOrigin) == b
    && s.sites[0].icon.data != [] && s.sites[0].icon.origin == b
    && s.source[0].origin == a && !EqualFold(a, b)
  }

  function CreateWord(a: string): CreateRequest {
    CreateRequest("x", a, "x", "x", true)
  }

  function MoveTo(b: string): UpdateRequest {
    UpdateRequest(None, Some(b), None, false, true)
  }

  function Created(s: State, a: string): State {
    s.(sites := s.sites[s.nextId := Site(a, Cleared(a))], nextId := s.nextId + 1, log := s.log[s.nextId := []])
  }

  function Moved(s: State, a: string, b: string): State
    requires 0 in s.sites
  {
    s.(sites := s.sites[0 := Site(b, Cleared(b))], log := s.log[0 := []])
  }

  lemma CreateAlone(s: State, a: string)
    requires s.sites == map[] && Words([a]) && SeparatorFree([a])
    ensures AfterCreate(s, CreateWord(a)) == Created(s, a)
  {
    PrimaryOfWord(a);
    assert a in [a];
    assert TrimSpace("x") == "x" && ToLower("x") == "x";
  }

  lemma MoveIsAccepted(sites: map<nat, Site>, a: string, b: string)
    requires sites.Keys == {0} && sites[0].allowedOrigin == a && TrimSpace(a) == a
    requires TrimSpace(b) == b != "" && !EqualFold(a, b)
    ensures UpdateResponse(sites, 0, MoveTo(b), true) == Done && ChangesOrigin(sites[0], MoveTo(b))
  {
    assert !Conflict(sites, b, Some(0));
  }

  lemma MovedSite(site: Site, a: string, b: string)
    requires site.allowedOrigin == a && TrimSpace(a) == a
    requires TrimSpace(b) == b == PrimaryOrigin(b) && !EqualFold(a, b)
    ensures Updated(site, MoveTo(b)) == Site(b, Cleared(b))
  {
  }

  lemma UpdateAlone(s: State, a: string, b: string)
    requires s.sites.Keys == {0} && s.sites[0].allowedOrigin == a && !EqualFold(a, b)
    requires Words([a]) && SeparatorFree([a]) && Words([b]) && SeparatorFree([b])
    ensures AfterUpdate(s, 0, MoveTo(b), true) == Moved(s, a, b)
  {
    PrimaryOfWord(a);
    PrimaryOfWord(b);
    assert b in [b];
    MoveIsAccepted(s.sites, a, b);
    MovedSite(s.sites[0], a, b);
  }
}
