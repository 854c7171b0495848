/** The favicon columns of a site, when they are due for a fetch
    (internal/api/site_favicon_manager.go), and what a fetch writes to them
    (pkg/favicon/service.go). */
module Favicons {
  import opened Basics
  import opened Text
  import opened Base64

  datatype Icon = Icon(origin: string, data: seq<Byte>, contentType: string, fetchedAt: Time, lastAttemptAt: Time)

  datatype Config = Config(retryInterval: nat, refreshInterval: nat)

  /** The columns of a site whose icon was never asked for. */
  function Cleared(origin: string): Icon {
    Icon(origin, [], "", 0, 0)
  }

  /** The icon columns were filled for this origin, up to letter case. */
  predicate FilledFor(icon: Icon, origin: string) {
    TrimSpace(icon.origin) != "" && EqualFold(TrimSpace(icon.origin), origin)
  }

  predicate ShouldFetch(config: Config, icon: Icon, origin: string, now: Time) {
    if !FilledFor(icon, origin) then true
    else if icon.data == [] then icon.lastAttemptAt == 0 || now - icon.lastAttemptAt >= config.retryInterval
    else icon.fetchedAt == 0 || now - icon.fetchedAt >= config.refreshInterval
  }

  predicate ShouldForceFetch(icon: Icon, origin: string) {
    icon.data == [] || icon.fetchedAt == 0 || !FilledFor(icon, origin)
  }

  /** A forced fetch that would not be made unforced is always a retry within the
      retry interval: forcing bypasses nothing else. */
  lemma ForcingBypassesOnlyTheRetryInterval(config: Config, icon: Icon, origin: string, now: Time)
    ensures ShouldForceFetch(icon, origin) && !ShouldFetch(config, icon, origin, now)
       <==> FilledFor(icon, origin) && icon.data == [] && icon.lastAttemptAt != 0
            && now - icon.lastAttemptAt < config.retryInterval
  {
  }

  /** Columns for no origin, or for another one up to case, are due and forced at any
      time; and a fetch is forced exactly unless there is an icon, with a fetch time,
      for this very origin. */
  lemma OtherOriginIsDue(config: Config, icon: Icon, origin: string, now: Time)
    ensures TrimSpace(icon.origin) == "" || !EqualFold(TrimSpace(icon.origin), origin) ==>
              ShouldFetch(config, icon, origin, now) && ShouldForceFetch(icon, origin)
    ensures ShouldForceFetch(icon, origin)
       <==> !(icon.data != [] && icon.fetchedAt != 0
              && TrimSpace(icon.origin) != "" && EqualFold(TrimSpace(icon.origin), origin))
  {
  }

  /** What the resolver brings back. */
  datatype Outcome = Failed | NoAsset | Asset(data: seq<Byte>, contentType: string)

  /** The columns a fetch writes. */
  datatype Updates = Updates(
    origin: Option<string>,
    lastAttemptAt: Option<Time>,
    data: Option<seq<Byte>>,
    contentType: Option<string>,
    fetchedAt: Option<Time>)

  const NO_UPDATES := Updates(None, None, None, None, None)

  datatype CollectionResult = CollectionResult(updates: Updates, notifyAt: Option<Time>)

  predicate Found(outcome: Outcome) {
    outcome.Asset? && outcome.data != []
  }

  /** The found icon is not the stored one. */
  predicate Differs(snapshot: Icon, outcome: Outcome)
    requires outcome.Asset?
  {
    || snapshot.fetchedAt == 0
    || snapshot.data != outcome.data
    || !EqualFold(TrimSpace(snapshot.contentType), TrimSpace(outcome.contentType))
  }

  predicate Stores(snapshot: Icon, outcome: Outcome) {
    Found(outcome) && Differs(snapshot, outcome)
  }

  /** An attempt is always recorded; the fetch time only when something was found;
      the icon only when it differs; the subscribers hear of a new icon, and of an
      old one when asked to. */
  function Collected(snapshot: Icon, allowedOrigin: string, notify: bool, at: Time, outcome: Outcome): CollectionResult {
    var origin := TrimSpace(allowedOrigin);
    if origin == "" then CollectionResult(NO_UPDATES, None)
    else
      var stores := Stores(snapshot, outcome);
      CollectionResult(
        Updates(Some(origin), Some(at),
                if stores then Some(outcome.data) else None,
                if stores then Some(outcome.contentType) else None,
                if Found(outcome) then Some(at) else None),
        if Found(outcome) && (stores || notify) then Some(at) else None)
  }

  /** The attempt is recorded; the fetch time exactly when an icon was found; the
      icon exactly when it was found and differs; and there is a notification exactly
      when an icon was found that differs or was asked for. Every time is that of
      the attempt. */
  predicate Records(result: CollectionResult, snapshot: Icon, origin: string, notify: bool, at: Time, outcome: Outcome) {
    var updates := result.updates;
    && updates.origin == Some(origin) && updates.lastAttemptAt == Some(at)
    && updates.fetchedAt in {None, Some(at)} && result.notifyAt in {None, Some(at)}
    && (updates.fetchedAt.Some? <==> Found(outcome))
    && (updates.data.Some? <==> Found(outcome) && Differs(snapshot, outcome))
    && (updates.contentType.Some? <==> updates.data.Some?)
    && (updates.data.Some? ==> updates.data.value == outcome.data && updates.contentType.value == outcome.contentType)
    && (result.notifyAt.Some? <==> Found(outcome) && (Differs(snapshot, outcome) || notify))
  }

  method Collect(snapshot: Icon, allowedOrigin: string, notify: bool, at: Time, outcome: Outcome)
    returns (result: CollectionResult)
    ensures result == Collected(snapshot, allowedOrigin, notify, at, outcome)
    ensures TrimSpace(allowedOrigin) == "" ==> result == CollectionResult(NO_UPDATES, None)
    ensures TrimSpace(allowedOrigin) != "" ==> Records(result, snapshot, TrimSpace(allowedOrigin), notify, at, outcome)
  {
    var origin := TrimSpace(allowedOrigin);
    if origin == "" { return CollectionResult(NO_UPDATES, None); }
    var updates := NO_UPDATES.(origin := Some(origin), lastAttemptAt := Some(at));
    result := CollectionResult(updates, None);
    if outcome.Failed? { return; }
    var shouldNotify := false;
    if outcome.Asset? && outcome.data != [] {
      var contentTypesEqual := EqualFold(TrimSpace(snapshot.contentType), TrimSpace(outcome.contentType));
      if snapshot.fetchedAt == 0 || snapshot.data != outcome.data || !contentTypesEqual {
        updates := updates.(data := Some(outcome.data), contentType := Some(outcome.contentType), fetchedAt := Some(at));
        shouldNotify := true;
      } else {
        updates := updates.(fetchedAt := Some(at));
      }
      if notify { shouldNotify := true; }
    }
    result := CollectionResult(updates, if shouldNotify then Some(at) else None);
  }

  /** The update statement: named columns only. */
  function Written(icon: Icon, updates: Updates): Icon {
    Icon(GetOr(updates.origin, icon.origin), GetOr(updates.data, icon.data),
         GetOr(updates.contentType, icon.contentType), GetOr(updates.fetchedAt, icon.fetchedAt),
         GetOr(updates.lastAttemptAt, icon.lastAttemptAt))
  }

  /** After a fetch for an origin that found an icon, the columns read before it hold
      that icon, of that type up to case, from this fetch on. */
  lemma FoundIconIsHeld(icon: Icon, origin: string, notify: bool, at: Time, data: seq<Byte>, contentType: string)
    requires TrimSpace(origin) != "" && data != []
    ensures var held := Written(icon, Collected(icon, origin, notify, at, Asset(data, contentType)).updates);
            && held.data == data && EqualFold(TrimSpace(held.contentType), TrimSpace(contentType))
            && held.fetchedAt == at && held.lastAttemptAt == at && held.origin == TrimSpace(origin)
  {
  }

  /** After one that found none, the icon and its fetch time are what they were. */
  lemma FailedFetchKeepsTheIcon(icon: Icon, origin: string, notify: bool, at: Time, outcome: Outcome)
    requires TrimSpace(origin) != "" && (outcome.Asset? ==> outcome.data == [])
    ensures Written(icon, Collected(icon, origin, notify, at, outcome).updates)
         == icon.(origin := TrimSpace(origin), lastAttemptAt := at)
    ensures Collected(icon, origin, notify, at, outcome).notifyAt == None
  {
  }

  /** The subscribers hear of a found icon exactly when asked to, or when it is the
      first, has other bytes, or has another type up to case. */
  lemma NotifiedOfChanges(icon: Icon, origin: string, notify: bool, at: Time, data: seq<Byte>, contentType: string)
    requires TrimSpace(origin) != "" && data != []
    ensures Collected(icon, origin, notify, at, Asset(data, contentType)).notifyAt
         == if notify || icon.fetchedAt == 0 || icon.data != data
               || !EqualFold(TrimSpace(icon.contentType), TrimSpace(contentType))
            then Some(at) else None
  {
  }
}
