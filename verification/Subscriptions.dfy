/** The life of a subscription through every handler that touches it:
    internal/api/public.go, internal/api/admin.go and
    internal/api/site_subscribe_test_handlers.go. Each handler is one atomic step
    on the rows; what the outside world answers is an argument of the step. */
module Subscriptions {
  import opened Basics
  import opened Text
  import opened Subscriber

  datatype Response =
    | Ok | BadRequest | Unauthorized | Forbidden | NotFound | Conflict | TooManyRequests | ServerError

  datatype Access = Anonymous | Denied | Granted

  /** The token of a link request after reading it. */
  datatype LinkToken =
    | Missing
    | Unavailable  // no secret is configured
    | Invalid
    | Valid(subscriberID: string, siteID: string, email: string)

  /** `notified` lists the subscribers the notifier was called for; `usedIDs` are
      the identifiers ever generated. */
  datatype State = State(
    sites: set<string>,
    rows: map<string, Row>,
    usedIDs: set<string>,
    now: Time,
    notifications: bool,
    notified: seq<string>)

  datatype Submission = Submission(
    email: string, name: string, sourceURL: string, newID: string, addressParses: bool)

  datatype Step =
    | Tick(now: Time)
    | AddSite(id: string)
    | DropSite(id: string)
    | PublicCreate(site: string, submission: Submission, limited: bool, originAllowed: bool)
    | TestCreate(site: string, submission: Submission, access: Access)
    | Mutate(site: string, email: string, target: Status, limited: bool, originAllowed: bool)
    | ConfirmLink(token: LinkToken)
    | UnsubscribeLink(token: LinkToken)
    | AdminUpdate(site: string, subscriberID: string, desired: string, access: Access)
    | AdminDelete(site: string, subscriberID: string, access: Access)

  ghost predicate Initial(s: State) {
    s.sites == {} && s.rows == map[] && s.usedIDs == {} && s.now > 0 && s.notified == []
  }

  predicate IsNewID(usedIDs: set<string>, id: string) {
    id !in usedIDs && id != "" && Trimmed(id)
  }

  /** The clock is monotone, generated identifiers are new, and the two POST routes
      fix their target. */
  predicate Enabled(s: State, step: Step) {
    match step
    case Tick(now) => s.now <= now
    case AddSite(id) => id != "" && Trimmed(id)
    case PublicCreate(_, submission, _, _) => IsNewID(s.usedIDs, submission.newID)
    case TestCreate(_, submission, _) => IsNewID(s.usedIDs, submission.newID)
    case Mutate(_, _, target, _, _) => target != Pending
    case _ => true
  }

  // ------------------------------------------------------------- handlers

  predicate Matches(row: Row, site: string, email: string) {
    row.site == site && row.email == email
  }

  /** The row the database returns for a site and a normalized email. */
  ghost function Find(rows: map<string, Row>, site: string, email: string): (found: Option<string>)
    ensures found.Some? ==> found.value in rows && Matches(rows[found.value], site, email)
    ensures found.None? ==> forall id :: id in rows ==> !Matches(rows[id], site, email)
  {
    if id :| id in rows && Matches(rows[id], site, email) then Some(id) else None
  }

  function Resubmitted(row: Row, submission: Submission, now: Time): Row {
    row.(status := Pending, unsubscribedAt := NEVER, confirmedAt := NEVER, consentAt := now,
         name := TrimSpace(submission.name), sourceURL := TrimSpace(submission.sourceURL))
  }

  function ConfirmedRow(row: Row, now: Time): Row {
    row.(status := Confirmed, confirmedAt := now, unsubscribedAt := NEVER)
  }

  function UnsubscribedRow(row: Row, now: Time): Row {
    row.(status := Unsubscribed, unsubscribedAt := now)
  }

  /** The common core of both create handlers, for a known site. */
  ghost function Submit(s: State, site: string, submission: Submission): (State, Response) {
    match Find(s.rows, site, NormalizeEmail(submission.email))
    case Some(id) =>
      if s.rows[id].status == Unsubscribed
      then (s.(rows := s.rows[id := Resubmitted(s.rows[id], submission, s.now)]), Ok)
      else (s, Conflict)
    case None =>
      match NewSubscriber(site, submission.email, submission.name, submission.sourceURL, "pending", s.now,
                          submission.addressParses)
      case Failure(_) => (s, BadRequest)
      case Success(row) =>
        (s.(rows := s.rows[submission.newID := row], usedIDs := s.usedIDs + {submission.newID}), Ok)
  }

  function Notify(s: State, id: string): State {
    if s.notifications then s.(notified := s.notified + [id]) else s
  }

  ghost function MutateRow(s: State, site: string, email: string, target: Status): (State, Response) {
    match Find(s.rows, site, NormalizeEmail(email))
    case None => (s, NotFound)
    case Some(id) =>
      var row := s.rows[id];
      if target == Confirmed && row.status == Unsubscribed then (s, Conflict)
      else if row.status == target then (s, Ok)
      else if target == Confirmed then
        (Notify(s.(rows := s.rows[id := ConfirmedRow(row, s.now)]), id), Ok)
      else (s.(rows := s.rows[id := UnsubscribedRow(row, s.now)]), Ok)
  }

  /** The row a link's token names, if its email still agrees. */
  function LinkedRow(s: State, token: LinkToken): Option<string> {
    if token.Valid? && token.subscriberID in s.rows
       && s.rows[token.subscriberID].site == token.siteID
       && TrimSpace(ToLower(s.rows[token.subscriberID].email)) == TrimSpace(ToLower(token.email))
    then Some(token.subscriberID) else None
  }

  function FollowConfirmLink(s: State, token: LinkToken): (State, Response) {
    if token.Missing? then (s, BadRequest)
    else if token.Unavailable? then (s, ServerError)
    else match LinkedRow(s, token)
      case None => (s, BadRequest)
      case Some(id) =>
        var row := s.rows[id];
        if row.status == Unsubscribed then (s, Conflict)
        else if row.status == Confirmed then (s, Ok)
        else
          var t := s.(rows := s.rows[id := ConfirmedRow(row, s.now)]);
          (if row.site in s.sites then Notify(t, id) else t, Ok)
  }

  function FollowUnsubscribeLink(s: State, token: LinkToken): (State, Response) {
    if token.Missing? then (s, BadRequest)
    else if token.Unavailable? then (s, ServerError)
    else match LinkedRow(s, token)
      case None => (s, BadRequest)
      case Some(id) =>
        var row := s.rows[id];
        if row.status == Unsubscribed then (s, Ok)
        else (s.(rows := s.rows[id := UnsubscribedRow(row, s.now)]), Ok)
  }

  /** resolveAuthorizedSite: the refusal, if any. */
  function Refusal(s: State, site: string, access: Access): Option<Response> {
    if TrimSpace(site) == "" then Some(BadRequest)
    else if access.Anonymous? then Some(Unauthorized)
    else if TrimSpace(site) !in s.sites then Some(NotFound)
    else if access.Denied? then Some(Forbidden)
    else None
  }

  function SetStatus(s: State, site: string, subscriberID: string, desired: string, access: Access): (State, Response) {
    var refusal := Refusal(s, site, access);
    var id := TrimSpace(subscriberID);
    var status := TrimSpace(desired);
    if refusal.Some? then (s, refusal.value)
    else if id == "" then (s, BadRequest)
    else if status != "confirmed" && status != "unsubscribed" then (s, BadRequest)
    else if id !in s.rows || s.rows[id].site != TrimSpace(site) then (s, NotFound)
    else if status == "unsubscribed" then (s.(rows := s.rows[id := UnsubscribedRow(s.rows[id], s.now)]), Ok)
    else (s.(rows := s.rows[id := ConfirmedRow(s.rows[id], s.now)]), Ok)
  }

  function RemoveRow(s: State, site: string, subscriberID: string, access: Access): (State, Response) {
    var refusal := Refusal(s, site, access);
    var id := TrimSpace(subscriberID);
    if refusal.Some? then (s, refusal.value)
    else if id == "" then (s, BadRequest)
    else if id !in s.rows || s.rows[id].site != TrimSpace(site) then (s, NotFound)
    else (s.(rows := s.rows - {id}), Ok)
  }

  ghost function Handle(s: State, step: Step): (State, Response)
    requires Enabled(s, step)
  {
    match step
    case Tick(now) => (s.(now := now), Ok)
    case AddSite(id) => (s.(sites := s.sites + {id}), Ok)
    case DropSite(id) => (s.(sites := s.sites - {id}), Ok)
    case PublicCreate(site, submission, limited, originAllowed) =>
      if limited then (s, TooManyRequests)
      else if TrimSpace(site) == "" || TrimSpace(submission.email) == "" then (s, BadRequest)
      else if TrimSpace(site) !in s.sites then (s, NotFound)
      else if !originAllowed then (s, Forbidden)
      else Submit(s, TrimSpace(site), submission)
    case TestCreate(site, submission, access) =>
      if TrimSpace(site) == "" then (s, BadRequest)
      else if access.Anonymous? then (s, Unauthorized)
      else if TrimSpace(submission.email) == "" then (s, BadRequest)
      else if TrimSpace(site) !in s.sites then (s, NotFound)
      else if access.Denied? then (s, Forbidden)
      else Submit(s, TrimSpace(site), submission)
    case Mutate(site, email, target, limited, originAllowed) =>
      if limited then (s, TooManyRequests)
      else if TrimSpace(site) == "" || TrimSpace(ToLower(email)) == "" then (s, BadRequest)
      else if TrimSpace(site) !in s.sites then (s, NotFound)
      else if !originAllowed then (s, Forbidden)
      else MutateRow(s, TrimSpace(site), email, target)
    case ConfirmLink(token) => FollowConfirmLink(s, token)
    case UnsubscribeLink(token) => FollowUnsubscribeLink(s, token)
    case AdminUpdate(site, id, desired, access) => SetStatus(s, site, id, desired, access)
    case AdminDelete(site, id, access) => RemoveRow(s, site, id, access)
  }

  ghost function Next(s: State, step: Step): State
    requires Enabled(s, step)
  {
    Handle(s, step).0
  }

  // ----------------------------------------------------------- the class

  class SubscriptionHandlers {
    var sites: set<string>
    var rows: map<string, Row>
    var usedIDs: set<string>
    var now: Time
    const notifications: bool
    var notified: seq<string>

    function Current(): State
      reads this
    {
      State(sites, rows, usedIDs, now, notifications, notified)
    }

    constructor (clock: Time, notificationsEnabled: bool)
      requires clock > 0
      ensures Initial(Current()) && now == clock && notifications == notificationsEnabled
    {
      sites, rows, usedIDs, now, notified := {}, map[], {}, clock, [];
      notifications := notificationsEnabled;
    }

    method FindSubscriber(site: string, email: string) returns (found: Option<string>)
      requires UniqueRows(rows)
      ensures found == Find(rows, site, NormalizeEmail(email))
    {
      var normalized := NormalizeEmail(email);
      var todo := rows.Keys;
      while todo != {}
        invariant todo <= rows.Keys
        invariant forall id :: id in rows.Keys - todo ==> !Matches(rows[id], site, normalized)
        decreases todo
      {
        var id :| id in todo;
        if Matches(rows[id], site, normalized) { return Some(id); }
        todo := todo - {id};
      }
      return None;
    }

    method SubmitRow(site: string, submission: Submission) returns (response: Response)
      requires UniqueRows(rows)
      modifies this`rows, this`usedIDs
      ensures (Current(), response) == Submit(old(Current()), site, submission)
    {
      var existing := FindSubscriber(site, submission.email);
      if existing.Some? {
        var row := rows[existing.value];
        if row.status == Unsubscribed {
          rows := rows[existing.value := row.(
            status := Pending, unsubscribedAt := NEVER, confirmedAt := NEVER, consentAt := now,
            name := TrimSpace(submission.name), sourceURL := TrimSpace(submission.sourceURL))];
          return Ok;
        }
        return Conflict;
      }
      var built := NewSubscriber(site, submission.email, submission.name, submission.sourceURL, "pending", now,
                                 submission.addressParses);
      if built.Failure? { return BadRequest; }
      rows := rows[submission.newID := built.value];
      usedIDs := usedIDs + {submission.newID};
      return Ok;
    }

    method CreateSubscription(site: string, submission: Submission, limited: bool, originAllowed: bool)
      returns (response: Response)
      requires UniqueRows(rows) && IsNewID(usedIDs, submission.newID)
      modifies this
      ensures (Current(), response) == Handle(old(Current()), PublicCreate(site, submission, limited, originAllowed))
    {
      if limited { return TooManyRequests; }
      var trimmed := TrimSpace(site);
      if trimmed == "" || TrimSpace(submission.email) == "" { return BadRequest; }
      if trimmed !in sites { return NotFound; }
      if !originAllowed { return Forbidden; }
      response := SubmitRow(trimmed, submission);
    }

    method CreateTestSubscription(site: string, submission: Submission, access: Access) returns (response: Response)
      requires UniqueRows(rows) && IsNewID(usedIDs, submission.newID)
      modifies this
      ensures (Current(), response) == Handle(old(Current()), TestCreate(site, submission, access))
    {
      var trimmed := TrimSpace(site);
      if trimmed == "" { return BadRequest; }
      if access.Anonymous? { return Unauthorized; }
      if TrimSpace(submission.email) == "" { return BadRequest; }
      if trimmed !in sites { return NotFound; }
      if access.Denied? { return Forbidden; }
      response := SubmitRow(trimmed, submission);
    }

    method ApplyNotification(id: string)
      requires id in rows
      modifies this`notified
      ensures Current() == if old(rows)[id].status == Confirmed then Notify(old(Current()), id) else old(Current())
    {
      if rows[id].status != Confirmed { return; }
      if !notifications { return; }
      notified := notified + [id];
    }

    method UpdateSubscriptionStatus(site: string, email: string, target: Status, limited: bool, originAllowed: bool)
      returns (response: Response)
      requires UniqueRows(rows) && target != Pending
      modifies this
      ensures (Current(), response) == Handle(old(Current()), Mutate(site, email, target, limited, originAllowed))
    {
      if limited { return TooManyRequests; }
      var trimmed := TrimSpace(site);
      var normalized := TrimSpace(ToLower(email));
      NormalizingTwice(email);
      if trimmed == "" || normalized == "" { return BadRequest; }
      if trimmed !in sites { return NotFound; }
      if !originAllowed { return Forbidden; }
      var found := FindSubscriber(trimmed, normalized);
      if found.None? { return NotFound; }
      var id := found.value;
      if target == Confirmed && rows[id].status == Unsubscribed { return Conflict; }
      if rows[id].status == target { return Ok; }
      if target == Confirmed {
        rows := rows[id := rows[id].(status := target, confirmedAt := now, unsubscribedAt := NEVER)];
        ApplyNotification(id);
      } else {
        rows := rows[id := rows[id].(status := target, unsubscribedAt := now)];
      }
      return Ok;
    }

    method FollowLink(token: LinkToken, confirm: bool) returns (response: Response)
      modifies this
      ensures (Current(), response)
           == Handle(old(Current()), if confirm then ConfirmLink(token) else UnsubscribeLink(token))
    {
      if token.Missing? { return BadRequest; }
      if token.Unavailable? { return ServerError; }
      if token.Invalid? { return BadRequest; }
      var id := token.subscriberID;
      if id !in rows || rows[id].site != token.siteID { return BadRequest; }
      if TrimSpace(ToLower(rows[id].email)) != TrimSpace(ToLower(token.email)) { return BadRequest; }
      var sitePresent := rows[id].site in sites;
      if confirm {
        if rows[id].status == Unsubscribed { return Conflict; }
        if rows[id].status == Confirmed { return Ok; }
        rows := rows[id := rows[id].(status := Confirmed, confirmedAt := now, unsubscribedAt := NEVER)];
        if sitePresent { ApplyNotification(id); }
      } else {
        if rows[id].status == Unsubscribed { return Ok; }
        rows := rows[id := rows[id].(status := Unsubscribed, unsubscribedAt := now)];
      }
      return Ok;
    }

    method UpdateSubscriberStatus(site: string, subscriberID: string, desired: string, access: Access)
      returns (response: Response)
      modifies this
      ensures (Current(), response) == Handle(old(Current()), AdminUpdate(site, subscriberID, desired, access))
    {
      var refusal := Refusal(Current(), site, access);
      if refusal.Some? { return refusal.value; }
      var id := TrimSpace(subscriberID);
      if id == "" { return BadRequest; }
      var status := TrimSpace(desired);
      if status != "confirmed" && status != "unsubscribed" { return BadRequest; }
      if id !in rows || rows[id].site != TrimSpace(site) { return NotFound; }
      if status == "unsubscribed" {
        rows := rows[id := rows[id].(status := Unsubscribed, unsubscribedAt := now)];
      }
      if status == "confirmed" {
        rows := rows[id := rows[id].(status := Confirmed, confirmedAt := now, unsubscribedAt := NEVER)];
      }
      return Ok;
    }

    method DeleteSubscriber(site: string, subscriberID: string, access: Access) returns (response: Response)
      modifies this
      ensures (Current(), response) == Handle(old(Current()), AdminDelete(site, subscriberID, access))
    {
      var refusal := Refusal(Current(), site, access);
      if refusal.Some? { return refusal.value; }
      var id := TrimSpace(subscriberID);
      if id == "" { return BadRequest; }
      if id !in rows || rows[id].site != TrimSpace(site) { return NotFound; }
      rows := rows - {id};
      return Ok;
    }
  }

  // ---------------------------------------------------------- invariants

  ghost predicate UniqueRows(rows: map<string, Row>) {
    forall a, b :: a in rows && b in rows && Matches(rows[a], rows[b].site, rows[b].email) ==> a == b
  }

  /** What each status promises of the three timestamps. */
  predicate Consistent(row: Row, now: Time) {
    && NEVER < row.consentAt <= now
    && row.confirmedAt <= now
    && row.unsubscribedAt <= now
    && match row.status
       case Pending => row.confirmedAt == NEVER && row.unsubscribedAt == NEVER
       case Confirmed => row.confirmedAt >= row.consentAt && row.unsubscribedAt == NEVER
       case Unsubscribed => row.unsubscribedAt >= row.consentAt && row.unsubscribedAt >= row.confirmedAt
  }

  ghost predicate ValidState(s: State) {
    && s.now > 0
    && UniqueRows(s.rows)
    && s.rows.Keys <= s.usedIDs
    && (forall id :: id in s.rows ==> Consistent(s.rows[id], s.now))
    && (forall id :: id in s.rows ==> id != "" && Trimmed(id) && Trimmed(s.rows[id].site))
    && (forall id :: id in s.sites ==> id != "" && Trimmed(id))
  }

  lemma ReplaceKeepsUnique(rows: map<string, Row>, id: string, row: Row)
    requires UniqueRows(rows) && id in rows && Matches(row, rows[id].site, rows[id].email)
    ensures UniqueRows(rows[id := row])
  {
  }

  lemma InsertKeepsUnique(rows: map<string, Row>, id: string, row: Row)
    requires UniqueRows(rows) && id !in rows
    requires forall other :: other in rows ==> !Matches(rows[other], row.site, row.email)
    ensures UniqueRows(rows[id := row])
  {
  }

  lemma SubmitKeepsValid(s: State, site: string, submission: Submission)
    requires ValidState(s) && IsNewID(s.usedIDs, submission.newID) && site in s.sites
    ensures ValidState(Submit(s, site, submission).0)
  {
    var found := Find(s.rows, site, NormalizeEmail(submission.email));
    if found.Some? {
      ReplaceKeepsUnique(s.rows, found.value, Resubmitted(s.rows[found.value], submission, s.now));
    } else {
      TrimmedIsFixed(site);
      var built := NewSubscriber(site, submission.email, submission.name, submission.sourceURL, "pending", s.now,
                                 submission.addressParses);
      if built.Success? {
        InsertKeepsUnique(s.rows, submission.newID, built.value);
      }
    }
  }

  lemma MutateKeepsValid(s: State, site: string, email: string, target: Status)
    requires ValidState(s) && target != Pending
    ensures ValidState(MutateRow(s, site, email, target).0)
  {
    var found := Find(s.rows, site, NormalizeEmail(email));
    if found.Some? {
      ReplaceKeepsUnique(s.rows, found.value, ConfirmedRow(s.rows[found.value], s.now));
      ReplaceKeepsUnique(s.rows, found.value, UnsubscribedRow(s.rows[found.value], s.now));
    }
  }

  lemma TouchKeepsValid(s: State, id: string)
    requires ValidState(s) && id in s.rows
    ensures ValidState(s.(rows := s.rows[id := ConfirmedRow(s.rows[id], s.now)]))
    ensures ValidState(s.(rows := s.rows[id := UnsubscribedRow(s.rows[id], s.now)]))
  {
    ReplaceKeepsUnique(s.rows, id, ConfirmedRow(s.rows[id], s.now));
    ReplaceKeepsUnique(s.rows, id, UnsubscribedRow(s.rows[id], s.now));
  }

  lemma LinksKeepValid(s: State, token: LinkToken)
    requires ValidState(s)
    ensures ValidState(FollowConfirmLink(s, token).0) && ValidState(FollowUnsubscribeLink(s, token).0)
  {
    if LinkedRow(s, token).Some? {
      TouchKeepsValid(s, token.subscriberID);
    }
  }

  lemma DashboardKeepsValid(s: State, site: string, id: string, desired: string, access: Access)
    requires ValidState(s)
    ensures ValidState(SetStatus(s, site, id, desired, access).0) && ValidState(RemoveRow(s, site, id, access).0)
  {
    if TrimSpace(id) in s.rows {
      TouchKeepsValid(s, TrimSpace(id));
    }
  }

  /** A create handler submits, for a known site, or refuses and changes nothing. */
  lemma CreateSubmits(s: State, step: Step)
    requires Enabled(s, step) && (step.PublicCreate? || step.TestCreate?)
    ensures || Next(s, step) == s
            || (TrimSpace(step.site) in s.sites && Next(s, step) == Submit(s, TrimSpace(step.site), step.submission).0)
  {
  }

  lemma CreateKeepsValid(s: State, step: Step)
    requires ValidState(s) && Enabled(s, step) && (step.PublicCreate? || step.TestCreate?)
    ensures ValidState(Next(s, step))
  {
    if TrimSpace(step.site) in s.sites {
      SubmitKeepsValid(s, TrimSpace(step.site), step.submission);
    }
  }

  lemma StepKeepsValid(s: State, step: Step)
    requires ValidState(s) && Enabled(s, step)
    ensures ValidState(Next(s, step))
  {
    match step
    case PublicCreate(_, _, _, _) => CreateKeepsValid(s, step);
    case TestCreate(_, _, _) => CreateKeepsValid(s, step);
    case Mutate(site, email, target, _, _) => MutateKeepsValid(s, TrimSpace(site), email, target);
    case ConfirmLink(token) => LinksKeepValid(s, token);
    case UnsubscribeLink(token) => LinksKeepValid(s, token);
    case AdminUpdate(site, id, desired, access) => DashboardKeepsValid(s, site, id, desired, access);
    case AdminDelete(site, id, access) => DashboardKeepsValid(s, site, id, "", access);
    case _ =>
  }

  ghost predicate Run(states: seq<State>, steps: seq<Step>) {
    && |states| == |steps| + 1
    && Initial(states[0])
    && forall i :: 0 <= i < |steps| ==> Enabled(states[i], steps[i]) && states[i + 1] == Next(states[i], steps[i])
  }

  /** In every reachable state each status agrees with the timestamps, and there
      is at most one row for each site and normalized email. */
  lemma {:induction false} RowsStayConsistent(states: seq<State>, steps: seq<Step>, n: nat)
    requires Run(states, steps) && n < |states|
    ensures ValidState(states[n])
  {
    if n > 0 {
      RowsStayConsistent(states, steps, n - 1);
      StepKeepsValid(states[n - 1], steps[n - 1]);
    }
  }

  // ------------------------------------------------ what each entry does

  /** The stored row of a site and an address, as a request spells them. */
  predicate IsRowOf(s: State, id: string, site: string, email: string) {
    id in s.rows && s.rows[id].site == TrimSpace(site) && s.rows[id].email == NormalizeEmail(email)
  }

  lemma FoundRow(rows: map<string, Row>, id: string, site: string, email: string)
    requires UniqueRows(rows) && id in rows && Matches(rows[id], site, email)
    ensures Find(rows, site, email) == Some(id)
  {
  }

  /** A POST that is not refused: unsubscribing leaves the row unsubscribed, since now
      unless it already was; confirming leaves a pending row confirmed now, a confirmed
      one alone, and is a conflict for an unsubscribed one. No other row changes. */
  lemma MutateEffect(s: State, site: string, email: string, target: Status, id: string, t: State, response: Response)
    requires ValidState(s) && IsRowOf(s, id, site, email) && target != Pending
    requires TrimSpace(site) in s.sites && NormalizeEmail(email) != ""
    requires (t, response) == Handle(s, Mutate(site, email, target, false, true))
    ensures target == Unsubscribed ==> response == Ok && id in t.rows && t.rows[id].status == Unsubscribed
    ensures target == Unsubscribed && s.rows[id].status != Unsubscribed ==>
              t.rows == s.rows[id := s.rows[id].(status := Unsubscribed, unsubscribedAt := s.now)]
    ensures target == Confirmed && s.rows[id].status == Pending ==>
              response == Ok
              && t.rows == s.rows[id := s.rows[id].(status := Confirmed, confirmedAt := s.now, unsubscribedAt := NEVER)]
    ensures target == s.rows[id].status ==> response == Ok && t == s
    ensures target == Confirmed && s.rows[id].status == Unsubscribed ==> response == Conflict && t == s
    ensures t.sites == s.sites && t.usedIDs == s.usedIDs && t.now == s.now
  {
    NormalizingTwice(email);
    FoundRow(s.rows, id, TrimSpace(site), NormalizeEmail(email));
  }

  /** A POST that is limited, from a forbidden origin, for an unknown site, or for an
      address that is missing or not subscribed changes nothing and is not answered ok. */
  lemma MutateRefusals(s: State, step: Step)
    requires step.Mutate? && Enabled(s, step)
    requires step.limited || !step.originAllowed || TrimSpace(step.site) !in s.sites || NormalizeEmail(step.email) == ""
             || forall id :: id in s.rows ==> !IsRowOf(s, id, step.site, step.email)
    ensures Handle(s, step).0 == s
    ensures Handle(s, step).1 in {TooManyRequests, BadRequest, NotFound, Forbidden}
    ensures Handle(s, step).1 == TooManyRequests <==> step.limited
  {
    NormalizingTwice(step.email);
  }

  /** Neither entry refuses the submission before it looks for the row. */
  predicate Admitted(s: State, step: Step) {
    && (|| (step.PublicCreate? && !step.limited && step.originAllowed)
        || (step.TestCreate? && step.access.Granted?))
    && TrimSpace(step.site) in s.sites && TrimSpace(step.submission.email) != ""
  }

  /** Resubmitting an unsubscribed address takes its row back to pending, with consent
      given now and both end times cleared; any other row is a conflict. */
  lemma ResubmitEffect(s: State, step: Step, id: string, t: State, response: Response)
    requires ValidState(s) && Enabled(s, step) && Admitted(s, step) && (t, response) == Handle(s, step)
    requires IsRowOf(s, id, step.site, step.submission.email)
    ensures s.rows[id].status == Unsubscribed ==>
              response == Ok
              && t == s.(rows := s.rows[id := s.rows[id].(
                   status := Pending, consentAt := s.now, confirmedAt := NEVER, unsubscribedAt := NEVER,
                   name := TrimSpace(step.submission.name), sourceURL := TrimSpace(step.submission.sourceURL))])
    ensures s.rows[id].status != Unsubscribed ==> response == Conflict && t == s
  {
    FoundRow(s.rows, id, TrimSpace(step.site), NormalizeEmail(step.submission.email));
  }

  /** The submission can be stored: the address is one, and nothing is too long. */
  predicate Storable(submission: Submission) {
    && submission.addressParses && |NormalizeEmail(submission.email)| <= 320
    && |TrimSpace(submission.name)| <= 200 && |TrimSpace(submission.sourceURL)| <= 500
  }

  /** Submitting an address for the first time adds one pending row, with consent given
      now, exactly when the submission can be stored. */
  lemma SubmitEffect(s: State, step: Step, t: State, response: Response)
    requires ValidState(s) && Enabled(s, step) && Admitted(s, step) && (t, response) == Handle(s, step)
    requires forall id :: id in s.rows ==> !IsRowOf(s, id, step.site, step.submission.email)
    ensures Storable(step.submission) ==>
              response == Ok && t.usedIDs == s.usedIDs + {step.submission.newID} && t.notified == s.notified
              && t.rows == s.rows[step.submission.newID := Row(
                   TrimSpace(step.site), NormalizeEmail(step.submission.email), TrimSpace(step.submission.name),
                   TrimSpace(step.submission.sourceURL), Pending, s.now, NEVER, NEVER)]
    ensures !Storable(step.submission) ==> response == BadRequest && t == s
  {
    var site := TrimSpace(step.site);
    TrimmedIsFixed(site);
    NormalizedIsPresent(step.submission.email);
    PendingIsAStatus();
    assert Find(s.rows, site, NormalizeEmail(step.submission.email)) == None;
  }

  lemma NormalizedIsPresent(email: string)
    requires TrimSpace(email) != ""
    ensures NormalizeEmail(email) != ""
  {
  }

  lemma PendingIsAStatus()
    ensures TrimSpace("pending") == "pending" && ParseStatus("pending") == Some(Pending)
  {
    TrimmedIsFixed("pending");
  }

  lemma CreateRefusals(s: State, step: Step)
    requires Enabled(s, step) && (step.PublicCreate? || step.TestCreate?) && !Admitted(s, step)
    ensures Handle(s, step).0 == s
    ensures Handle(s, step).1 in {TooManyRequests, BadRequest, Unauthorized, NotFound, Forbidden}
  {
  }

  /** The dashboard sets the desired status of exactly the row named, of that site,
      whatever its status was, and calls nobody. */
  lemma AdminUpdateEffect(s: State, site: string, subscriberID: string, desired: string, t: State, response: Response)
    requires ValidState(s) && TrimSpace(site) in s.sites
    requires TrimSpace(subscriberID) in s.rows && s.rows[TrimSpace(subscriberID)].site == TrimSpace(site)
    requires (t, response) == Handle(s, AdminUpdate(site, subscriberID, desired, Granted))
    ensures var id := TrimSpace(subscriberID);
            var row := s.rows[id];
            if TrimSpace(desired) == "confirmed" then
              response == Ok
              && t == s.(rows := s.rows[id := row.(status := Confirmed, confirmedAt := s.now, unsubscribedAt := NEVER)])
            else if TrimSpace(desired) == "unsubscribed" then
              response == Ok && t == s.(rows := s.rows[id := row.(status := Unsubscribed, unsubscribedAt := s.now)])
            else response == BadRequest && t == s
  {
  }

  /** The dashboard deletes exactly the row named, of that site. */
  lemma AdminDeleteEffect(s: State, site: string, subscriberID: string, t: State, response: Response)
    requires ValidState(s) && TrimSpace(site) in s.sites
    requires TrimSpace(subscriberID) in s.rows && s.rows[TrimSpace(subscriberID)].site == TrimSpace(site)
    requires (t, response) == Handle(s, AdminDelete(site, subscriberID, Granted))
    ensures response == Ok && TrimSpace(subscriberID) !in t.rows
    ensures forall id :: id != TrimSpace(subscriberID) ==> (id in t.rows <==> id in s.rows)
    ensures forall id :: id in t.rows ==> t.rows[id] == s.rows[id]
    ensures t.(rows := s.rows) == s
  {
  }

  /** Without access to the site, or for a row that is not its own, the dashboard
      changes nothing and does not answer ok. */
  lemma DashboardRefusals(s: State, site: string, subscriberID: string, desired: string, access: Access)
    requires !access.Granted? || TrimSpace(site) !in s.sites
             || TrimSpace(subscriberID) !in s.rows || s.rows[TrimSpace(subscriberID)].site != TrimSpace(site)
    ensures Handle(s, AdminUpdate(site, subscriberID, desired, access)).0 == s
    ensures Handle(s, AdminUpdate(site, subscriberID, desired, access)).1 != Ok
    ensures Handle(s, AdminDelete(site, subscriberID, access)).0 == s
    ensures Handle(s, AdminDelete(site, subscriberID, access)).1 != Ok
  {
  }

  /** A link's token names a stored row with its own site and address. */
  predicate Reaches(s: State, token: LinkToken) {
    token.Valid? && token.subscriberID in s.rows && s.rows[token.subscriberID].site == token.siteID
    && NormalizeEmail(s.rows[token.subscriberID].email) == NormalizeEmail(token.email)
  }

  lemma LinkedRowIs(s: State, token: LinkToken)
    ensures LinkedRow(s, token) == if Reaches(s, token) then Some(token.subscriberID) else None
  {
    if token.Valid? {
      NormalizingTwice(token.email);
      if token.subscriberID in s.rows {
        NormalizingTwice(s.rows[token.subscriberID].email);
      }
    }
  }

  /** Following a link that reaches a row confirms it now if it is pending, or
      unsubscribes it now if it is not yet, and touches no other row; the
      confirmation link of an unsubscribed row is a conflict. */
  lemma LinkEffect(s: State, token: LinkToken, id: string, row: Row, t: State, answer: Response)
    requires Reaches(s, token) && id == token.subscriberID && row == s.rows[id]
    requires (t, answer) == Handle(s, ConfirmLink(token))
    ensures row.status == Pending ==>
              answer == Ok
              && t.rows == s.rows[id := row.(status := Confirmed, confirmedAt := s.now, unsubscribedAt := NEVER)]
    ensures row.status != Pending ==> t == s && answer == if row.status == Unsubscribed then Conflict else Ok
    ensures Handle(s, UnsubscribeLink(token))
         == (if row.status == Unsubscribed then s
             else s.(rows := s.rows[id := row.(status := Unsubscribed, unsubscribedAt := s.now)]), Ok)
  {
    LinkedRowIs(s, token);
  }

  lemma LinkRefusals(s: State, token: LinkToken)
    requires !Reaches(s, token)
    ensures Handle(s, ConfirmLink(token)).0 == s && Handle(s, UnsubscribeLink(token)).0 == s
    ensures Handle(s, ConfirmLink(token)).1 in {BadRequest, ServerError}
    ensures Handle(s, UnsubscribeLink(token)).1 in {BadRequest, ServerError}
  {
    LinkedRowIs(s, token);
  }

  // ------------------------------------------------------------ identity

  /** The row, if it is still there, is the one it was. */
  ghost predicate SameIdentity(before: map<string, Row>, after: map<string, Row>, id: string) {
    id in after ==> id in before && Matches(after[id], before[id].site, before[id].email)
  }

  lemma LinksKeepIdentity(s: State, token: LinkToken, id: string)
    ensures FollowConfirmLink(s, token).0.usedIDs == s.usedIDs == FollowUnsubscribeLink(s, token).0.usedIDs
    ensures SameIdentity(s.rows, FollowConfirmLink(s, token).0.rows, id)
    ensures SameIdentity(s.rows, FollowUnsubscribeLink(s, token).0.rows, id)
  {
  }

  lemma DashboardKeepsIdentity(s: State, site: string, subscriberID: string, desired: string, access: Access, id: string)
    ensures SetStatus(s, site, subscriberID, desired, access).0.usedIDs == s.usedIDs
    ensures RemoveRow(s, site, subscriberID, access).0.usedIDs == s.usedIDs
    ensures SameIdentity(s.rows, SetStatus(s, site, subscriberID, desired, access).0.rows, id)
    ensures SameIdentity(s.rows, RemoveRow(s, site, subscriberID, access).0.rows, id)
  {
  }

  lemma CreateKeepsIdentity(s: State, step: Step, id: string)
    requires Enabled(s, step) && id in s.usedIDs && (step.PublicCreate? || step.TestCreate?)
    ensures id in Next(s, step).usedIDs && SameIdentity(s.rows, Next(s, step).rows, id)
  {
    SubmitKeepsIdentity(s, TrimSpace(step.site), step.submission, id);
  }

  lemma StepKeepsIdentity(s: State, step: Step, id: string)
    requires Enabled(s, step) && id in s.usedIDs
    ensures id in Next(s, step).usedIDs && SameIdentity(s.rows, Next(s, step).rows, id)
  {
    match step
    case PublicCreate(_, _, _, _) => CreateKeepsIdentity(s, step, id);
    case TestCreate(_, _, _) => CreateKeepsIdentity(s, step, id);
    case Mutate(site, email, target, _, _) => MutateKeepsIdentity(s, TrimSpace(site), email, target, id);
    case ConfirmLink(token) => LinksKeepIdentity(s, token, id);
    case UnsubscribeLink(token) => LinksKeepIdentity(s, token, id);
    case AdminUpdate(site, other, desired, access) => DashboardKeepsIdentity(s, site, other, desired, access, id);
    case AdminDelete(site, other, access) => DashboardKeepsIdentity(s, site, other, "", access, id);
    case _ =>
  }

  lemma SubmitKeepsIdentity(s: State, site: string, submission: Submission, id: string)
    requires submission.newID !in s.usedIDs && id in s.usedIDs
    ensures var t := Submit(s, site, submission).0;
            id in t.usedIDs && SameIdentity(s.rows, t.rows, id)
  {
  }

  lemma MutateKeepsIdentity(s: State, site: string, email: string, target: Status, id: string)
    ensures var t := MutateRow(s, site, email, target).0;
            t.usedIDs == s.usedIDs && SameIdentity(s.rows, t.rows, id)
  {
  }

  /** The row, if there is one, has this site and address. */
  ghost predicate Identified(s: State, id: string, site: string, email: string) {
    id in s.usedIDs && (id in s.rows ==> Matches(s.rows[id], site, email))
  }

  lemma StepKeepsIdentified(s: State, step: Step, id: string, site: string, email: string)
    requires Enabled(s, step) && Identified(s, id, site, email)
    ensures Identified(Next(s, step), id, site, email)
  {
    StepKeepsIdentity(s, step, id);
  }

  lemma RunStepKeepsIdentified(
    states: seq<State>, steps: seq<Step>, k: nat, id: string, site: string, email: string)
    requires Run(states, steps) && k < |steps| && Identified(states[k], id, site, email)
    ensures Identified(states[k + 1], id, site, email)
  {
    StepKeepsIdentified(states[k], steps[k], id, site, email);
  }

  lemma {:induction false} IdentifiedForGood(
    states: seq<State>, steps: seq<Step>, i: nat, j: nat, id: string, site: string, email: string)
    requires Run(states, steps) && i <= j <= |steps| && Identified(states[i], id, site, email)
    ensures Identified(states[j], id, site, email)
    decreases j - i
  {
    if i < j {
      RunStepKeepsIdentified(states, steps, i, id, site, email);
      IdentifiedForGood(states, steps, i + 1, j, id, site, email);
    }
  }

  /** A row keeps its site and address for life, and its identifier is never
      given to another row, even after deletion. */
  lemma RowsKeepTheirIdentity(states: seq<State>, steps: seq<Step>, i: nat, j: nat, id: string)
    requires Run(states, steps) && i <= j <= |steps| && id in states[i].rows
    ensures id in states[j].usedIDs
    ensures id in states[j].rows ==> Matches(states[j].rows[id], states[i].rows[id].site, states[i].rows[id].email)
  {
    RowsStayConsistent(states, steps, i);
    IdentifiedForGood(states, steps, i, j, id, states[i].rows[id].site, states[i].rows[id].email);
  }

  /** Site and address are present, and the address is stored normalized. */
  predicate ProperRow(row: Row) {
    row.site != "" && row.email != "" && NormalizeEmail(row.email) == row.email
  }

  ghost predicate ProperRows(rows: map<string, Row>) {
    forall id :: id in rows ==> ProperRow(rows[id])
  }

  lemma SubmitAddsProperRow(s: State, site: string, submission: Submission, id: string)
    requires id !in s.usedIDs && s.rows.Keys <= s.usedIDs
    ensures id in Submit(s, site, submission).0.rows ==> ProperRow(Submit(s, site, submission).0.rows[id])
  {
    NormalizingTwice(submission.email);
  }

  lemma CreateAddsProperRow(s: State, step: Step, id: string)
    requires Enabled(s, step) && (step.PublicCreate? || step.TestCreate?)
    requires id !in s.usedIDs && s.rows.Keys <= s.usedIDs
    ensures id in Next(s, step).rows ==> ProperRow(Next(s, step).rows[id])
  {
    SubmitAddsProperRow(s, TrimSpace(step.site), step.submission, id);
  }

  lemma LinksAddNothing(s: State, token: LinkToken)
    ensures FollowConfirmLink(s, token).0.rows.Keys == s.rows.Keys == FollowUnsubscribeLink(s, token).0.rows.Keys
  {
  }

  lemma DashboardAddsNothing(s: State, site: string, id: string, desired: string, access: Access)
    ensures SetStatus(s, site, id, desired, access).0.rows.Keys == s.rows.Keys
    ensures RemoveRow(s, site, id, access).0.rows.Keys <= s.rows.Keys
  {
  }

  lemma OnlyCreateAdds(s: State, step: Step)
    requires Enabled(s, step) && !step.PublicCreate? && !step.TestCreate?
    ensures Next(s, step).rows.Keys <= s.rows.Keys
  {
    match step
    case ConfirmLink(token) => LinksAddNothing(s, token);
    case UnsubscribeLink(token) => LinksAddNothing(s, token);
    case AdminUpdate(site, id, desired, access) => DashboardAddsNothing(s, site, id, desired, access);
    case AdminDelete(site, id, access) => DashboardAddsNothing(s, site, id, "", access);
    case _ =>
  }

  lemma StepKeepsRowProper(s: State, step: Step, id: string)
    requires ValidState(s) && Enabled(s, step) && ProperRows(s.rows) && id in Next(s, step).rows
    ensures ProperRow(Next(s, step).rows[id])
  {
    if id in s.usedIDs {
      StepKeepsIdentity(s, step, id);
    } else if step.PublicCreate? || step.TestCreate? {
      CreateAddsProperRow(s, step, id);
    } else {
      OnlyCreateAdds(s, step);
    }
  }

  /** In every reachable state every row has its site and its normalized address;
      with the uniqueness above, no two spellings of an address share a site. */
  lemma {:induction false} AddressesAreNormalized(states: seq<State>, steps: seq<Step>, n: nat)
    requires Run(states, steps) && n < |states|
    ensures ProperRows(states[n].rows)
  {
    if n > 0 {
      AddressesAreNormalized(states, steps, n - 1);
      RowsStayConsistent(states, steps, n - 1);
      forall id | id in states[n].rows ensures ProperRow(states[n].rows[id]) {
        StepKeepsRowProper(states[n - 1], steps[n - 1], id);
      }
    }
  }

  // -------------------------------------------------------- resubmission

  function StatusIn(s: State, id: string): Option<Status> {
    if id in s.rows then Some(s.rows[id].status) else None
  }

  /** A create handler accepts a new submission for the row's own site and address
      and takes the row back to pending. */
  ghost predicate Resubmission(s: State, step: Step, id: string)
    requires Enabled(s, step)
  {
    && (step.PublicCreate? || step.TestCreate?)
    && StatusIn(s, id) == Some(Unsubscribed) && StatusIn(Next(s, step), id) == Some(Pending)
    && Matches(s.rows[id], TrimSpace(step.site), NormalizeEmail(step.submission.email))
  }

  lemma SubmitRevivesOnlyItsRow(s: State, site: string, submission: Submission, id: string)
    requires ValidState(s) && submission.newID !in s.usedIDs
    requires id in s.usedIDs && StatusIn(s, id) in {None, Some(Unsubscribed)}
    requires id in s.rows ==> !Matches(s.rows[id], site, NormalizeEmail(submission.email))
    ensures var t := Submit(s, site, submission).0;
            id in t.usedIDs && StatusIn(t, id) == StatusIn(s, id)
  {
  }

  lemma CreateRevivesOnlyItsRow(s: State, step: Step, id: string)
    requires ValidState(s) && Enabled(s, step) && (step.PublicCreate? || step.TestCreate?)
    requires id in s.usedIDs && StatusIn(s, id) in {None, Some(Unsubscribed)} && !Resubmission(s, step, id)
    ensures id in Next(s, step).usedIDs && StatusIn(Next(s, step), id) in {None, Some(Unsubscribed)}
  {
    CreateSubmits(s, step);
    if Next(s, step) != s {
      if id !in s.rows || !Matches(s.rows[id], TrimSpace(step.site), NormalizeEmail(step.submission.email)) {
        SubmitRevivesOnlyItsRow(s, TrimSpace(step.site), step.submission, id);
      }
    }
  }

  lemma MutateRevivesNothing(s: State, site: string, email: string, target: Status, id: string)
    requires target != Pending && StatusIn(s, id) in {None, Some(Unsubscribed)}
    ensures StatusIn(MutateRow(s, site, email, target).0, id) == StatusIn(s, id)
    ensures MutateRow(s, site, email, target).0.usedIDs == s.usedIDs
  {
  }

  lemma LinksReviveNothing(s: State, token: LinkToken, id: string)
    requires StatusIn(s, id) in {None, Some(Unsubscribed)}
    ensures StatusIn(FollowConfirmLink(s, token).0, id) == StatusIn(s, id)
    ensures StatusIn(FollowUnsubscribeLink(s, token).0, id) == StatusIn(s, id)
  {
  }

  lemma DeletionRevivesNothing(s: State, site: string, other: string, access: Access, id: string)
    requires StatusIn(s, id) in {None, Some(Unsubscribed)}
    ensures StatusIn(RemoveRow(s, site, other, access).0, id) in {None, Some(Unsubscribed)}
  {
  }

  lemma OnlyResubmissionRevives(s: State, step: Step, id: string)
    requires ValidState(s) && Enabled(s, step)
    requires id in s.usedIDs && StatusIn(s, id) in {None, Some(Unsubscribed)}
    requires !step.AdminUpdate? && !Resubmission(s, step, id)
    ensures id in Next(s, step).usedIDs && StatusIn(Next(s, step), id) in {None, Some(Unsubscribed)}
  {
    StepKeepsIdentity(s, step, id);
    match step
    case PublicCreate(_, _, _, _) => CreateRevivesOnlyItsRow(s, step, id);
    case TestCreate(_, _, _) => CreateRevivesOnlyItsRow(s, step, id);
    case Mutate(site, email, target, _, _) => MutateRevivesNothing(s, TrimSpace(site), email, target, id);
    case ConfirmLink(token) => LinksReviveNothing(s, token, id);
    case UnsubscribeLink(token) => LinksReviveNothing(s, token, id);
    case AdminDelete(site, other, access) => DeletionRevivesNothing(s, site, other, access, id);
    case _ =>
  }

  /** Without admin updates, an unsubscribed row is confirmed again only after a
      resubmission that came later than the unsubscription. */
  lemma {:induction false} NoRevivalWithoutResubmission(
    states: seq<State>, steps: seq<Step>, i: nat, j: nat, id: string)
    requires Run(states, steps) && i <= j <= |steps|
    requires StatusIn(states[i], id) == Some(Unsubscribed)
    requires forall k :: i <= k < j ==> !steps[k].AdminUpdate? && !Resubmission(states[k], steps[k], id)
    ensures id in states[j].usedIDs && StatusIn(states[j], id) in {None, Some(Unsubscribed)}
    decreases j
  {
    RowsStayConsistent(states, steps, i);
    if i < j {
      NoRevivalWithoutResubmission(states, steps, i, j - 1, id);
      RowsStayConsistent(states, steps, j - 1);
      OnlyResubmissionRevives(states[j - 1], steps[j - 1], id);
    }
  }

  lemma ConfirmedAgainOnlyAfterResubmission(states: seq<State>, steps: seq<Step>, i: nat, j: nat, id: string)
    requires Run(states, steps) && i <= j <= |steps|
    requires StatusIn(states[i], id) == Some(Unsubscribed) && StatusIn(states[j], id) == Some(Confirmed)
    requires forall k :: i <= k < j ==> !steps[k].AdminUpdate?
    ensures exists k :: i <= k < j && Resubmission(states[k], steps[k], id)
  {
    if forall k :: i <= k < j ==> !Resubmission(states[k], steps[k], id) {
      NoRevivalWithoutResubmission(states, steps, i, j, id);
    }
  }

  // -------------------------------------------------------- notification

  /** The step owes the notifier a call for `id`: it takes the row from pending to
      confirmed, by another route than the dashboard's, while the row's site exists
      and notifications are on. */
  ghost predicate Due(s: State, step: Step, id: string)
    requires Enabled(s, step)
  {
    && !step.AdminUpdate? && s.notifications
    && StatusIn(s, id) == Some(Pending) && StatusIn(Next(s, step), id) == Some(Confirmed)
    && s.rows[id].site in s.sites
  }

  function Calls(s: State, id: string): nat {
    multiset(s.notified)[id]
  }

  lemma SubmitConfirmsNothing(s: State, site: string, submission: Submission, id: string)
    requires ValidState(s) && submission.newID !in s.usedIDs
    ensures var t := Submit(s, site, submission).0;
            && t.notified == s.notified
            && (StatusIn(t, id) == Some(Confirmed) ==> StatusIn(s, id) == Some(Confirmed))
  {
  }

  lemma MutateNotifies(s: State, site: string, email: string, target: Status, id: string)
    requires ValidState(s) && site in s.sites && target != Pending
    ensures var t := MutateRow(s, site, email, target).0;
            var due := s.notifications && StatusIn(s, id) == Some(Pending) && StatusIn(t, id) == Some(Confirmed);
            Calls(t, id) == Calls(s, id) + if due then 1 else 0
    ensures StatusIn(s, id) == Some(Pending) && s.rows[id].site != site ==>
              StatusIn(MutateRow(s, site, email, target).0, id) == Some(Pending)
  {
  }

  lemma CreateNotifiesNobody(s: State, step: Step, id: string)
    requires ValidState(s) && Enabled(s, step) && (step.PublicCreate? || step.TestCreate?)
    ensures Calls(Next(s, step), id) == Calls(s, id) && !Due(s, step, id)
  {
    CreateSubmits(s, step);
    if Next(s, step) != s {
      SubmitConfirmsNothing(s, TrimSpace(step.site), step.submission, id);
    }
  }

  lemma MutateStepNotifies(s: State, step: Step, id: string)
    requires ValidState(s) && Enabled(s, step) && step.Mutate?
    ensures Calls(Next(s, step), id) == Calls(s, id) + if Due(s, step, id) then 1 else 0
  {
    if TrimSpace(step.site) in s.sites {
      MutateNotifies(s, TrimSpace(step.site), step.email, step.target, id);
    }
  }

  lemma ConfirmLinkNotifies(s: State, token: LinkToken, id: string)
    requires ValidState(s)
    ensures Calls(Next(s, ConfirmLink(token)), id) == Calls(s, id) + if Due(s, ConfirmLink(token), id) then 1 else 0
  {
  }

  lemma UnsubscribeLinkNotifiesNobody(s: State, token: LinkToken, id: string)
    ensures var t := FollowUnsubscribeLink(s, token).0;
            t.notified == s.notified && (StatusIn(s, id) == Some(Pending) ==> StatusIn(t, id) != Some(Confirmed))
  {
  }

  lemma DashboardNotifiesNobody(s: State, site: string, other: string, desired: string, access: Access, id: string)
    ensures SetStatus(s, site, other, desired, access).0.notified == s.notified
    ensures var t := RemoveRow(s, site, other, access).0;
            t.notified == s.notified && (StatusIn(s, id) == Some(Pending) ==> StatusIn(t, id) != Some(Confirmed))
  {
  }

  lemma StepNotifies(s: State, step: Step, id: string)
    requires ValidState(s) && Enabled(s, step)
    ensures Calls(Next(s, step), id) == Calls(s, id) + if Due(s, step, id) then 1 else 0
  {
    match step
    case PublicCreate(_, _, _, _) => CreateNotifiesNobody(s, step, id);
    case TestCreate(_, _, _) => CreateNotifiesNobody(s, step, id);
    case Mutate(_, _, _, _, _) => MutateStepNotifies(s, step, id);
    case ConfirmLink(token) => ConfirmLinkNotifies(s, token, id);
    case UnsubscribeLink(token) => UnsubscribeLinkNotifiesNobody(s, token, id);
    case AdminUpdate(site, other, desired, access) => DashboardNotifiesNobody(s, site, other, desired, access, id);
    case AdminDelete(site, other, access) => DashboardNotifiesNobody(s, site, other, "", access, id);
    case _ =>
  }

  ghost function TimesDue(states: seq<State>, steps: seq<Step>, id: string, n: nat): nat
    requires Run(states, steps) && n <= |steps|
  {
    if n == 0 then 0
    else TimesDue(states, steps, id, n - 1) + if Due(states[n - 1], steps[n - 1], id) then 1 else 0
  }

  /** For every subscriber, the notifier is called exactly once for each change
      from pending to confirmed made while the site exists and notifications are
      on, by whichever of the two public routes it was made. */
  lemma {:induction false} NotifiedOncePerConfirmation(
    states: seq<State>, steps: seq<Step>, id: string, n: nat)
    requires Run(states, steps) && n <= |steps|
    ensures Calls(states[n], id) == TimesDue(states, steps, id, n)
  {
    if n > 0 {
      NotifiedOncePerConfirmation(states, steps, id, n - 1);
      RowsStayConsistent(states, steps, n - 1);
      StepNotifies(states[n - 1], steps[n - 1], id);
    }
  }
}
