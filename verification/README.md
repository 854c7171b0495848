# LoopAware: a verified model

LoopAware collects feedback, newsletter subscriptions and page visits for many web
sites. Most of it is HTTP handlers over a database, but it holds several state
machines and algorithms, and this project models those in Dafny and proves what they
promise. `dafny verify dfyconfig.toml` checks everything.

How the model is built:

- A handler, or one atomic section of a goroutine, is one step on an in-memory state.
  `Next` says what a step does. Where the source updates an object in place there is
  also a class with the same fields whose methods, written as the source writes them,
  are proved to do exactly that step. A `Run` is any finite sequence of enabled steps
  from the initial state, so a theorem about runs covers every interleaving.
- What the outside world answers (the URL, mail and HTTP libraries, the keyed hash,
  the session) is an argument of a step or a function parameter. Loops over Go maps
  take the elements in any order.
- History that the program does not store (the visits ever recorded, the fetches made
  for a site, where an icon came from) is carried along to state theorems, never read.

| File | Subject |
|---|---|
| `FaviconQueue.dfy` | in-flight set, bounded queue, overflow goroutines and worker of the favicon manager |
| `FaviconSubscribers.dfy`, `EventBroadcaster.dfy`, `Channels.dfy` | the event streams over bounded channels |
| `Scheduler.dfy` | the scheduler with its one-slot trigger |
| `Favicons.dfy`, `SiteRegistry.dfy`, `IconProvenance.dfy`, `FetchSpacing.dfy` | sites, their origins, and the icons fetched for them |
| `DataUrl.dfy` | icons embedded in `data:` URLs (RFC 2397) |
| `Subscriber.dfy`, `Subscriptions.dfy`, `ConfirmationFlow.dfy` | the life of a subscription, and the emailed link end to end |
| `ConfirmationToken.dfy`, `Base64.dfy`, `Json.dfy`, `Decimals.dfy` | the signed token: base64 (RFC 4648), JSON (RFC 8259), a keyed hash (RFC 2104) |
| `Origins.dfy`, `RateLimiter.dfy`, `Text.dfy` | allowed-origin lists, the request limiter, strings |
| `Visits.dfy`, `VisitRollup.dfy`, `VisitTrend.dfy` | recorded visits, their daily rollup and pruning, the trend |
| `VisitEngagement.dfy`, `VisitAttribution.dfy`, `TopCounts.dfy` | the statistics folds |
| `Basics.dfy`, `Hex.dfy` | shared notions |

Where a promise turned out not to hold, the model keeps the code's behaviour, gives an
input that breaks the promise, and proves exactly when it holds:

- An icon can end up on the wrong site origin if the origin changes between the
  worker's read and its write (`IconProvenance.OverlapCanMislabelAnIcon`). Over runs,
  icons stay current if and only if no such write happens
  (`IconProvenance.IconsAreCurrentExactly`), and none happens if no origin changes
  during a fetch (`IconProvenance.QuietRunsKeepIconsCurrent`).
- Two scheduler loops can run at once after a `Start` during a pending `Stop`
  (`Scheduler.LoopsMayOverlap`). Over runs, at most one is alive if and only if every
  launch comes after all earlier loops have finished (`Scheduler.OneLoopAliveExactly`),
  and a caller has that by starting only when every `Stop` that took a loop has
  returned (`Scheduler.StartAfterStopsReturned`).
- A subscriber can be registered after the favicon manager has stopped, even one that
  subscribed before (`FaviconSubscribers.DrawnBeforeStopSurvivesIt`). The table stays
  empty after shutdown if and only if no insertion follows it
  (`FaviconSubscribers.EmptyAfterStopExactly`).
- A span of time can admit more than the limit of a window
  (`RateLimiter.SlidingWindowIsTight`). The most it can admit is exactly the limit for
  each window it meets (`RateLimiter.SpanBoundIsExact`), so the limit itself holds
  exactly within one window (`RateLimiter.OneWindowExactly`), and twice the limit for
  all spans exactly up to thirty seconds (`RateLimiter.SlidingWindowExactly`).
- Unique visitors can differ between trend and rollup
  (`VisitTrend.UniqueVisitorsCanDiffer`); they agree if and only if every visit of the
  day has a visitor (`VisitTrend.TrendAgreesWithRollup`).
- Normalizing an attribution value twice can differ from normalizing it once
  (`VisitAttribution.NormalizingTwiceCanDiffer`); it does so if and only if the cut at
  the maximum length leaves a space at the end (`VisitAttribution.NormalizingTwice`).

## Model

| member | source | states |
|---|---|---|
| `FaviconQueue.AtMostOneLiveTask` | internal/api/site_favicon_manager.go:173-192 | in every interleaving, the sites of all live tasks (claimed, queued, spilled, being processed), counted with multiplicity, are exactly the in-flight set: at most one task per site and no key without a task; the queue never exceeds its capacity |
| `FaviconQueue.TasksAreConserved` | internal/api/site_favicon_manager.go:272-295 | tasks opened equal tasks ended plus live tasks: none is lost or ended twice, also through the overflow goroutines |
| `FaviconQueue.TasksKeepTheirFlags` | internal/api/site_favicon_manager.go:173-192 | the tasks opened are exactly those ended and those live, each with the force and notify flags it was opened with |
| `FaviconQueue.WorksOnWhatItTook` | internal/api/site_favicon_manager.go:283-292 | the worker is busy with the very task it took off the queue until it finishes |
| `FaviconQueue.RegisteredUntilItsTaskEnds` | internal/api/site_favicon_manager.go:182-184 | a site stays registered until its own task ends and every claim of it in between is refused |
| `FaviconQueue.ClaimsOfASiteAlternate` | internal/api/site_favicon_manager.go:182-184 | between two accepted claims of a site lies the end of its task |
| `FaviconQueue.ProcessedInQueueOrder` | internal/api/site_favicon_manager.go:283-292 | the worker takes the tasks in the order they were queued, none skipped, none repeated |
| `FaviconQueue.StoppedWorkerStaysStopped` | internal/api/site_favicon_manager.go:283-292 | a worker that has seen its cancellation takes no further task |
| `FaviconQueue.LifeOfTheWorker` | internal/api/site_favicon_manager.go:123-156 | the worker has started exactly after its start, is told to stop exactly after its cancellation, and has stopped exactly after it has seen that |
| `FaviconQueue.SiteFaviconManager.ScheduleFetch` | internal/api/site_favicon_manager.go:173-184 | refuses a site without origin and an unforced fetch that is not due, then performs the claim step and accepts exactly when the site had no task |
| `FaviconQueue.SiteFaviconManager.OfferTask` | internal/api/site_favicon_manager.go:186-191 | performs the non-blocking send: to the queue if it has room, else to a waiting goroutine |
| `FaviconQueue.SiteFaviconManager.EnqueueTask` | internal/api/site_favicon_manager.go:272-281 | either arm of the waiting goroutine: queue the task, or give up and release the site |
| `FaviconQueue.SiteFaviconManager.WorkerTurn` | internal/api/site_favicon_manager.go:283-292 | either arm of the worker's loop: stop, or take the oldest task |
| `FaviconQueue.SiteFaviconManager.FinishFetch` | internal/api/site_favicon_manager.go:294-295 | the deferred release of the processed site |
| `FaviconSubscribers.NeverPanics` | internal/api/site_favicon_manager.go:235-270 | in every interleaving of subscribing, broadcasting, repeated closing and shutdown no event is sent on a closed channel and no channel is closed twice, although removal unlocks before closing; every channel in the table is open |
| `FaviconSubscribers.BroadcastReachesEverySubscriber` | internal/api/site_favicon_manager.go:392-401 | a finished broadcast offered its event exactly once to each subscriber in the table when it began, and to nobody else |
| `FaviconSubscribers.EmptyAfterStopExactly` | internal/api/site_favicon_manager.go:235-252 | in every run the table stays empty after shutdown up to some point, if and only if no subscription is inserted up to then |
| `FaviconSubscribers.DrawnBeforeStopSurvivesIt` | internal/api/site_favicon_manager.go:235-252 | any run in which a subscription has drawn its identifier can go on with shutdown and then its insertion: it is registered, on an open channel |
| `FaviconSubscribers.SubscribeAfterStopStillRegisters` | internal/api/site_favicon_manager.go:235-252 | without a closed flag, so is a subscription begun after shutdown |
| `FaviconSubscribers.Delivery` | internal/api/site_favicon_manager.go:392-401 | what a subscriber has read followed by what waits is exactly the events sent to it that found room, in order |
| `FaviconSubscribers.SubscribedUntilRemoved` | internal/api/site_favicon_manager.go:235-252 | an inserted subscription is in the table until it is removed or all are closed |
| `FaviconSubscribers.RemovedIsOut` | internal/api/site_favicon_manager.go:403-413 | a removed subscription is out of the table for good |
| `FaviconSubscribers.SubscriberTable.BroadcastAlone` | internal/api/site_favicon_manager.go:392-401 | the loop offers the event to exactly the channels of the table and changes nothing else |
| `FaviconSubscribers.SubscriberTable.TakeOut` | internal/api/site_favicon_manager.go:403-409 | the locked half of removal, once per subscription |
| `FaviconSubscribers.SubscriberTable.CloseTakenOut` | internal/api/site_favicon_manager.go:410-413 | the close after unlocking |
| `FaviconSubscribers.SubscriberTable.CloseAll` | internal/api/site_favicon_manager.go:415-422 | closes every channel of the table once and empties it |
| `EventBroadcaster.NeverPanics` | internal/api/feedback_events.go:42-126 | in every interleaving no send hits a closed channel, no channel is closed twice, and a channel is open exactly while it is in the table |
| `EventBroadcaster.Delivery` | internal/api/feedback_events.go:61-74 | what a subscriber has read followed by what waits is exactly the events broadcast during its subscription that found room, in order; an event is missing only if that buffer was full |
| `EventBroadcaster.PromptReaderMissesNothing` | internal/api/subscription_test_events.go:58-74 | a reader that always leaves room gets every event, in order |
| `EventBroadcaster.ClosedForGood` | internal/api/feedback_events.go:76-88 | after Close nobody is subscribed and no subscription is ever made |
| `EventBroadcaster.SubscribedUntilClosed` | internal/api/feedback_events.go:42-59 | a subscription made while open is in the table until it or the broadcaster is closed |
| `EventBroadcaster.ClosedSubscriptionIsOver` | internal/api/feedback_events.go:90-126 | a closed subscription is out of the table for good and is sent nothing more |
| `EventBroadcaster.FeedbackEventBroadcaster.Subscribe` | internal/api/feedback_events.go:42-59 | the subscribe step; nothing once closed |
| `EventBroadcaster.FeedbackEventBroadcaster.Broadcast` | internal/api/feedback_events.go:61-74 | the loop offers the event to every channel of the table |
| `EventBroadcaster.FeedbackEventBroadcaster.CloseSubscription` | internal/api/feedback_events.go:90-126 | removal and close, once |
| `EventBroadcaster.FeedbackEventBroadcaster.Close` | internal/api/feedback_events.go:76-88 | closes and forgets every subscriber, once |
| `Scheduler.TriggerIsNotLost` | internal/task/scheduler.go:49-57 | after a trigger either the token is still held or a run was started with a token |
| `Scheduler.TokenRunsNeverExceedTriggers` | internal/task/scheduler.go:49-57 | runs started by tokens, plus the held token, never exceed the triggers |
| `Scheduler.RunsOfALoopDoNotOverlap` | internal/task/scheduler.go:77-109 | between two starts of runs of one loop lies the end of the first |
| `Scheduler.WaitsAfterARun` | internal/task/scheduler.go:77-109 | a loop that has finished a run waits until it starts another or exits |
| `Scheduler.CancelledExactly` | internal/task/scheduler.go:31-75 | a loop is cancelled exactly when its context has ended or a Stop that took it has cancelled it |
| `Scheduler.LoopsEndOnlyWhenCancelled` | internal/task/scheduler.go:77-109 | a loop ends only when cancelled: no run, trigger or timer ends it |
| `Scheduler.StopReturnsAfterTheLastRun` | internal/task/scheduler.go:59-75 | once the Stop that took a loop has returned, that loop is in no run and never starts one |
| `Scheduler.EveryLoopHasOneOwner` | internal/task/scheduler.go:31-75 | in every run each loop is the current one or was taken by exactly one Stop, and is cancelled before that Stop waits |
| `Scheduler.OneLoopAliveExactly` | internal/task/scheduler.go:31-75 | in every run at most one loop is alive throughout if and only if every Start that launches a loop comes after all earlier loops have finished |
| `Scheduler.StartAfterStopsReturned` | internal/task/scheduler.go:31-75 | a caller that starts a loop only when every Stop that took one has returned never has two loops alive |
| `Scheduler.ReturnedStopsAreDone` | internal/task/scheduler.go:59-75 | in every run a Stop that has returned saw the loop it took finish |
| `Scheduler.StagesOfAStop` | internal/task/scheduler.go:59-75 | the stage of a Stop tells which of cancelling and returning has happened since it took its loop |
| `Scheduler.LoopsMayOverlap` | internal/task/scheduler.go:31-75 | a run in which a Start between the halves of a Stop leaves two loops running at once |
| `Scheduler.TaskScheduler.Launch` | internal/task/scheduler.go:31-47 | the start step; nothing while a loop is current |
| `Scheduler.TaskScheduler.Signal` | internal/task/scheduler.go:49-57 | the trigger step on the one-slot channel |
| `Scheduler.TaskScheduler.StopTake` | internal/task/scheduler.go:59-66 | Stop under the mutex: takes the current loop |
| `Scheduler.TaskScheduler.StopCancel` | internal/task/scheduler.go:67-75 | Stop after unlocking: cancels the loop it took |
| `Scheduler.TaskScheduler.Turn` | internal/task/scheduler.go:77-109 | one turn of the loop's select, by each of its arms |
| `Favicons.Collect` | pkg/favicon/service.go:36-79 | nothing for a blank origin; else the attempt is recorded, the fetch time exactly when an icon was found, the icon exactly when it was found and differs from the snapshot, and a notification exactly for a found icon that differs or was asked for |
| `Favicons.FoundIconIsHeld` | pkg/favicon/service.go:46-76 | after a fetch that found an icon the row holds that icon, its type up to case and this fetch time, whether or not it was rewritten |
| `Favicons.FailedFetchKeepsTheIcon` | pkg/favicon/service.go:46-56 | after one that found none the icon and its fetch time are what they were, and nobody is notified |
| `Favicons.NotifiedOfChanges` | pkg/favicon/service.go:58-76 | of a found icon the subscribers hear exactly when asked to, or when it is the first or differs |
| `Favicons.OtherOriginIsDue` | internal/api/site_favicon_manager.go:194-209 | columns for no origin or for another one are due and forced at any time, and what is forced is exactly what has no timed icon for this origin |
| `Favicons.ForcingBypassesOnlyTheRetryInterval` | internal/api/site_favicon_manager.go:194-209 | a forced fetch that would not be made unforced is exactly a retry within the retry interval of a site without icon |
| `SiteRegistry.OriginsStayDisjoint` | internal/api/admin.go:1324-1368 | in every run of create, update, delete and fetch steps the case-folded origins of distinct sites are disjoint, also through updates that skip the check |
| `SiteRegistry.UpdateKeepsDisjoint` | internal/api/admin.go:670-691 | the update step keeps them disjoint, whether the check runs or is skipped because only case changes |
| `SiteRegistry.SiteRegistry.AllowedOriginConflictExists` | internal/api/admin.go:1324-1368 | true exactly when another site lists one of the origins up to case |
| `SiteRegistry.SiteRegistry.CreateSite` | internal/api/admin.go:269-349 | answers and changes the rows as the create step says, with the source's order of refusals |
| `SiteRegistry.CreateEffect` | internal/api/admin.go:283-343 | a site is created exactly from a name, an origin text and an owner with valid widget settings when no site shares a word with the text up to case; it gets the trimmed text and empty icon columns for its first word |
| `SiteRegistry.SiteRegistry.UpdateSite` | internal/api/admin.go:626-754 | answers and changes the row as the update step says; a changed origin clears the icon columns |
| `SiteRegistry.UpdateEffect` | internal/api/admin.go:670-743 | an accepted update stores the new trimmed text; a change by more than case must be free of other sites' words and empties the icon columns, otherwise they stay; no other site changes |
| `SiteRegistry.SiteRegistry.DeleteSite` | internal/api/admin.go:756-797 | removes the row of a known site for its manager, else refuses |
| `SiteRegistry.DeleteEffect` | internal/api/admin.go:756-797 | deleting removes exactly that site, for its manager only |
| `SiteRegistry.SiteRegistry.BeginFetch` | internal/api/site_favicon_manager.go:294-327 | the worker's read and decision |
| `SiteRegistry.ForcedFetchEffect` | internal/api/site_favicon_manager.go:307-327 | a forced fetch is made for every site that has an origin, for its first word and from the row as it is |
| `SiteRegistry.SiteRegistry.FinishFetch` | internal/api/site_favicon_manager.go:328-357 | the worker's write to the named columns of the row, if it still exists, and its broadcast |
| `SiteRegistry.FoldedWords` | internal/api/admin.go:1333-1340 | the loop builds the set of words in lower case |
| `SiteRegistry.MeetsAny` | internal/api/admin.go:1355-1365 | true exactly when a word is in the set, up to case |
| `IconProvenance.IconsAreCurrentExactly` | internal/api/site_favicon_manager.go:294-344 | all through a run every stored icon is, byte for byte, what was fetched from the current primary origin up to case, if and only if no fetch writes an icon to a row whose primary origin has moved on |
| `IconProvenance.QuietRunsKeepIconsCurrent` | internal/api/admin.go:730-743 | it holds in every state if no site changes its origin while it is being fetched, so in particular when fetches are atomic |
| `IconProvenance.FinishKeepsIconsCurrentIff` | internal/api/site_favicon_manager.go:328-344 | the write step keeps it exactly when it is not stale |
| `IconProvenance.OverlapCanMislabelAnIcon` | internal/api/site_favicon_manager.go:294-344 | for any two distinct origins a run ends with the icon of the first on a site of the second, in a row that names the second as its source |
| `FetchSpacing.UnforcedFetchExactlyWhenDue` | internal/api/site_favicon_manager.go:424-442 | in every run an unforced fetch starts exactly when the columns are for another origin, or there is no icon and every fetch since they were cleared is at least the retry interval old, or there is one and every successful fetch is at least the refresh interval old |
| `FetchSpacing.HistoryDecides` | internal/api/site_favicon_manager.go:315-357 | without overlap this depends only on the fetches made since the origin last changed |
| `FetchSpacing.RowsAlwaysTell` | pkg/favicon/service.go:46-76 | in every run the two time columns of a row are the times of the latest fetch and of the latest successful one since the columns were cleared |
| `FetchSpacing.EventsCarryTheFetchTime` | internal/api/site_favicon_manager.go:342-357 | a completed fetch emits one event exactly when it stores an icon, or finds one and was asked to notify; its time is the fetch time persisted in the row and not earlier than any before; no other step emits |
| `DataUrl.ParseDataURL` | pkg/favicon/resolver.go:298-362 | the source's parser equals the reading by scheme, metadata and payload that the round trips are about |
| `DataUrl.ReadMetadata` | pkg/favicon/resolver.go:315-332 | the loop finds the media type of the first segment and whether any later segment is the flag |
| `DataUrl.AcceptedUrls` | pkg/favicon/resolver.go:298-362 | a text is accepted with an asset if and only if, up to outer space, it is scheme, metadata without comma, comma and payload, the payload decodes as the metadata says, and the asset is not empty, not too large and of a supported type |
| `DataUrl.EmbeddedIconIsRead` | pkg/favicon/resolver.go:298-376 | any bytes embedded under a supported type, padded or not, in any letter case of scheme and flag, are read back with their type |
| `DataUrl.EscapedIconIsRead` | pkg/favicon/resolver.go:334-345 | any bytes in percent escapes are read back with their type |
| `DataUrl.EscapeMeaning` | pkg/favicon/resolver.go:338 | an escape stands for the byte of its two digits in either letter case |
| `DataUrl.BadEscapeMeaning` | pkg/favicon/resolver.go:338-345 | a percent sign without two digits is an error |
| `DataUrl.PlainTextMeaning` | pkg/favicon/resolver.go:338-343 | text without escapes stands for itself |
| `DataUrl.SupportIgnoresCase` | pkg/favicon/resolver.go:378-396 | letter case and outer space of a media type do not matter |
| `DataUrl.ImagesAreSupported` | pkg/favicon/resolver.go:386-395 | every image type is supported and plain text pages are not |
| `DataUrl.DecodeBase64OfEncode` | pkg/favicon/resolver.go:364-376 | the fallback decoder reads both the padded and the unpadded encoding of any bytes |
| `DataUrl.PaddedReadingOfRaw` | pkg/favicon/resolver.go:370-375 | a padded reading of an unpadded encoding succeeds only when there is nothing to pad, and then agrees: trying it first is safe |
| `DataUrl.UrlIsTakenApart` | pkg/favicon/resolver.go:307-313 | metadata and payload are found again whatever they contain, if the metadata has no comma |
| `Subscriptions.RowsStayConsistent` | internal/api/public.go:359-427 | in every reachable state of all handlers pending, confirmed and unsubscribed rows have the timestamps their status promises, and there is at most one row for each site and normalized email |
| `Subscriptions.AddressesAreNormalized` | internal/model/subscriber.go:65-117 | in every reachable state every row has its site and its address in normalized form, so no two spellings of an address share a site |
| `Subscriptions.RowsKeepTheirIdentity` | internal/api/public.go:364-393 | a row keeps site and address for life and its identifier is never reused |
| `Subscriptions.ConfirmedAgainOnlyAfterResubmission` | internal/api/public.go:637-668 | without admin updates, an unsubscribed row is confirmed again only after a later resubmission of its own site and address |
| `Subscriptions.NoRevivalWithoutResubmission` | internal/api/public.go:474-500 | until such a resubmission the row stays unsubscribed or is deleted |
| `Subscriptions.NotifiedOncePerConfirmation` | internal/api/public.go:240-259 | for every subscriber, notifier calls equal the changes from pending to confirmed made by the POST and link routes while the site exists and notifications are on |
| `Subscriptions.StepNotifies` | internal/api/public.go:483-496 | each step calls the notifier for a subscriber exactly when it owes a call |
| `Subscriptions.SubscriptionHandlers.FindSubscriber` | internal/api/public.go:783-788 | returns the row of the site and normalized email, if any |
| `Subscriptions.SubscriptionHandlers.CreateSubscription` | internal/api/public.go:322-429 | answers and changes the rows as the public create step says |
| `Subscriptions.SubscriptionHandlers.CreateTestSubscription` | internal/api/site_subscribe_test_handlers.go:129-235 | the dashboard's entry into the same life cycle |
| `Subscriptions.ResubmitEffect` | internal/api/public.go:364-393 | through either entry, submitting an unsubscribed address takes its row back to pending with consent now and both end times cleared; any other existing row is a conflict and stays |
| `Subscriptions.SubmitEffect` | internal/api/public.go:395-427 | submitting a new address adds exactly one pending row, if and only if the address parses and nothing is too long |
| `Subscriptions.CreateRefusals` | internal/api/public.go:324-358 | a submission that is refused before that changes nothing and is not answered ok |
| `Subscriptions.SubscriptionHandlers.UpdateSubscriptionStatus` | internal/api/public.go:593-671 | confirm and unsubscribe by POST |
| `Subscriptions.MutateEffect` | internal/api/public.go:637-668 | a POST that is not refused leaves exactly the row of the site and the address unsubscribed now, or confirmed now if it was pending; an unsubscribed row is a conflict, and no other row changes |
| `Subscriptions.MutateRefusals` | internal/api/public.go:594-641 | a POST that is limited, from a forbidden origin, for an unknown site or address changes nothing and is not answered ok |
| `Subscriptions.SubscriptionHandlers.FollowLink` | internal/api/public.go:441-558 | confirm and unsubscribe by link |
| `Subscriptions.LinkEffect` | internal/api/public.go:474-558 | a link that reaches a row confirms it now if it is pending, or unsubscribes it now, and touches no other row; confirming an unsubscribed row is a conflict |
| `Subscriptions.LinkRefusals` | internal/api/public.go:442-472 | a link that reaches no row changes nothing and is not answered ok |
| `Subscriptions.SubscriptionHandlers.UpdateSubscriberStatus` | internal/api/admin.go:1118-1167 | the dashboard's status change |
| `Subscriptions.AdminUpdateEffect` | internal/api/admin.go:1130-1167 | the dashboard gives exactly the named row of the site the desired status and time, whatever it was, and refuses any other status |
| `Subscriptions.SubscriptionHandlers.DeleteSubscriber` | internal/api/admin.go:1169-1192 | the dashboard's deletion |
| `Subscriptions.AdminDeleteEffect` | internal/api/admin.go:1169-1192 | the dashboard deletes exactly the named row of the site |
| `Subscriptions.DashboardRefusals` | internal/api/admin.go:1194-1218 | without access, or for a row of another site, the dashboard changes nothing and does not answer ok |
| `Subscriptions.SubscriptionHandlers.ApplyNotification` | internal/api/public.go:240-259 | calls the notifier exactly for a confirmed row with notifications on |
| `Subscriber.NormalizingTwice` | internal/model/subscriber.go:65-117 | normalizing an address is idempotent, and trimming and lowering commute, so all handlers agree on it |
| `ConfirmationFlow.EmailedLinkWorks` | internal/api/subscription_confirmation.go:17-91 | the link for a row can always be built, and followed at any later point of any run it confirms exactly a pending row and unsubscribes any row while it lasts, and changes nothing once expired |
| `ConfirmationFlow.ReadBuiltLink` | internal/api/public.go:441-474 | the link handlers read from the emailed token exactly the row's identity, or refuse it when expired |
| `ConfirmationToken.ParseOfBuild` | internal/api/subscription_confirmation_token.go:28-107 | a token is built exactly from a secret and three fields that are not blank and a positive time to live, and parsing it with the same secret gives the trimmed lower-cased fields at every instant up to the expiry second, and refuses it as expired at every later one |
| `ConfirmationToken.ParseOfSigned` | internal/api/subscription_confirmation_token.go:59-90 | whatever bytes are signed with the secret are what the checks see: the split yields exactly the two segments |
| `ConfirmationToken.BuiltTokensAreUrlSafe` | internal/api/subscription_confirmation_token.go:54-56 | a built token holds only URL-safe characters and the separator |
| `ConfirmationToken.AcceptedTokensAreSigned` | internal/api/subscription_confirmation_token.go:65-80 | an accepted token has two segments, the second the encoded keyed hash of the first under the trimmed secret |
| `ConfirmationToken.SignatureCoversThePayload` | internal/api/subscription_confirmation_token.go:77-113 | the second segment of an accepted token decodes to the keyed hash of the first |
| `ConfirmationToken.OtherSignaturesAreRefused` | internal/api/subscription_confirmation_token.go:77-80 | two segments whose second is any other text are refused as a signature mismatch, whatever the first says |
| `ConfirmationToken.AcceptedPayloads` | internal/api/subscription_confirmation_token.go:92-106 | an accepted payload has three trimmed fields, the address in lower case, and a positive expiry that has not passed |
| `ConfirmationToken.AcceptanceOnlyExpires` | internal/api/subscription_confirmation_token.go:59-107 | a token that was ever accepted is accepted with the same payload at exactly the instants up to its expiry second, and refused as expired at all others |
| `ConfirmationToken.ReadMarshal` | internal/api/subscription_confirmation_token.go:20-53 | reading the printed payload gives back its four members |
| `ConfirmationToken.AssignMembers` | internal/api/subscription_confirmation_token.go:87-90 | assigning those members to an empty payload restores it |
| `ConfirmationToken.ServiceCodecIsSound` | internal/api/subscription_confirmation_token.go:20-26 | the field names in use are distinct up to case, so the codec's theorems apply to them with any keyed hash |
| `Json.QuoteRoundTrip` | internal/api/subscription_confirmation_token.go:49-52 | a printed JSON string is read back, with every escape of section 7 of RFC 8259 |
| `Json.NumberRoundTrip` | internal/api/subscription_confirmation_token.go:25 | a printed integer is read back as a JSON number |
| `Base64.DecodeOfEncode` | internal/api/subscription_confirmation_token.go:54-82 | decoding an encoding gives the bytes back, for both alphabets, with padding and without |
| `Base64.AlphabetMeaning` | internal/api/subscription_confirmation_token.go:54 | the symbols are the alphabets of RFC 4648, tables 1 and 2 |
| `Base64.GroupMeaning` | internal/api/subscription_confirmation_token.go:54 | three bytes and their four symbols are the same 24-bit number |
| `Base64.ShortGroupMeaning` | internal/api/subscription_confirmation_token.go:54 | one or two bytes are encoded as if zeros followed, without the symbols that padding replaces |
| `Base64.EncodedIsUrlSafe` | internal/api/subscription_confirmation_token.go:54-56 | the URL-safe form without padding holds no separator and needs no escaping |
| `Decimals.DecimalIsInjective` | internal/api/public.go:268-277 | distinct integers print differently |
| `Origins.KeptAreFirstSpellings` | internal/api/public.go:673-701 | deduplication keeps exactly the first spelling of every word up to case, in order of first appearance |
| `Origins.TokensKeepTheText` | internal/api/public.go:673-682 | splitting a list loses nothing but separators: its words are the text's other characters, in order |
| `Origins.ParseOfNormalized` | internal/api/admin.go:1253-1256 | parsing a normalized list gives the same list, which has no case variants, so normalizing is idempotent |
| `Origins.ParseOfMerged` | internal/api/public.go:711-741 | a merged list parses to the first occurrences of all words of both lists |
| `Origins.MergeAllows` | internal/api/public.go:711-769 | a request is allowed by the merge exactly when both lists are empty or some word of either, in any of its spellings, admits it |
| `Origins.AllowedIgnoresSpelling` | internal/api/public.go:743-781 | lists with the same words up to case admit the same requests |
| `Origins.SameTextUpToCase` | internal/api/admin.go:675-688 | texts equal up to case and outer space list the same origins and have the same primary origin, up to case |
| `Origins.PrimaryIsFirstWord` | internal/api/public.go:703-709 | the primary origin is the first word of the text, if it has one |
| `Origins.CollectAssociates` | internal/api/public.go:673-741 | deduplicating in two stages is deduplicating once |
| `Origins.KeepFirstOccurrences` | internal/api/public.go:683-700 | the loop shared by parsing and merging keeps the first occurrences |
| `Origins.ParseAllowedOrigins` | internal/api/public.go:673-701 | the parser returns the deduplicated words |
| `Origins.MergedAllowedOrigins` | internal/api/public.go:711-741 | the merger returns the joined first occurrences, through each of its early returns |
| `Origins.IsOriginAllowed` | internal/api/public.go:743-769 | allowed exactly when no origin is configured or some configured one equals the request's origin, referer or URL origin |
| `Origins.AllowedMeaning` | internal/api/public.go:743-781 | in terms of the URL parser alone: a list admits a request if and only if it is empty or some word has the scheme and the host, both up to case, of the request's origin, referer or URL |
| `Origins.SameNormalizedOrigin` | internal/api/public.go:771-781 | two texts have the same normalized origin if and only if both are URLs with the same scheme and host up to case |
| `Origins.SomeMatches` | internal/api/public.go:752-768 | the loop finds a configured origin that equals one of the request's three, if there is one |
| `RateLimiter.RateLimiter.IsRateLimited` | internal/api/public.go:268-277 | a call is limited exactly when the calls so far with its own address and window, itself included, exceed six; no other address or window has any influence |
| `RateLimiter.KeyIsInjective` | internal/api/public.go:269-270 | printed keys of distinct pairs of address and window differ, also when addresses contain colons |
| `RateLimiter.AdmittedPerWindow` | internal/api/public.go:275-276 | of any sequence of calls each address and window admits exactly the first six |
| `RateLimiter.SlidingWindowBound` | internal/api/public.go:268-277 | no span of thirty seconds admits more than twelve calls of an address |
| `RateLimiter.SpanBoundIsExact` | internal/api/public.go:268-277 | for every span of time, a limit on what it lets through of an address is kept by all call sequences if and only if it is at least six for each window the span meets |
| `RateLimiter.OneWindowExactly` | internal/api/public.go:268-277 | a span never lets more than six through exactly when it lies within one window |
| `RateLimiter.SlidingWindowExactly` | internal/api/public.go:268-277 | twelve is a bound for all spans of a length exactly when the length is at most thirty seconds |
| `RateLimiter.SlidingWindowIsTight` | internal/api/public.go:268-277 | twelve within one second, and eighteen within thirty-one, do occur |
| `VisitRollup.RollupsAreConserved` | internal/task/visit_rollup.go:35-89 | once a run of the job has aggregated, at any later point the row of the day before holds, for every site, the page views and unique visitors of all non-bot visits ever recorded that day, also after pruning, repeated runs and midnights inside the run |
| `VisitRollup.RunsStayValid` | internal/task/visit_rollup.go:45-89 | the invariant behind it holds in every run: days not pruned have all their visits, pruning stays before yesterday |
| `VisitRollup.UnprunedDaysAgree` | internal/task/visit_rollup.go:83-89 | rows of days that no pruning has reached also agree with the visits still stored |
| `VisitRollup.CutoffIsBeforeYesterday` | internal/task/visit_rollup.go:83-89 | with any positive retention the cutoff is at or before yesterday's midnight |
| `VisitRollup.VisitRollupJob.CollectVisit` | internal/api/visit_collector.go:44-116 | refuses a missing or unknown site and a forbidden origin, falls back from header to query and from URL to referrer, and stores a valid visit with the time of its collection |
| `VisitRollup.RequestedVisit` | internal/model/visit.go:56-93 | a visit is made exactly of a request with a site, a URL that parses, and no visitor or one of 36 characters |
| `VisitRollup.ReadRequest` | internal/api/visit_collector.go:57-78 | which of header and query gives referrer, URL and visitor |
| `VisitRollup.VisitRollupJob.AggregatePreviousDay` | internal/task/visit_rollup.go:45-81 | the loop upserts the row of every active site of the day before, in any order, and no other |
| `VisitRollup.VisitRollupJob.PruneOldVisits` | internal/task/visit_rollup.go:83-89 | deletes exactly the visits before the cutoff, nothing without retention |
| `VisitRollup.PruneDeletesExactly` | internal/task/visit_rollup.go:83-89 | a visit is kept, with its multiplicity, if and only if its day is at most the retention before today; the order stays, and without a retention everything is kept |
| `VisitTrend.ComputeVisitTrend` | internal/api/site_stats.go:196-243 | exactly the normalized number of consecutive ascending days ending today, each with its non-bot visits and named visitors |
| `VisitTrend.TrendMeaning` | internal/api/site_stats.go:230-242 | entry k is dated k days after the first and counts the non-bot visits of that day and their different visitors, blank ones aside |
| `VisitTrend.TrendTotal` | internal/api/site_stats.go:196-243 | the page views of a trend add up to the non-bot visits of its window, up to today |
| `VisitTrend.TrendAgreesWithRollup` | internal/api/site_stats.go:204-216 | for aggregated days not pruned trend and rollup show the same page views at every point of a run, and the same unique visitors if and only if no visit of the day lacks a visitor |
| `VisitTrend.UniqueVisitorsCanDiffer` | internal/api/site_stats.go:204-216 | for any site and page there is a run after which they do differ on an aggregated day |
| `VisitEngagement.AggregateRows` | internal/api/site_stats.go:442-467 | the streaming fold is the declarative group-by: one group for each visitor that is not blank, with the count, earliest and latest of exactly its own times |
| `VisitEngagement.GroupsIgnoreOrder` | internal/api/site_stats.go:442-467 | the groups do not depend on the order of the rows |
| `VisitEngagement.SumGroups` | internal/api/site_stats.go:472-483 | the loop over the groups, in any order, counts the rows of all visitors, the returning visitors, and the visitors in each bucket |
| `VisitEngagement.ReportsIgnoreOrder` | internal/api/site_stats.go:425-490 | the whole report does not depend on row or map order |
| `VisitEngagement.EngagementAddsUp` | internal/api/site_stats.go:469-490 | both distributions sum to the tracked visitors, returning visitors are tracked minus single-page ones, and the average is that of all rows with a visitor |
| `VisitEngagement.DepthMeaning` | internal/api/site_stats.go:502-514 | the depth buckets count the visitors seen once, two or three times, four to seven times and more often, and the returning ones are those seen more than once |
| `VisitEngagement.TimeMeaning` | internal/api/site_stats.go:516-528 | the time buckets count the visitors whose visits span less than thirty seconds, two minutes and ten minutes |
| `VisitEngagement.ComputeVisitEngagement` | internal/api/site_stats.go:425-490 | reports the non-bot visits of the site from the first day of the window on, and nothing for a blank site |
| `VisitEngagement.SelectedMeaning` | internal/api/site_stats.go:433-437 | the rows measured are exactly the site's visits with a visitor, not by bots and not before the first day, with multiplicity and in order |
| `VisitEngagement.ObservedMeaning` | internal/api/site_stats.go:530-539 | the observed time is the whole seconds between a visitor's earliest and latest visit |
| `VisitEngagement.RoundingMeaning` | internal/api/site_stats.go:541-543 | a rounded metric is the nearest whole number of hundredths, the upper one when halfway |
| `VisitEngagement.RoundingIsClose` | internal/api/site_stats.go:541-543 | rounding moves a metric by at most 0.005 |
| `VisitEngagement.RoundingIsMonotone` | internal/api/site_stats.go:541-543 | rounding never reverses the order of two metrics |
| `TopCounts.TopStats` | internal/api/site_stats.go:391-412 | the result is strictly ranked by count descending then value ascending, has the limit's or the table's length, holds entries of the table, and every omitted entry ranks after every kept one |
| `TopCounts.TopIsByCount` | internal/api/site_stats.go:402-411 | counts never increase along the list, entries of equal count are ordered by the first difference of their values, and nothing left out has a higher count than anything listed |
| `TopCounts.LessMeaning` | internal/api/site_stats.go:404 | values are compared by the first position at which they differ |
| `TopCounts.TopIsUnique` | internal/api/site_stats.go:391-412 | there is only one such list, so map order and sorting algorithm do not show |
| `TopCounts.RanksIsTotal` | internal/api/site_stats.go:402-407 | two different entries are always ranked one way or the other |
| `TopCounts.RanksIsTransitive` | internal/api/site_stats.go:402-407 | the ranking is transitive |
| `TopCounts.RanksIsStrict` | internal/api/site_stats.go:402-407 | no two entries rank before each other |
| `TopCounts.TallyCounts` | internal/api/site_stats.go:300-308 | the table counts the occurrences of each value and has no other |
| `TopCounts.TopAccounts` | internal/api/site_stats.go:391-412 | the listed counts never exceed the number of rows, and equal it if and only if nothing was cut off |
| `VisitAttribution.ComputeVisitAttribution` | internal/api/site_stats.go:284-315 | each list ranks the attributions of all non-bot visits of the site in its dimension |
| `VisitAttribution.TallyRows` | internal/api/site_stats.go:300-308 | the one loop fills the three tables with the tallies of the resolved rows |
| `VisitAttribution.EachListAccountsForTheRows` | internal/api/site_stats.go:300-314 | each of the three lists sums to the number of rows if and only if nothing was cut off |
| `VisitAttribution.BreakdownIgnoresOrder` | internal/api/site_stats.go:300-314 | the breakdown does not depend on the order of the rows |
| `VisitAttribution.AttributionsAreLabels` | internal/api/site_stats.go:327-389 | every attributed value is not empty, at most 120 characters and in lower case, whatever the URL and referrer |
| `VisitAttribution.TagDecides` | internal/api/site_stats.go:334-353 | a tag of the page decides its own dimension and no other |
| `VisitAttribution.ReferrerDecides` | internal/api/site_stats.go:335-353 | without a tag the referring host is the source and "referral" the medium, without a host both are "direct", and an untagged campaign is "none" |
| `VisitAttribution.NormalizedMeaning` | internal/api/site_stats.go:380-389 | a value is stored trimmed and in lower case, cut at 120 characters |
| `VisitAttribution.SelectedMeaning` | internal/api/site_stats.go:291-296 | the rows attributed are exactly the site's visits that are not by bots, with multiplicity and in order |
| `VisitAttribution.NormalizingTwice` | internal/api/site_stats.go:380-389 | normalizing again changes nothing, except exactly when the cut at 120 leaves a space at the end |
| `VisitAttribution.NormalizingTwiceCanDiffer` | internal/api/site_stats.go:380-389 | there is a value that changes |
| `Base64.ValueMeaning` | internal/api/subscription_confirmation_token.go:82 | a character has a value exactly when it is that value's symbol |
| `Hex.DigitMeaning` | pkg/favicon/resolver.go:338 | a character reads as a value exactly when it is that hexadecimal digit in either letter case |
| `ConfirmationToken.UnixMeaning` | internal/api/subscription_confirmation_token.go:47 | Unix time is the whole seconds, rounded down |
| `DataUrl.ContainsMeaning` | pkg/favicon/resolver.go:389-394 | a text contains another exactly when it is that text between two others |
| `VisitAttribution.TrimPrefixMeaning` | internal/api/site_stats.go:376 | a prefix is taken off exactly where it stands |
| `Text.LowerMeaning` | internal/api/public.go:690 | exactly the capital letters change, to the letter at the same place of the alphabet |
| `Text.TrimMeaning` | internal/api/public.go:674 | trimming takes white space off both ends, and all of it |
| `Text.SplitMeaning` | internal/api/subscription_confirmation_token.go:66 | the pieces hold no separator, and joined with it they are the text |

## Left out

- Concurrency inside a database handler: each handler is one atomic step with successful saves, and the clock is monotone; only the favicon worker's read and write are separate steps.
- Failing queries and saves, and the responses they cause.
- `Where(...).Assign(...).FirstOrCreate(...)` in internal/task/visit_rollup.go:73-76 is assumed to insert or overwrite the row of the site and date, although the value passed already carries a fresh identifier.
- A visit is stored in the same step that reads its time; a visit stored after the midnight that follows its time is not modelled.
- Channels are identifiers into a table of buffers, so aliasing of channel values is not modelled.
- FaviconSubscribers.SubscriberTable.BroadcastAlone: is the broadcast that nobody disturbs; readers and closers between two of its sends are covered by the step relation and the theorems on runs.
- TopCounts.SortEntries: stands for the library sort by an insertion sort; any sort gives the same list, by TopCounts.TopIsUnique.
- Strings are ASCII, so lowering and case folding agree; lengths and truncation count characters.
- JSON: nested values, fractions, exponents, surrogate pairs and bytes outside ASCII are not read; integers are not limited to 64 bits.
- Integers, times and counters are unbounded; floating-point numbers are reals.
- url.Parse, mail.ParseAddress, HMAC-SHA256, HTTP fetching and HTML parsing are parameters or outcomes; CaseBlind, and PlainSchemes (no colon in a scheme), are what Origins assumes of URL parsing.
- The limiter and the origin decision enter the subscription handlers as their answers `limited` and `originAllowed`; they are proved on their own.
- Events recorded for the dashboard's subscription test, the success of notifier calls and of emails, and subscription notifications of feedback.
- SiteRegistry.SiteRegistry.CreateSite: name, owner, widget settings and the secondary origin lists are checked but not stored; the sanitizers of side and offset are one verdict `widgetValid` with one refusal.
- SiteRegistry.SiteRegistry.UpdateSite: the same columns are not stored and the same refusals are one.
- SiteRegistry.SiteRegistry.DeleteSite: the feedback rows of the site, deleted in the same transaction, are not part of this model.
- DATE text parsing in the trend, IP and user-agent fields, user-agent classification, top pages and the plain counters of the dashboard: single queries without a deep property.
- Truncation of stored strings other than attribution values.
- Routing, sessions, cross-origin headers, server-sent event framing, the gRPC notifier, configuration, browser scripts: plumbing around the state machines above.
