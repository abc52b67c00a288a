# Event delivery between the farm services, verified

The platform's services keep separate databases consistent by passing events:
`auth` and `farms` write an event row in the same transaction as the domain
row, a relay drains that outbox into RabbitMQ, an interceptor acks, retries or
parks what consumers were handed, and the consumers (`tracing`, the user
projection in `farms`) are written so that repeated deliveries do no harm. This
project models that protocol and the stateful services around it, and proves
what it does and does not guarantee.

## How the model is built

Every asynchronous protocol is a labelled machine (`Runs`): a state, and labels
whose order the environment chooses. A label is one await of the source
(a query, a publish, a commit, a Redis command), or something that happens to
it: a publish that throws (with or without the broker having taken the message),
a rolled-back transaction, a process that dies, a key that expires, time that
passes. Theorems are about every run. Code that works by changing an object is
also a class whose methods are proved against a function, and that function is
connected to the machine by a lemma saying that a call nothing interrupts is a
run (`DrainRefinement.DrainOnceIsRun`, `TracingService.RecordEventIsRun`,
`TokenService.RefreshTokenIsRun`, `AuthAccounts.CallIsRun`,
`FarmRuns.ServeIsRun`, `ReportService.CallIsRun`).

| modules | part of the system |
|---|---|
| `Envelope`, `Relay`, `RelayService`, `DrainRefinement`, `RelayMessages`, `DrainProgress` | outbox rows, the trace carrier in the payload, the relay with any number of replicas |
| `Broker`, `Interceptor`, `Topology` | one event queue with its retry queue and dead-letter queue, the retry decision, the queue graph |
| `Tracing`, `TracingOnce`, `TracingLimits`, `TracingService` | farms outbox to tracing history, with its Redis claims |
| `Projection`, `Convergence`, `ProjectionLimits` | auth outbox to the `user_projection` table in farms |
| `AuthUsers`, `AuthAccounts`, `EndToEnd` | registration, profile updates, password-reset requests; the whole way from auth's row to farms' read model |
| `Keys`, `Redis`, `Tokens`, `TokenService` | key strings, the store with expiry, refresh-token rotation |
| `FarmData`, `FarmMachine`, `FarmSafety`, `FarmEvents`, `FarmCalls`, `FarmServices`, `FarmRuns` | farms, crops, activities, harvests and their ownership checks |
| `FarmsToTracing` | the whole way from a crop, activity or harvest to its document |
| `Report`, `ReportCache`, `ReportContent`, `ReportExact`, `ReportService`, `ReportLimits`, `FarmerCsv` | cached reports, grouping by owner, the farmer CSV |

## What holds only under a condition

- **Projection.** A failed row does not stop later rows of the batch, and the
  upsert carries no version, so an older profile can arrive after a newer one.
  `ConvergesIffNotOvertaken` gives the exact condition: at rest, the projection
  of a user none of whose events was dropped is their newest event if and only
  if no drain committed that event while an older one of theirs stayed pending;
  `OvertakenOnlyByFailedPublish` says this needs a failed publish of the older
  row in the same batch. Crashed drains, replayed batches, consumer crashes and
  other users' failures never matter. Hypotheses: one relay replica, one farms
  consumer, rows commit in id order (auth handles one request at a time; every
  deployment file runs one replica). `FailedFanOutLeavesStale` and
  `DroppedEventIsMissing` show that the two conditions are needed: farms
  configures neither retry nor dead-letter queue, so a failed event there is
  dropped.
- **Recording.** The comment in `recordEvent` says that the claim is rolled back
  so that a failure cannot swallow an event. A consumer that dies between claim
  and save, or whose rollback fails, does leave a claim that makes the
  redelivery skip. `RecordedIffNotOrphaned` is the exact condition: at rest, a
  published event that was not dead-lettered is stored if and only if its key
  was not orphaned; `EverythingRecorded` says that only those two steps orphan a
  key, deaths anywhere else included in the runs; `OrphanSwallowsEvent` loses an
  event from every state in which the last copy is with a consumer.
- **At most one document.** A second document for a key needs an expiry of that
  very key's claim while its event could still be delivered
  (`AtMostOneDocument`); from every state in which a consumer is about to save,
  such an expiry gives one (`EarlyExpiryDuplicates`). No-loss does not need it.
- **Check then act.** `refreshToken` and `createHarvest` are safe because one
  consumer handles one message at a time and acks afterwards.
  `TwoConsumersSplitALogin` and `TwoConsumersHarvestTwice` turn any usable token
  and any harvestable crop into a violation once there are two.
- **Reports.** One report is read with several queries, so it need not be the
  report of any single database state. `ExactIffSameSlice` is the exact
  condition: it is the report of a state if and only if that state agrees with
  what the queries saw on the rows of the report's scope. So writes to one table
  only, or to tables it does not read, never tear it (`OneTableWritesNeverTear`),
  and a change of a farmer's farms together with a change below them, between
  the reads, always does (`ChangesBetweenReadsTear`).
- **Refresh tokens.** The comment on `issueRefreshToken` says that the new token
  is the only valid one. It is the only one of its login; logins of the same
  user are independent, and the model follows the code.
- **Seeded administrator.** The start-up seed writes users without an event
  (`apps/auth/src/db/user.seed.ts`), so claims about announced users exclude
  the users it created or changed.
- **Unchanged keys and columns.** Update payloads are taken to carry columns of
  the entity only, as the gateway's validation enforces; domain payloads do not
  use the reserved key `_trace` (`RoundTripIffKeyUnused` shows this is exactly
  what the round trip needs). The clocks of auth and Redis agree.

## Model

| member | source | states |
|---|---|---|
| Envelope.RoundTripIffKeyUnused | libs/common/src/outbox/outbox.service.ts:26-35 | what a target receives equals what the producer enqueued, with or without a trace, exactly for payloads that do not use the reserved key; every other key always survives |
| Envelope.TraceSurvives | libs/common/src/outbox/base-outbox-relay.service.ts:97-103 | the relay publishes under the trace context of the producing request, none if there was none, and different contexts are never confused |
| RelayService.Outbox.Enqueue | libs/common/src/outbox/outbox.service.ts:16-36 | adds one pending row with a fresh, larger id whose stripped payload is the domain payload |
| RelayService.Outbox.SelectPending | libs/common/src/outbox/base-outbox-relay.service.ts:70-81 | the batch is the at most 20 smallest unlocked pending ids in ascending order |
| RelayService.OutboxRelay.Drain | libs/common/src/outbox/base-outbox-relay.service.ts:44-57 | runs unless switched off or already draining, and the flag is as before afterwards even when the drain throws |
| RelayService.OutboxRelay.DrainOnce | libs/common/src/outbox/base-outbox-relay.service.ts:66-134 | messages sent, rows marked and attempts bumped, and the count; wherever the transaction dies, between rows, between the targets of one row or at its commit, the table is restored and no message is recalled |
| RelayService.OutboxRelay.PublishBatch | libs/common/src/outbox/base-outbox-relay.service.ts:85-128 | each row of the batch is tried in order, a failed or unrouted row does not stop the later ones |
| RelayService.OutboxRelay.PublishRow | libs/common/src/outbox/base-outbox-relay.service.ts:100-110 | the row goes to its targets one after another up to the first that throws, whether or not the broker took that message |
| RelayService.BatchEffectSets | libs/common/src/outbox/base-outbox-relay.service.ts:85-127 | a batch marks exactly the rows all of whose targets were reached and bumps exactly those with a target that threw |
| RelayService.DrainOutcome | libs/common/src/outbox/base-outbox-relay.service.ts:105-127 | a committed drain raises attempts by exactly one for the rows of its batch with a target that threw, marks the others that have a target, and touches no other row or column |
| Relay.SelectTakesSmallest | libs/common/src/outbox/base-outbox-relay.service.ts:74-81 | a batch is increasing, holds the smallest candidates, and is short only when they run out |
| Relay.InvStep | libs/common/src/outbox/base-outbox-relay.service.ts:66-133 | every step of every replica keeps locks disjoint, locked rows pending, and the copy counts of each row within their bounds |
| Relay.RelaySafety | libs/common/src/outbox/base-outbox-relay.service.ts:59-133 | over every run with any number of replicas and crashes: rows locked by different drains are disjoint and pending; each target of a published row has a copy; earlier targets never lag later ones; copies per target are at most one plus failed tries plus rolled-back drains plus an open try |
| RelayMessages.OnlyItsTargets | libs/common/src/outbox/base-outbox-relay.service.ts:59-110 | over every run each message sent goes to a target of its row's pattern with the row's own stripped payload, the copies counted are the messages sent, and a published row reached every target of its pattern and no other |
| RelayMessages.AuthEventsReach | apps/auth/src/outbox/auth-outbox-relay.service.ts:31-35 | over every run of auth's relay registrations go to farms and notifications, profile updates to farms alone, reset tokens to notifications alone, and a published event has reached each of those |
| Relay.RowsPersist | libs/common/src/outbox/base-outbox-relay.service.ts:111-121 | over every run no row is removed, rewritten or put back to pending, and attempts only grow |
| DrainRefinement.DrainOnceIsRun | libs/common/src/outbox/base-outbox-relay.service.ts:66-134 | a whole drain, committed or dying anywhere, is a run of the relay machine with the same table and the same messages in the same order |
| DrainProgress.ProgressBound | libs/common/src/outbox/base-outbox-relay.service.ts:74-95 | with p < 20 unpublishable rows, k drains leave at most max(0, n - k(20 - p)) of n publishable rows, whatever younger rows arrive in between; the bound is stated with the number 20 |
| DrainProgress.BacklogClears | libs/common/src/outbox/base-outbox-relay.service.ts:74-95 | enough drains publish every publishable row of a backlog |
| DrainProgress.Starvation | libs/common/src/outbox/base-outbox-relay.service.ts:9-9 | when the 20 oldest pending rows cannot be published, no number of drains publishes any row |
| Interceptor.RmqReliabilityInterceptor.Intercept | libs/common/src/interceptors/rmq-reliability.interceptor.ts:48-69 | every completed delivery on the bus is settled exactly once: ack with unchanged queues on success and for RPC errors; for a failed event with n retries behind it, one message more on the retry queue with counter n + 1 while n is below the limit (3 by default), else one on the dead-letter queue as it was, else nothing queued and rejection; the error is rethrown; other contexts are untouched |
| Interceptor.RmqReliabilityInterceptor.HandleEventFailure | libs/common/src/interceptors/rmq-reliability.interceptor.ts:71-94 | the same three outcomes for a failed event: which queue grows, by which message at its end, no other queue changed, and ack or rejection |
| Interceptor.FailureOutcome | libs/common/src/interceptors/rmq-reliability.interceptor.ts:71-94 | for every message, counter and configuration: with a retry queue and retries left exactly the retry queue grows, by one message with the same content, the counter one higher and all other headers equal; otherwise exactly the dead-letter queue, by the message with its headers; otherwise no queue changes and the delivery is rejected |
| Interceptor.RetriesCounted | libs/common/src/interceptors/rmq-reliability.interceptor.ts:71-100 | the counter rises by one per failure, content and other headers stay, and a fresh event is retried exactly maxRetries times before it is dead-lettered |
| Interceptor.DroppedIffUnconfigured | libs/common/src/interceptors/rmq-reliability.interceptor.ts:85-90 | a failed event is dropped exactly when no dead-letter queue is configured and no retry is left or configured; otherwise its content is queued |
| Topology.BrokerTopology.AssertRetryTopology | libs/common/src/rmq/retry-topology.ts:28-62 | succeeds exactly when none of the three queues exists with other arguments; then the retry queue expires after the backoff into the requeue exchange under the main queue's name, the other two take no arguments, the main queue is bound under its own name, and everything else is as before |
| Topology.RetryReturnsHome | libs/common/src/rmq/retry-topology.ts:41-58 | however many services share the requeue exchange, a message expiring in a retry queue reaches its own main queue and no other |
| Topology.Redeclare | libs/common/src/rmq/retry-topology.ts:28-62 | declaring again changes nothing, and succeeds only with the same backoff |
| Broker.Conservation | libs/common/src/interceptors/rmq-reliability.interceptor.ts:58-93 | over every run no copy of an event disappears; only a death between republish and ack adds one; with a dead-letter queue nothing is dropped; handlings equal retries plus crashes plus the current one |
| Broker.CrashFreeConservation | libs/common/src/interceptors/rmq-reliability.interceptor.ts:58-93 | in crash-free runs each published event is in exactly one place once, and no copy is handled more than maxRetries + 1 times |
| Broker.RetriesTerminate | libs/common/src/interceptors/rmq-reliability.interceptor.ts:71-100 | whichever handlers fail, a crash-free run without new events is bounded, and where it ends main, retry and consumers are empty and each event is processed, dead-lettered or (unconfigured) dropped |
| Broker.NeverStuck | libs/common/src/interceptors/rmq-reliability.interceptor.ts:58-93 | while anything is queued or unacked some step other than a crash is possible |
| Tracing.NoLoss | apps/tracing/src/tracing.service.ts:28-53 | in every reachable state each committed event is pending, queued or being handled, dead-lettered, stored, or its key was orphaned between claim and save |
| Tracing.CoveredStep | apps/tracing/src/tracing.service.ts:31-53 | once sent, an event stays covered by every kind of step, expiring claims included |
| Tracing.EverythingRecorded | apps/tracing/src/tracing.service.ts:40-53 | without a death between claim and save and without a failed rollback no run has an orphan, deaths anywhere else included, and at rest each committed event is stored or dead-lettered |
| Tracing.ThreeRetriesThenParked | apps/tracing/src/main.ts:15-16 | over every run of the tracing pipeline nothing is dropped, an event in the dead-letter queue was retried exactly 3 times, and a copy is handled at most 4 times more than its consumers died |
| TracingOnce.RecordedIffNotOrphaned | apps/tracing/src/tracing.service.ts:31-53 | at rest a published event that was not dead-lettered is stored if and only if its key was not orphaned |
| TracingOnce.AtMostOneDocument | apps/tracing/src/tracing.service.ts:24-54 | under any interleaving of deliveries, retries, failed saves, re-sends and expiries, two documents for one event type and entity need an expiry of that key's claim while its event could still be delivered; each document carries a committed payload |
| TracingOnce.KeyPresentIffTaken | apps/tracing/src/tracing.service.ts:31-52 | while its claim does not expire a key is present exactly when there is one claimant, one document or an orphan claim, and only one of the three |
| TracingLimits.OrphanSwallowsEvent | apps/tracing/src/tracing.service.ts:31-41 | from any state in which a consumer holds the last copy of an unclaimed event, a death between claim and save loses it |
| TracingLimits.EventLost | apps/tracing/src/tracing.service.ts:31-41 | such a state is reached: a run from nothing that ends with a published event neither queued nor stored |
| TracingLimits.EarlyExpiryDuplicates | apps/tracing/src/tracing.service.ts:14-14 | from any state in which a consumer is about to save, an expiry of its claim before the redelivery stores the event twice |
| FarmsToTracing.RecordedExactlyOnce | apps/tracing/src/tracing.service.ts:24-54 | farms, relay, broker and tracing as one machine: at rest each crop, activity and harvest ever committed, unless its key was orphaned or its event dead-lettered, has exactly one document, of its kind's pattern and type and its own entity id, whose cropId is the crop's own id or the row's parent, farmId that crop's farm, userId that farm's owner, and payload the row's id |
| TracingService.TracingService.RecordEvent | apps/tracing/src/tracing.service.ts:24-54 | store, collection and reply after a call: skip when the key is alive, else claim for a day and save, rolling the claim back when the save fails |
| TracingService.RecordEventIsRun | apps/tracing/src/tracing.service.ts:24-54 | an undisturbed call over the real key strings is a run of the machine with the same documents, claims and verdict |
| TracingService.SecondCallSkips | apps/tracing/src/tracing.service.ts:31-38 | after a stored event no call for the same event type and entity stores again for a day, whatever happens to other keys |
| TracingService.RetryGetsThrough | apps/tracing/src/tracing.service.ts:50-53 | a failed, rolled-back save leaves the key free and the next attempt stores the event |
| Keys.NoTwoSlotsShareAKey | apps/farms/src/report/report.service.ts:15-16 | report scopes, refresh tokens and idempotency claims never share a Redis key with anything but themselves |
| Keys.RefreshKeyInjective | apps/auth/src/auth.service.ts:43-45 | user and token id can be read back from the key, whatever the token id contains |
| Keys.IdemKeyInjective | apps/tracing/src/tracing.service.ts:25-26 | event type and entity id, or its absence, can be read back from the key |
| Redis.RedisService.SetWithTtl | libs/common/src/services/redis.service.ts:19-25 | overwrites the key and restarts its time to live |
| Redis.RedisService.SetIfAbsent | libs/common/src/services/redis.service.ts:32-39 | sets the key, and says so, exactly when nothing live is there |
| Redis.RedisService.Exists | libs/common/src/services/redis.service.ts:41-43 | true exactly while the key is alive |
| Redis.LivesExactly | libs/common/src/services/redis.service.ts:19-47 | a key shows its value until exactly its expiry and nothing after, through any other commands, competing set-if-absent included |
| Convergence.ConvergesIffNotOvertaken | apps/farms/src/user-projection/user-projection.service.ts:16-27 | at rest the projection of a user with no dropped event is their newest event if and only if that event was not published ahead of an older one, whatever crashed, was replayed or failed for others |
| Convergence.OvertakenOnlyByFailedPublish | libs/common/src/outbox/base-outbox-relay.service.ts:105-127 | a user is overtaken only by a drain that commits their newest event with a failed publish of an older one in the same batch |
| Convergence.ConvergesWithoutFailures | apps/auth/src/outbox/auth-outbox-relay.service.ts:31-35 | when no publish fails, every run that comes to rest leaves every user with no dropped event at their newest event |
| Convergence.InvStep | libs/common/src/outbox/base-outbox-relay.service.ts:74-127 | what every step keeps: who was sent last, who is settled, who is overtaken |
| ProjectionLimits.FailedFanOutLeavesStale | apps/auth/src/outbox/auth-outbox-relay.service.ts:31-35 | a run with one failed fan-out target that rests with the old profile in farms |
| ProjectionLimits.DroppedEventIsMissing | libs/common/src/interceptors/rmq-reliability.interceptor.ts:85-90 | a run in which a failed farms handler leaves the user missing though nothing was overtaken |
| EndToEnd.FarmsShowsAuthsProfile | apps/farms/src/user-projection/user-projection.service.ts:16-27 | auth and the pipeline as one machine: at rest farms holds, for each announced user, not overtaken and with no dropped event, their id and under each of firstName, lastName, email and rol what auth stores in that column, null where it stores none, and nothing else |
| AuthUsers.RegistrationAtomicity | apps/auth/src/auth.service.ts:81-111 | over every run each user the seed did not create has exactly one creation event, every creation event has such a user, and e-mails are unique |
| AuthUsers.NewestEventIsProfile | apps/auth/src/auth.service.ts:221-250 | with one consumer a user's newest event always carries their id and, each under its own name, the four profile columns of their row, and nothing else |
| AuthAccounts.AuthService.Register | apps/auth/src/auth.service.ts:81-125 | refused exactly for a taken e-mail; otherwise exactly the given columns with the hashed password are stored under a new id and announced, column by column, as user.created, together or not at all; the reply has no password |
| AuthAccounts.AuthService.UpdateUserInfo | apps/auth/src/auth.service.ts:221-250 | refused for an unknown user; given columns win and the others stay; the row is announced as stored, column by column, in the same transaction, which fails when another user has the resulting e-mail |
| AuthAccounts.AuthService.CopyKeys | apps/auth/src/auth.service.ts:229-233 | the key-copy loop leaves the update's values on its keys and the user's on all others |
| AuthAccounts.AuthService.ForgotPassword | apps/auth/src/auth.service.ts:264-303 | an unknown e-mail gets the same reply and changes nothing; otherwise the token is stored on that user's row alone and sent with the e-mail in one reset event, both or neither |
| AuthAccounts.AuthService.TokenUser | apps/auth/src/auth.service.ts:159-163 | the user signed into tokens lacks exactly the five deleted fields |
| AuthAccounts.CallIsRun | apps/auth/src/auth.service.ts:100-111 | an undisturbed call is a run of the accounts machine with the tables the method promises |
| AuthAccounts.CalledFacts | apps/auth/src/auth.service.ts:100-111 | for each of the three calls exactly when it is refused, what it stores in which columns, that no other row changes, and that its one new event carries each stored column under its own name (or e-mail and token for a reset); a call that fails changes no user and records nothing |
| Tokens.UsableUntilJwtExpiry | apps/auth/src/auth.service.ts:47-60 | in every run a stored token passes both checks exactly while it has not been traded in and its JWT has not expired |
| Tokens.RotationConserves | apps/auth/src/auth.service.ts:173-206 | with one consumer each login has exactly one turn (an open token or the handler minting it), none once a handler died with it; at most one open token per login; no token id accepted twice |
| TokenService.AuthService.IssueRefreshToken | apps/auth/src/auth.service.ts:48-60 | the minted token carries the user and the given id and expires 604800 seconds later, and its own Redis key lives as long, other keys untouched |
| TokenService.AuthService.RefreshToken | apps/auth/src/auth.service.ts:173-206 | accepted exactly for a genuine, unexpired token whose key is alive; none given, invalid or expired, and revoked each have their own answer and change nothing |
| TokenService.RotationSwapsTokens | apps/auth/src/auth.service.ts:196-198 | after a rotation the old token is refused, the new one accepted, every other token fares as before |
| TokenService.RefreshTokenIsRun | apps/auth/src/auth.service.ts:173-206 | an undisturbed call is a run of the rotation machine with the method's store |
| TokenService.TwoConsumersSplitALogin | apps/auth/src/auth.service.ts:191-198 | with two consumers any usable token can be traded in twice, leaving two open tokens of one login |
| FarmSafety.InvStep | apps/farms/src/db/migrations/1785100000000-FarmsInitialSchema.ts:7-29 | every step keeps links, foreign keys, unique farm names and what handlers have checked |
| FarmSafety.LinksNeverChange | apps/farms/src/ownership/ownership.service.ts:40-95 | over every run owners and parent links never change, even for a row removed and saved back; no foreign key dangles; farm names stay unique per owner |
| FarmSafety.Isolation | apps/farms/src/ownership/ownership.service.ts:40-95 | requests of other users, however they interleave and fail, change, remove and attach nothing in a user's tree |
| FarmEvents.OutboxAtomicity | apps/farms/src/crops/crops.service.ts:34-49 | over every run each crop, activity and harvest committed has exactly one event naming its true crop, farm and owner, every event has such a row, and deletes take none back |
| FarmEvents.OneHarvestPerCrop | apps/farms/src/harvests/harvests.service.ts:24-50 | with one consumer no run gives a crop a second harvest |
| FarmRuns.TwoConsumersHarvestTwice | apps/farms/src/harvests/harvests.service.ts:29-50 | with two consumers any crop that can be harvested can be harvested twice |
| FarmRuns.ServeIsRun | apps/farms/src/crops/crops.service.ts:26-97 | an undisturbed service call is a run of the machine with the database the method promises |
| FarmRuns.ServeFacts | apps/farms/src/farms/farms.service.ts:23-99 | for every operation the exact reply and the exact write: which refusal (not found, forbidden, conflict, rejected) in which case, the columns a created or updated row has afterwards, that a deleted row is gone, which event is recorded; no other row changes and no row changes owner or parent |
| FarmEvents.FromEmptyDatabase | apps/farms/src/db/migrations/1785100000000-FarmsInitialSchema.ts:7-29 | from the empty database every run keeps keys, names and the one event per creation, and one harvest per crop with one consumer |
| FarmServices.OwnershipService.AssertFarmOwner | apps/farms/src/ownership/ownership.service.ts:40-47 | the farm when its row names the user, forbidden when it does not, not found without a row |
| FarmServices.OwnershipService.AssertCropOwner | apps/farms/src/ownership/ownership.service.ts:49-59 | the crop when the chain of relations ends at the user, forbidden when it ends elsewhere or is broken |
| FarmServices.OwnershipService.AssertLeafOwner | apps/farms/src/ownership/ownership.service.ts:61-89 | the same for activities and harvests, one relation deeper |
| FarmServices.CropsService.CreateCrop | apps/farms/src/crops/crops.service.ts:26-56 | not found or forbidden without an owned farm; else the crop with the given columns and its event, both or neither |
| FarmServices.CropsService.UpdateCrop | apps/farms/src/crops/crops.service.ts:73-83 | the owned crop gets the given columns, its farm stays |
| FarmServices.CropsService.DeleteCrop | apps/farms/src/crops/crops.service.ts:85-97 | removes an owned crop unless rows refer to it |
| FarmServices.ActivitiesService.CreateActivity | apps/farms/src/activities/activities.service.ts:23-49 | not found or forbidden without an owned crop; else the activity with the given columns and its event, both or neither |
| FarmServices.ActivitiesService.UpdateActivity | apps/farms/src/activities/activities.service.ts:66-83 | the owned activity gets the given columns, its crop stays |
| FarmServices.ActivitiesService.DeleteActivity | apps/farms/src/activities/activities.service.ts:85-101 | removes an owned activity |
| FarmServices.HarvestService.IsCropHaveHarvest | apps/farms/src/harvests/harvests.service.ts:140-146 | true exactly when a harvest refers to the crop |
| FarmServices.HarvestService.CreateHarvest | apps/farms/src/harvests/harvests.service.ts:24-57 | as for activities, and refused when the crop has a harvest |
| FarmServices.HarvestService.UpdateHarvest | apps/farms/src/harvests/harvests.service.ts:91-105 | the owned harvest gets the given columns, its crop stays |
| FarmServices.HarvestService.DeleteHarvest | apps/farms/src/harvests/harvests.service.ts:76-89 | removes an owned harvest |
| FarmServices.FarmsService.CreateFarm | apps/farms/src/farms/farms.service.ts:23-43 | stores owner, name and columns as given; refused exactly when the owner has a farm of that name |
| FarmServices.FarmsService.UpdateFarm | apps/farms/src/farms/farms.service.ts:58-84 | given columns replace the farm's and the others stay; refused when any other farm, of whatever owner, has the non-empty new name |
| FarmServices.FarmsService.DeleteFarm | apps/farms/src/farms/farms.service.ts:86-99 | removes an owned farm unless crops refer to it |
| Report.GroupByOwner | apps/farms/src/report/report.service.ts:103-132 | the Map loop computes one group per owner in first-occurrence order with the owner's farms in order |
| Report.GroupingPartitions | apps/farms/src/report/report.service.ts:103-145 | owners distinct and in first-occurrence order, no empty group, each farm in its own owner's group, profile or bare id, and all groups together a permutation of the input |
| Report.OwnedByIsSubsequence | apps/farms/src/report/report.service.ts:112-129 | a group holds exactly the owner's farms in their original order |
| ReportCache.AnswersAreFresh | apps/farms/src/report/report.service.ts:53-72 | under any interleaving of writers and computations every report is built from tables each as it was at most 60 seconds plus the computing time earlier, for the scope asked; a farmer's report answers only that farmer, and the admin report only who had the admin role when asking |
| ReportContent.FarmerReportLists | apps/farms/src/report/report.service.ts:87-93 | the report lists, in table order, exactly the rows of that farmer's farms, each with exactly the crops whose farm it is, each with exactly the activities and harvests whose crop it is |
| ReportContent.AdminReportLists | apps/farms/src/report/report.service.ts:58-65 | the admin report has exactly one group per owner of a farm, with the profile if there is one and exactly that owner's farms, each listed as in the farmer's report |
| ReportContent.AnswersList | apps/farms/src/report/report.service.ts:53-100 | over every run an answer lists exactly the farms, crops, activities and harvests that its queries saw, each under its own parent |
| ReportExact.ExactIffSameSlice | apps/farms/src/report/report.service.ts:53-100 | an answer is the uncached report of a database state if and only if that state agrees with what the queries saw on the rows of the answer's scope; `ReportContent` says what that report lists |
| ReportExact.AgreeingVersionIsExact | apps/farms/src/report/report.service.ts:87-93 | a version that agrees, table by table, with what each needed query saw is the state the answer reports |
| ReportExact.OneTableWritesNeverTear | apps/farms/src/report/report.service.ts:58-63 | writes confined to one table during a computation, or to tables the report does not read, never tear it |
| ReportLimits.ChangesBetweenReadsTear | apps/farms/src/report/report.service.ts:87-93 | whatever the tables, a change of a farmer's farms and a change below a farm they had, between the reads, give the report of no state the database was in |
| ReportLimits.TornReport | apps/farms/src/report/report.service.ts:87-93 | an instance: a farm is added, then a crop on the farm that was there |
| ReportService.ReportService.GenerateAdminReport | apps/farms/src/report/report.service.ts:41-73 | refused unless the projection gives the requester the admin role; else the cached result while it lives, else one group per owner with exactly their farms from the current tables, cached for 60000 ms under its own key |
| ReportService.ReportService.GenerateFarmerReport | apps/farms/src/report/report.service.ts:75-101 | refused for another farmer's report; else as for the admin, listing exactly that farmer's farms with their crops, activities and harvests |
| ReportService.CallIsRun | apps/farms/src/report/report.service.ts:75-101 | an undisturbed call is a run of the cache machine with the same reply and cache |
| ReportService.CachedForAMinute | apps/farms/src/report/report.service.ts:81-100 | a computed answer is repeated for exactly a minute to its scope, whatever is written and whoever else is served, and then the current tables are read |
| FarmerCsv.GetFarmerReport | apps/gateway/src/controllers/report.controller.ts:225-336 | the nested loops write the header and then the tree's rows in order |
| FarmerCsv.RowsReadBack | apps/gateway/src/controllers/report.controller.ts:253-336 | read by position the rows give back every activity and harvest exactly once, in order, under its own farm and crop, and one row for each childless farm or crop |
| FarmerCsv.RowCount | apps/gateway/src/controllers/report.controller.ts:253-336 | the number of data rows is one per activity and harvest plus one per childless crop or farm |
| FarmerCsv.Widths | apps/gateway/src/controllers/report.controller.ts:260-334 | every data row is 4, 10, 20 or 25 cells wide |
| FarmerCsv.ValuesUnderTitles | apps/gateway/src/controllers/report.controller.ts:225-336 | for every tree, row and column: the header there is the title, and the cell the value, that the tree's line puts in that column, harvest columns shifted past the blank activity columns; there are no other cells |

## Left out

- ReportCache.AnswersAreFresh: each table is fresh on its own; one single database state for the whole report is what the code does not give (`ReportLimits.ChangesBetweenReadsTear`), and `ReportExact.ExactIffSameSlice` says exactly when it does.
- TracingOnce.RecordedIffNotOrphaned: is about events that were not dead-lettered and whose claims did not expire early; the dead-letter queue is not replayed.
- Convergence.ConvergesIffNotOvertaken: is for one relay replica, one farms consumer and events in commit order.
- FarmServices.OwnershipService.AssertLeafOwner: stands for the two methods that differ in the table and the error text only.
- FarmSafety.Isolation: takes the query of a row with its relations as one atomic read, and update payloads as columns only.
- AuthUsers.NewestEventIsProfile: excludes users the start-up seed created or changed, which it does without an event.
- Ambiguous outcomes of single commands other than a publish: a save, a Redis command or a commit either happens or does not.
- Real Postgres, RabbitMQ, Redis and Mongo: atomic steps for statements and commits, row locks, first-in-first-out queues with unacked messages, a keyed store with expiry; broker node failures are not modelled.
- Deliveries to notifications: at least once by design, with no deduplication to prove; the relay theorems cover their queue.
- Password hashing and `resetPassword`: they rest on bcrypt's treatment of long inputs; a hash is an opaque value here.
- JWT signing and access tokens: a presented token is genuine or not.
- Photos and S3, metrics, logging, tracing internals, HTTP and RPC filters, validation pipes, wiring, deployment files.
- The gateway's admin CSV: it still reads the shape that the report had before it was grouped by owner.
- `getHistory` and the other read-only listings: single queries.
- JSON encoding of cached reports: taken to give back what was stored.
