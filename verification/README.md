# CryptoPulse delivery pipeline: a verified model

CryptoPulse is a Telegram bot that keeps all its work in PostgreSQL tables used as queues: an inbox of
Telegram updates, an outbox of scheduled and price-alert notifications, an outbox of replies, and price
alerts with the crossings captured for them. Any number of workers on any number of replicas process
these tables, serialized per chat by an advisory lock and fenced by claim tokens, attempt counters and
leases.

This project models that pipeline in Dafny and proves what it promises, over every run.

* `Policy.dfy`, `Tables.dfy` hold the constants, the tables as one value `Db`, and every committed
  transaction as a function from tables to tables.
* `Machine.dfy` is the state machine: programs of notification, reply and inbox workers, the price
  ticker, cron, webhook, retention, time, crashes, dead lock sessions. `Run` is any finite interleaving.
* `Claims.dfy`, `Views.dfy`, `Delivery.dfy`, `Attempts.dfy`, `Alerts.dfy`, `InboxOrder.dfy`, `ReplyOrder.dfy`,
  `Settings.dfy` carry the inductive invariants, `Safety.dfy` joins them and lifts them to every state of every
  run.
* `Sends.dfy`, `Losses.dfy`, `Timing.dfy`, `AlertRuns.dfy`, `InboxRuns.dfy`, `ReplyRuns.dfy`, `Cadence.dfy`,
  `Pacing.dfy` and `Independence.dfy` with `Erasure.dfy` state the results over whole runs. `Stories.dfy` gives,
  for every step, the one cause that changed a subscriber, a row or an update.
* `Turns.dfy`, `Subscribers.dfy`, `Places.dfy`, `Fences.dfy`, `Expiry.dfy` and `Observing.dfy` say exactly when:
  from which second on a row or an update can be claimed, a chat gets its next job, closed history goes; which
  step a subscriber's column comes from, which step frees an alert's place, which alerts a price reaches. They
  speak of columns and of what happened in the run, not of the tables' own functions.
* `Overlaps.dfy` says when the obvious stronger claims fail. `Witnesses.dfy` and `Torn.dfy` are concrete runs
  from the empty tables in which they do; `Paths.dfy` strings steps together.
* `Store.dfy`, `CrossingPass.dfy`, `Retention.dfy`, `Paging.dfy` and `LockPool.dfy` are the imperative
  side: rows changed in place, candidate loops, keyset pages, batched deletion, the finalization loop and
  the session pool, each proved against the functions above. `Percent.dfy` parses and prints thresholds.

`dafny verify dfyconfig.toml` checks everything.

## Assumptions

* A transaction that is a single statement, or whose statements all work on rows it has locked, is one step.
  An abort is no step. A commit whose answer is lost takes effect without the worker hearing of it (`heard`
  and `committed` in the step labels).
* An inbox transaction is several steps, because its READ COMMITTED reads are not protected by the database:
  `Begin` fixes its NOW(), `Prepare` reads the chat's language, its open alerts and whether a newer
  subscription command is recorded, each `Draw` takes a reply id from the sequence, and `Commit` acts on
  what was read (`View`). Anybody may move in between. The unique indexes, the version row and the
  update row are tested at the commit, as the database does.
* The database clock never goes back. Claims, claim checks and cron use a NOW() that may lie before the step;
  an open inbox transaction keeps the one it began with, at most the ten seconds the code gives it; the outcome
  transactions use the time of the step.
* Claim tokens are fresh. Row ids come from sequences that start at one and only grow. Reply ids are drawn before
  the commit (`Draw`). A job or alert id is drawn in the step that commits it; in the code its INSERT draws it
  earlier in the transaction, so there a smaller job or alert id may become visible after a greater one. No
  result speaks of the order of job or alert ids.
* The lock key is an arbitrary function of the chat, so colliding keys only serialize more.
* A worker may crash between any two steps. Its lock session may also die while it keeps running: after the
  step `LoseSession` the chat is `tainted` until the last worker has left its locked section. An inbox
  transaction that takes effect in a tainted chat is recorded as `torn`. What rests on leases, tokens and attempt
  counters is proved for all chats. What rests on the lock is proved for chats that are not tainted at that
  moment; for each such promise a further theorem over all steps of all runs says, as an equivalence, which step
  breaks it, and that this step needs a tainted chat.
* A capture of crossings takes no chat lock and may work from an old snapshot: `Observe` accepts any set
  of existing alerts whose fixed columns qualify.
* Jobs and replies share the row type; the kind tells them apart and the two id sequences are separate.
* A cron run is a sequence of one-chat steps; `Store.CronBatchDue` and `Store.Store.CreateJobs` show that
  the batch is exactly that.
* Telegram may reuse an update id after the old row was deleted, so effects are counted per save and not
  per id; a reply whose sequence number is still stored is skipped.
* Prices are real numbers and thresholds whole hundredths of a percent. Subscriber columns that every insert
  fills (interval, last_sent, language) are never null.

The history `h` of a state (final statuses, tallies, effects, saves, first crossings) records what
happened. No step reads it.

## Model

| member | source | states |
|---|---|---|
| Policy.RetryDelay | internal/workers/policy.go:73-83 | one minute per attempt up to ten, ten minutes beyond, never less than one |
| Claims.BaseStep | internal/app/notification_outbox.go:233-281 | every step of every worker keeps mutual exclusion, claims, leases, fences, drawn ids and final statuses together |
| Claims.OneHolder | internal/app/telegram_inbox.go:277-305 | two workers inside locked sections of one chat are the same worker unless the chat is tainted |
| Views.ViewHandle | internal/app/telegram_inbox.go:317-324 | in an untainted chat what an open inbox transaction has read still holds after every inbox step of anybody: language, supersede test, an upper bound of the open alerts, nothing sent behind its NOW() |
| Views.ViewSend | internal/app/notification_outbox.go:300-307 | the same after every sender step: a delivery in the chat would need the same lock |
| Claims.ClaimTaken | internal/app/notification_outbox.go:244-257 | a claim leaves every earlier claim of the row either outlived by its lease or unchanged, and no two workers hold the same claim |
| Claims.SparesRivals | internal/app/notification_outbox.go:233-260 | no sender step of another worker touches the row of a worker past its claim check in an untainted chat |
| Claims.SparedByCommit | internal/app/telegram_handlers.go:250-263 | no inbox transaction cancels such a row, because it would need the same chat lock |
| Claims.CommitRows | internal/app/telegram_inbox.go:426-484 | an inbox transaction only cancels open notification rows of its own chat and adds pending replies under its own ids |
| Safety.RunInv | internal/app/notification_outbox.go:182-423 | all invariants hold in every state of every run |
| Safety.Forever | internal/app/notification_outbox.go:495-760 | final statuses, effects, first crossings, triggers and saved updates are never lost or changed later in a run |
| Stories.SubStory | internal/app/notification_outbox.go:495-760 | a subscriber never disappears, and each step changes it only as its one cause (outcome, admitted command, cron) says |
| Stories.RowStory | internal/app/notification_outbox.go:233-281 | a row changes only by a claim that was allowed, the outcome of its claim, a cancellation while open, or its deletion once closed |
| Stories.UpdateStory | internal/app/telegram_inbox.go:129-211 | an open update was open or has just been saved; one in progress was so under the same claim or has just been claimed without an earlier open one |
| Sends.OneSender | internal/app/notification_outbox.go:300-346 | at most one worker is sending a given row, with the lock or, if its session died, within the lease margin |
| Timing.SendEndsBeforeLease | internal/app/notification_outbox.go:441-458 | a send whose step began within the check timeout and that lasts at most the client timeout ends before the lease, with nobody having taken the row over |
| Timing.NeverReclaimed | internal/workers/policy.go:35-41 | a worker that keeps, since its claim step, every timeout of every phase (claim commit, lock, checks, send, outcome), and takes up to five seconds more between check and send, stays within its lease, and its row is never taken over or gone |
| Turns.RetryExactly | internal/app/notification_outbox.go:554-590 | in a run a row given back with a delay can be claimed, once nothing else stands in the way, exactly from the end of that delay on |
| Turns.LeaseExactly | internal/app/notification_outbox.go:244-257 | a claimed row that nobody touches can be claimed again exactly when more than forty-five seconds have passed |
| Turns.FirstTurnExactly | internal/app/notification_outbox.go:149-165 | a new job or reply can be claimed exactly from the time of its cron run, its trigger or the transaction that answered |
| Turns.ErrorDecides | internal/app/notification_outbox.go:472-493 | an error at the first or second attempt gives the row back for exactly its delay; at the third or a later one the row has failed for good, and a scheduled job suspends its chat |
| Turns.AnswerDecides | internal/app/notification_outbox.go:350-397 | an accepted message makes the row sent and a permanent refusal makes it failed, as of the moment that is recorded; with a scheduled job the subscriber counts as delivered to or is unsubscribed |
| Turns.CheckExactly | internal/app/notification_outbox.go:441-458 | the claim check passes if and only if the row is still the worker's own and more than fifteen seconds of its lease are left |
| Timing.FiveTries | internal/app/sent_finalization.go:47-58 | a worker makes at most five attempts to record an accepted message |
| Turns.UpdateLeaseHolds | internal/app/telegram_inbox.go:158-178 | in a run two claims of one update are more than forty-five seconds apart unless it was committed, rejected or given back in between, whatever the first worker heard |
| Turns.UpdateLeaseExactly | internal/app/telegram_inbox.go:158-178 | and an update in progress that nobody touches can be claimed again exactly then |
| Turns.UpdateRetryExactly | internal/app/telegram_inbox.go:493-524 | an update given back can be claimed exactly from sixty seconds per attempt on, at most ten minutes |
| Turns.UpdateFirstExactly | internal/app/telegram_inbox.go:65-127 | a saved update can be claimed exactly from the moment it was saved |
| Turns.FailureDecides | internal/app/telegram_inbox.go:399-424 | an undecodable payload is rejected at once; any other error rejects the update at the third attempt and gives it back before, with the very table of Store.Store.DeferProcessing |
| Stories.UpdateHistory | internal/app/telegram_inbox.go:129-564 | each step changes an update only as its one cause says: a claim after its time and lease, a commit, a retry, a rejection, or its deletion once closed |
| Fences.ProcessedAsSaved | internal/app/telegram_inbox.go:173-197 | while a saved update is stored, whoever claims it works on the chat, command and epoch it was saved with |
| Fences.StaleChangesNothing | internal/app/telegram_inbox.go:461-481 | a worker whose update was claimed again changes no table and records no effect any more |
| Subscribers.EnrollStory | internal/app/telegram_handlers.go:54-56 | a subscriber appears exactly with a language choice or a /subscribe, with these defaults |
| Subscribers.ColumnFollows | internal/app/notification_outbox.go:530-540 | interval, last_sent, cron claim and suspension of a subscriber hold what the last step that wrote them has left |
| Subscribers.IntervalFollows | internal/app/telegram_handlers.go:96-96 | a chat's interval is that of the last interval choice that took effect on it, and sixty minutes if there was none |
| Subscribers.LastSentFollows | internal/app/telegram_handlers.go:96-96 | last_sent is the minute of the last delivery, the start of the last interval choice, or two minutes before the first command, whichever came last |
| Subscribers.CronExactly | internal/app/notification_outbox.go:80-98 | a chat can get a scheduled job at a moment if and only if it is subscribed, its interval has passed, none of its jobs is open, and cron claim and suspension have ended |
| Subscribers.ScheduleExactly | internal/app/notification_outbox.go:80-104 | the same told by the run: once its slot has come, if and only if no cron run of it in the last fifteen minutes and no exhausted failure in the last fifteen minutes still stands |
| Subscribers.SuspensionEnds | internal/app/notification_outbox.go:738-751 | fifteen minutes after an exhausted failure a chat whose slot has come can get a job again, if there was no other failure and no cron run of it |
| Sends.OthersSpare | internal/app/notification_outbox.go:331-397 | no step of anyone else claims, cancels, finalizes or deletes an exclusive worker's open row |
| Sends.ExclusiveSpan | internal/app/notification_outbox.go:331-397 | between its claim check and its own next step, however far apart, a worker's row is unchanged |
| Sends.LostMeansSent | internal/app/sent_finalization.go:47-58 | ownership lost while finalizing means an earlier commit of the same worker, never answered, made the row sent |
| Sends.SendsEnabled | internal/app/notification_outbox.go:309-329 | while a notification is in flight its chat is subscribed or its alert triggered |
| Losses.TakenAway | internal/app/notification_outbox.go:244-257 | tainted or not, somebody else's step takes the row of a worker away if and only if it claims it after the lease or cancels it; past the claim check that needs a tainted chat |
| Losses.LostBecause | internal/app/notification_outbox.go:331-397 | whoever is past its claim check and no longer owns its row made it sent itself by an unheard commit, or had it taken away by such a step; before the request is confirmed only the latter is possible |
| Losses.DisabledBecause | internal/app/notification_outbox.go:309-353 | a notification in flight is disabled only if its row was taken away before, in a tainted chat |
| Sends.RefusalIsStale | internal/app/notification_outbox.go:319-329 | the branch for a disabled notification is reached only with a stale claim and then changes nothing |
| Sends.TerminalForever | internal/app/notification_outbox.go:495-760 | sent, failed and canceled are final |
| Sends.AttemptsConserved | internal/app/notification_outbox.go:356-382 | sends at most attempts, attempts at most three plus takeovers plus shutdown retries |
| Cadence.KeepsDistance | internal/app/notification_outbox.go:80-98 | a scheduled job created after a delivery in its chat lies at least the current interval later, unless an interval change that began before the delivered minute took effect in between |
| Cadence.Spacing | internal/app/notification_outbox.go:80-98 | the same between any stored sent job and any later one; only changes after the delivery matter |
| Cadence.PassedStep | internal/app/telegram_handlers.go:96-96 | a step moves last_sent before a delivered slot, or opens a job in its minute, if and only if it lets an interval change take effect that began before that minute |
| Cadence.SlotLost | internal/app/telegram_handlers.go:96-96 | the same for every single step of every run, and that it needs a tainted chat |
| Cadence.PassedUntilSetBack | internal/app/telegram_handlers.go:96-96 | from a delivery on, over a run: its slot stays behind if and only if no such change takes effect |
| Cadence.SetBackIsTorn | internal/app/telegram_inbox.go:317-324 | such a change needs a tainted chat, since otherwise nothing was sent after it began |
| Cadence.DueTooSoon | internal/app/notification_outbox.go:88-98 | and after such a change the chat, if nothing else stands in the way, is due less than its interval after the delivered slot |
| Delivery.EnabledSettle | internal/app/notification_outbox.go:678-760 | recording an outcome keeps every open job enabled, also when it unsubscribes the chat |
| Delivery.EnabledSettings | internal/app/telegram_handlers.go:237-268 | unsubscribing cancels the open scheduled jobs in the same transaction, so none is left disabled |
| Delivery.EnabledTrigger | internal/app/price_alerts.go:251-291 | an alert job exists only for a triggered alert, at most one per alert |
| Cadence.CronIsLater | internal/app/notification_outbox.go:88-98 | a cron job lies at least one interval after last_sent |
| Cadence.DeliveryPasses | internal/app/notification_outbox.go:530-540 | recording a delivery puts last_sent into the minute of the job and leaves no scheduled job of the chat open |
| Attempts.Conservation | internal/app/notification_outbox.go:244-257 | the attempt accounting of one row in any state that keeps the tally |
| Alerts.AlertObserved | internal/app/price_alerts.go:179-196 | a capture, even from a stale snapshot, records only justified crossings and never replaces one |
| Alerts.AlertFired | internal/app/price_alerts.go:251-291 | a trigger uses the recorded first crossing and can happen only once |
| Alerts.LimitCommit | internal/app/price_alerts.go:91-115 | a commit adds exactly one open alert to its chat if it is an accepted creation, and none otherwise |
| Alerts.LimitStep | internal/app/price_alerts.go:91-105 | a step takes a chat over ten open alerts if and only if it lets a creation take effect that is accepted, from an earlier count, while ten are open |
| Alerts.OverfillIsTorn | internal/app/price_alerts.go:90-105 | in an untainted chat the count that was read still bounds the open alerts, so such a creation needs a tainted one |
| AlertRuns.FiresOnce | internal/app/price_alerts.go:258-268 | no alert is triggered twice in a run |
| AlertRuns.OneJobForever | migrations/010_add_price_alerts.sql:41-42 | over its whole life an alert has at most one job |
| AlertRuns.TriggeredByFirstCrossing | internal/app/pricing.go:168-197 | the trigger price is that of the first captured observation, on the right side of the fixed target, started strictly after creation |
| AlertRuns.CrossingPersists | internal/app/price_alerts.go:188-194 | a captured crossing stays, unchanged, as long as its alert is active |
| AlertRuns.OverTenSince | internal/app/price_alerts.go:91-105 | more than ten open alerts exist only after such a creation, and only until the count has fallen to ten again |
| AlertRuns.AtMostTen | internal/app/price_alerts.go:91-105 | up to any moment of a run a chat never had more than ten alerts active or being delivered, if and only if no creation was accepted while ten were open |
| AlertRuns.LimitLeft | internal/app/price_alerts.go:91-105 | the same for every single step of every run, and that it needs a tainted chat |
| AlertRuns.PassMissesNone | internal/app/price_alerts.go:206-212 | ids of waiting crossings are positive in every run, so a pass that starts behind zero misses none |
| Places.PlaceFreed | internal/app/price_alerts.go:138-155 | in every step of every run an alert that is active or being delivered gives up its place if and only if its job gets its final outcome or its chat cancels it; a trigger keeps it |
| Places.PlacesAreOpen | internal/app/price_alerts.go:91-94 | the alerts counted against the limit are exactly those with such a place |
| Observing.CaptureIsObserve | internal/app/price_alerts.go:179-196 | the capturing statement is the step of the state machine that picks exactly the active alerts the price reaches: created and quoted before the observation began, which is at most a minute old |
| Observing.SeenFires | internal/app/price_alerts.go:167-177 | an alert that is reached, without an earlier crossing and in a free chat, is triggered at that price by the following pass and gets its job |
| Torn.ElevenAlerts | internal/app/price_alerts.go:91-105 | a run from the empty tables in which two torn creations both count nine and leave eleven |
| AlertRuns.AlertJobsUntouched | internal/app/telegram_handlers.go:250-263 | cron, the delivery of any other row and all commands but an alert cancellation leave alert jobs alone |
| InboxOrder.EffectCommit | internal/app/telegram_inbox.go:461-481 | a commit makes its update processed and records its one effect |
| InboxOrder.AllRepliesStored | internal/app/telegram_inbox.go:433-459 | an admitted commit leaves each of its replies stored |
| InboxOrder.RefusedAddsNone | internal/app/telegram_inbox.go:350-355 | a refused command leaves no reply |
| InboxOrder.FifoCommit | internal/app/telegram_inbox.go:317-324 | replies committed in an untainted chat come behind every stored reply of the chat |
| InboxRuns.ExactlyOnce | internal/app/telegram_inbox.go:307-397 | an update is processed if and only if exactly one effect of its save has committed |
| InboxRuns.CommitsOnce | internal/app/telegram_inbox.go:461-481 | two commits that take effect never stem from the same save |
| InboxRuns.RepliesHaveEffects | internal/app/telegram_inbox.go:433-459 | every stored reply was written by an applied effect of its update |
| InboxRuns.AlertsHaveEffects | internal/app/price_alerts.go:106-115 | every stored alert was inserted by exactly one effect, an applied creation by its source update, in its chat, with its symbol and threshold |
| InboxRuns.LanguageFollows | internal/app/telegram_handlers.go:170-195 | the language is that of the processed language command with the greatest version, if and only if the last /subscribe that took effect since, if any, had read that language |
| InboxRuns.LanguageLost | internal/app/telegram_handlers.go:170-195 | in every step of every run a language gets out of step with the last applied choice if and only if a /subscribe takes effect that had read another language than the stored one; that needs a tainted chat |
| InboxRuns.LostSince | internal/app/telegram_handlers.go:170-195 | a language that is out of step has been so since such a /subscribe |
| Torn.LanguageRelapses | internal/app/telegram_handlers.go:170-195 | a run from the empty tables in which a torn /subscribe writes back the language before an applied choice |
| InboxRuns.SubscriptionFollows | internal/app/telegram_handlers.go:188-195 | subscribed if and only if the greatest processed subscription command is /subscribe and no permanent failure intervened |
| InboxRuns.NothingProcessed | internal/app/pricing.go:315-327 | without processed commands a chat is not subscribed; it has the default language if and only if the last /subscribe had read it |
| InboxRuns.LanguageConverges | internal/app/telegram_mutation_order.go:39-67 | of two runs that processed the same language commands, in whatever order, one has the newest language; then they agree if and only if the last /subscribe of the other had read it, provided the newest version stands for one command |
| InboxRuns.SubscriptionConverges | internal/app/telegram_mutation_order.go:39-67 | the same for subscriptions, if both runs or neither had a permanent failure since |
| InboxRuns.IntervalsAdvance | internal/app/telegram_mutation_order.go:44-61 | an applied interval change is newer than all earlier ones; it is older than an earlier subscription command if and only if one was recorded by the time of its commit, unseen by its own earlier test, which needs a tainted chat |
| InboxRuns.AppliedExactly | internal/app/telegram_mutation_order.go:39-67 | a processed command took effect if and only if it is newer than all commands of its setting that had, and, for an interval choice, saw no newer subscription command; in an untainted chat it sees every one |
| Fences.RegisterMoves | internal/app/telegram_mutation_order.go:14-36 | every command that may change a subscriber is registered under its own setting with its own, newer version; no other command touches the register |
| Fences.RefusedChangesNothing | internal/app/telegram_inbox.go:350-355 | a refused command leaves register, subscribers, alerts and outbox as they were |
| Torn.IntervalOutranked | internal/app/telegram_mutation_order.go:44-56 | a run from the empty tables in which a torn interval change takes effect behind a newer subscription command |
| InboxRuns.EpochsAdvance | internal/app/telegram_inbox.go:80-85 | epochs never fall and rise by at most one per saved update |
| InboxRuns.GapWins | internal/app/telegram_inbox.go:80-121 | an update saved after more than seven silent days outranks all earlier ones for good |
| ReplyRuns.RepliesInOrder | internal/app/telegram_reply_outbox.go:182-189 | while a reply is being sent in an untainted chat all smaller ids of the chat are closed, except replies of a torn effect |
| ReplyRuns.RepliesSorted | internal/app/telegram_inbox.go:433-459 | of two stored replies of a chat the one with the smaller id is the one whose update took effect first, and within an update the one with the smaller sequence number, unless the later effect was torn |
| ReplyRuns.RepliesLeaveSorted | internal/app/telegram_reply_outbox.go:182-249 | so while a reply is being sent in an untainted chat every reply processed before it, or numbered before it in its update, is closed |
| ReplyRuns.RepliesDistinct | migrations/007_add_telegram_reply_outbox.sql:22-23 | no two stored replies share update and sequence number |
| ReplyRuns.OrderLost | internal/app/telegram_reply_outbox.go:182-189 | in every step of every run the order of sending is lost if and only if a commit inserts a reply under an id before that of an attempted one; that needs a tainted chat |
| ReplyRuns.AlwaysInOrder | internal/app/telegram_reply_outbox.go:182-189 | the same over a run: always in order if and only if no commit cuts in |
| ReplyRuns.SortingLost | internal/app/telegram_inbox.go:433-459 | in every step of every run the stored ids of a chat stop following the order of its transactions if and only if a commit inserts a reply under an id before that of a stored one; that needs a tainted chat |
| ReplyRuns.AlwaysSorted | internal/app/telegram_inbox.go:433-459 | the same over a run: always sorted if and only if no commit does that |
| ReplyRuns.SortedUntilUndercut | internal/app/telegram_reply_outbox.go:182-249 | tainted or not, torn or not: as long as no commit has done that, whoever sends a reply finds every reply of the chat closed that was processed before it or numbered before it in its update |
| Torn.ReplyOvertaken | internal/app/telegram_inbox.go:433-459 | a run from the empty tables in which a torn transaction inserts a smaller id next to a reply in flight, against the order of processing |
| ReplyRuns.NoSmallerLater | internal/app/telegram_inbox.go:433-459 | once a reply is stored in an untainted chat no smaller id can appear there, whatever happens later |
| Settings.VersionCommit | internal/app/telegram_mutation_order.go:44-67 | the register always holds the last applied version, which every counted command precedes or equals |
| Settings.SupersededBy | internal/app/telegram_mutation_order.go:48-55 | the supersede test holds of the register exactly if a newer subscription command was processed |
| Settings.WinnerApplied | internal/app/telegram_mutation_order.go:57-67 | the processed command with the greatest version is the one applied last |
| Settings.ChoiceSettled | internal/app/notification_outbox.go:723-751 | outcomes never change a language and unsubscribe only on a permanent failure |
| Independence.TwinStep | internal/app/notification_outbox.go:530-540 | each step is invisible to the alert-free twin or matched by a step of the twin |
| Erasure.NonInterference | internal/app/notification_outbox.go:598-605 | deleting every alert step from a run leaves a run with the same subscribers, versions, inbox, scheduled jobs and replies |
| Overlaps.AttemptsUnbounded | internal/app/notification_outbox.go:250-257 | attempts have no bound: any run with an open job in a free chat extends to any number |
| Witnesses.ManyAttempts | internal/app/notification_outbox.go:250-257 | from the empty tables, for every number, a run in which one job is claimed that often |
| Overlaps.OverlapsOnlyIfLate | internal/app/telegram_inbox.go:165-171 | an update is open beside a later one in progress only if it was saved while that one was already in progress under its current claim |
| Overlaps.LateArrivalOverlaps | internal/app/telegram_inbox.go:165-171 | and then it happens: a smaller id saved late is claimed at once, next to the update in progress |
| Overlaps.LastSentFalls | internal/app/notification_outbox.go:530-540 | in every step of every run last_sent falls if and only if a delivery of an earlier minute is recorded or a change that began before it takes effect; the latter needs a tainted chat |
| Overlaps.FallsOnlyAfterChange | internal/app/telegram_handlers.go:96-96 | a delivery moves last_sent back only if an interval change took effect while its job was open |
| Torn.SlotRepeated | internal/app/telegram_handlers.go:96-96 | a run from the empty tables in which a torn interval change gets a minute served twice |
| Overlaps.LostLockSends | internal/app/notification_outbox.go:309-353 | two locked sections need a dead session, and then an unsubscribe can slip in before the send |
| Witnesses.SentAfterUnsubscribe | internal/app/notification_outbox.go:309-353 | from the empty tables, a run in which a notification is in flight although its chat was unsubscribed before |
| Pacing.LeaseHolds | internal/app/notification_outbox.go:244-257 | in a run a claimed row is claimed again only after its lease has passed or its outcome was recorded |
| Pacing.RetryWaits | internal/app/notification_outbox.go:472-493 | in a run a row given back for a retry is claimed again only after its delay |
| Pacing.FailureSuspends | internal/app/notification_outbox.go:738-751 | after an exhausted failure a chat gets no scheduled job for fifteen minutes unless it is delivered to, unsubscribed or subscribed in between |
| Pacing.SilentUntilSubscribed | internal/app/notification_outbox.go:723-737 | after a permanent failure or /unsubscribe a chat gets no scheduled job until a /subscribe takes effect |
| Pacing.CronSpacing | internal/app/notification_outbox.go:88-104 | two cron jobs of a chat are more than fifteen minutes apart unless an outcome or unsubscription of the chat was committed in between |
| Pacing.WithdrawCloses | internal/app/price_alerts.go:138-155 | a cancellation frees exactly that alert's slot and leaves no open job of it |
| Store.Store.MarkSent | internal/app/notification_outbox.go:495-552 | guarded update of job and subscriber, nothing once the claim is lost |
| Store.Store.MarkRetry | internal/app/notification_outbox.go:554-617 | pending again, due exactly after the delay, subscriber claim released |
| Store.Store.MarkCanceled | internal/app/notification_outbox.go:619-676 | canceled, subscriber claim released |
| Store.Store.MarkFailed | internal/app/notification_outbox.go:678-760 | failed, with unsubscription or cooldown |
| Store.Store.Defer | internal/app/notification_outbox.go:472-493 | fail at the attempt limit, otherwise retry |
| Store.Store.Finalize | internal/app/sent_finalization.go:31-91 | at most the permitted tries, the row settled at most once, each result tied to what really committed |
| Store.Store.ClaimFrom | internal/app/notification_outbox.go:233-286 | the first candidate still claimable in a free chat, from a possibly stale list |
| Store.Store.ClaimJob | internal/app/notification_outbox.go:182-290 | candidates are the ten claimable jobs scheduled first, then by id; the first of them in a free chat is taken, and the claim carries its row, next attempt, token and time |
| Store.Store.ClaimReply | internal/app/telegram_reply_outbox.go:160-287 | the same for replies in id order behind each chat's queue |
| Store.Store.CreateJobs | internal/app/notification_outbox.go:67-176 | the ripe chats up to the limit, longest not served first, in any order among equals, get one pending job each and a cron claim; with fewer jobs than the limit none is left out; the effect is that of one-chat transactions |
| Store.CronBatchDue | internal/app/notification_outbox.go:97-114 | every chat of a batch is still due when its turn comes |
| Store.Store.Save | internal/app/telegram_inbox.go:65-127 | one row per update id, due at once; the epoch rises by one exactly with a row inserted after seven silent days |
| Store.Store.ClaimUpdate | internal/app/telegram_inbox.go:129-211 | the oldest claimable update of the worker's chats, waiting or past its lease, or none if there is none |
| Store.Store.Read | internal/app/price_alerts.go:91-98 | the reads of an open inbox transaction give the view its writes are computed from |
| Store.Store.Allow | internal/app/telegram_mutation_order.go:39-67 | admits exactly the strictly newer versions that were not seen superseded, and records them |
| Store.Store.Unsubscribe | internal/app/telegram_handlers.go:237-268 | unsubscribes and cancels the chat's open scheduled jobs only |
| Store.Store.SetLang | internal/app/telegram_handlers.go:36-71 | changes the language alone, creating an unsubscribed row if needed |
| Store.Store.SetMinutes | internal/app/telegram_handlers.go:78-130 | stores exactly the minutes and the start of the transaction for a subscribed chat within 1..1440, otherwise nothing |
| Store.Store.SubscribeChat | internal/app/telegram_handlers.go:187-202 | subscribes and ends a suspension, keeping interval and last_sent of a known chat and writing back the language it read |
| Store.Store.InsertReplies | internal/app/telegram_inbox.go:433-459 | stores the replies in sequence, skipping numbers already stored |
| Store.Store.Process | internal/app/telegram_inbox.go:324-397 | from what was read: version, mutation, replies and the processed mark commit together or not at all |
| Store.Store.DeferProcessing | internal/app/telegram_inbox.go:399-424 | rejected at the third attempt, otherwise given back for one or two minutes, nothing for a stale claim |
| Store.Store.AddAlert | internal/app/price_alerts.go:81-115 | creates an alert, with these columns, exactly when the quote is fresh, the threshold in range, fewer than ten are open and neither its update nor an active twin has one |
| Store.Store.RemoveAlert | internal/app/price_alerts.go:138-155 | cancels an open alert of the chat with its open job |
| Store.AlertSymbol | internal/app/price_alerts.go:44-55 | every accepted spelling stands for one of the four tracked symbols |
| Store.TrackedIsSymbol | internal/app/price_alerts.go:44-55 | a tracked symbol stands for itself |
| Store.SymbolSpelled | internal/app/price_alerts.go:44-55 | a text stands for a tracked symbol if and only if it spells the symbol or its coin, in any mix of cases |
| Store.Store.CaptureCrossings | internal/app/price_alerts.go:179-196 | an alert has a crossing afterwards if and only if it had one or is active, of this very symbol and reached by a fresh observation; new crossings carry price and storage time; an error for malformed quotes |
| Store.Store.TriggerAlert | internal/app/price_alerts.go:251-291 | status, job and crossing change together, only for an active alert in a free chat |
| CrossingPass.ProcessCrossings | internal/app/price_alerts.go:198-248 | for any page size the loop ends with the effect and count of one unpaged pass |
| CrossingPass.PassSettles | internal/app/price_alerts.go:240-246 | exactly the waiting alerts in free chats are triggered, exactly the busy ones still wait |
| CrossingPass.FireJobs | internal/app/price_alerts.go:277-282 | each triggered alert gets one job at its observation time, all other rows stay |
| CrossingPass.PagesAgree | internal/app/price_alerts.go:210-212 | the page size makes no difference |
| Retention.DrainRows | internal/app/retention.go:84-120 | for any batch limit exactly the expired closed rows of an outbox go, and are counted |
| Retention.DrainUpdates | internal/app/retention.go:122-153 | the same for processed and rejected updates |
| Retention.DrainAlerts | internal/app/retention.go:69-82 | the same for finished alerts, with their crossings |
| Retention.Oldest | internal/app/retention.go:188-210 | a batch is the oldest expired entries, all of them unless it is full |
| Retention.NoOrphans | internal/app/retention.go:71-78 | deleting expired alerts leaves every job its alert and every waiting crossing |
| Expiry.RowGoesExactly | internal/app/retention.go:84-120 | in a run a closed row can be deleted exactly when the period of its kind and status has passed since the moment it was closed |
| Expiry.UpdateGoesExactly | internal/app/retention.go:122-153 | a processed update exactly seven days after the start of its transaction, a rejected one thirty days after its rejection |
| Expiry.AlertGoesExactly | internal/app/retention.go:69-82 | a triggered or canceled alert that stays as it is exactly after ninety days without a stored job |
| LockPool.Pool.Acquire | internal/app/telegram_inbox.go:277-292 | either a session holding exactly the key, or no lock changed |
| LockPool.Pool.TryAcquire | internal/app/http_handlers.go:181-198 | the same without waiting |
| LockPool.Pool.Release | internal/storage/advisory_lock.go:25-39 | back to the pool only after a confirmed unlock; no lock of the session survives |
| LockPool.Pool.Discard | internal/storage/advisory_lock.go:11-22 | the session and all its locks end |
| LockPool.Pool.Drive | internal/storage/advisory_lock.go:24-39 | over any sequence of acquisitions, releases and session deaths with any outcomes the server's locks are those of a table without sessions, and no idle session holds one |
| LockPool.UnlockIsRelease | internal/app/telegram_inbox.go:277-305 | releasing, crashing and losing a session in the state machine are the release of that table |
| Percent.ParseRenders | internal/app/price_alerts.go:23-23 | every text of the grammar parses to its meaning if supported, otherwise is refused |
| Percent.ParseSound | internal/app/price_alerts.go:57-66 | whatever is accepted is of the grammar, means the result, and lies in range |
| Percent.PrintParses | internal/app/price_alert_handlers.go:130-131 | parsing undoes printing |
| Percent.PrintInjective | internal/app/price_alert_handlers.go:130-131 | different thresholds print differently |
| Percent.TargetSide | internal/app/price_alerts.go:68-79 | the target is positive and strictly on the right side of the base |

## Left out

- Sends.ExclusiveSpan: while the chat is not tainted; Losses.TakenAway says exactly which steps take a row away from a worker without its lock, and Witnesses.SentAfterUnsubscribe is a run.
- Sends.SendsEnabled: while the chat is not tainted; Losses.DisabledBecause covers the rest.
- Sends.LostMeansSent: while the chat is not tainted; Losses.LostBecause covers the rest.
- ReplyRuns.RepliesInOrder: while the chat is not tainted and not counting replies of torn effects; ReplyRuns.OrderLost says which step breaks the order and Torn.ReplyOvertaken is a run.
- ReplyRuns.RepliesSorted: unless the later effect was torn; ReplyRuns.SortingLost says exactly which step breaks it and Torn.ReplyOvertaken is a run.
- ReplyRuns.NoSmallerLater: for chats that are not tainted at its first moment; ReplyRuns.SortingLost says which step inserts a smaller id otherwise.
- InboxRuns.LanguageConverges: if the newest version stands for one command; a reused id within one epoch keeps the command processed first, as InboxRuns.LanguageFollows states.
- InboxRuns.SubscriptionConverges: if the newest version stands for one command and the runs agree on permanent failures.
- The order of the statements inside an inbox transaction: all its unprotected reads are one step, and its writes become visible together at the commit.
- Message texts, keyboards, translations, menus and local time formatting: user interface without an invariant.
- HTTP routing, authentication, rate limits, metrics and logging: plumbing around the pipeline.
- The Binance and Telegram clients: only their outcomes (quote or none; accepted, permanent or transient error) appear, as labels of steps.
- Decoding of update payloads and callback data: the model starts from the decoded command; an undecodable payload is the step `Garbled`.
- Shard assignment of inbox workers: a worker's chats are an arbitrary predicate.
- The reply collector and callback answers: an update yields some number of replies, callbacks change no table.
- The price cache and its warm-up: a command sees an arbitrary cached quote.
- IEEE 754 rounding of prices and targets; with real numbers the code's last check of a degenerate target never fails.
- The SQL engine, deadlock detection, migrations and schema checks: only unique indexes and foreign keys appear, as guards of the transactions.
- Progress: that a worker eventually claims, sends or retries is not stated.
