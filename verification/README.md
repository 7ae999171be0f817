# A model of the mailbox service

The service hosts mailboxes for tenants. It bills subscriptions from webhooks that arrive at least once
and in any order, runs batch jobs on a pool of workers and streams their events, imports and exports
accounts as text, and keeps tokens fresh and account health up to date. This project models the parts
where order, concurrency, crashes or overlapping formats decide whether that works, and proves what
they guarantee. `dafny verify dfyconfig.toml` checks everything.

**Billing** (`Billing*.dfy`). The tables are one value, each transaction a function on it
(`BillingModel`), and `BillingService` is the service over mutable tables, proved to do exactly what
those functions say, rollbacks and failing statements included. A run is any sequence of event
transactions, writes to the table of event keys, polled orders, user cancel or uncancel writes, admin
assignments and new checkouts. `BillingRuns` has the invariants and what survives a run,
`BillingDelivery` repeated and interrupted deliveries, `BillingOrder` confluence, `BillingRace` polling
against the activation webhook, `BillingEffects` what each event, poll, request and assignment writes,
said in full and apart from the functions that compute it. `BillingFlight` gives every delivery a program counter (register, ask,
transaction, mark; each may fail, the process may die), and `BillingOverlap` is about all their
interleavings.

**Batch jobs** (`JobPool*.dfy`). A step relation over the program counters of the owning goroutine and
its workers; every store write may fail, the process may be shut down or die anywhere. `JobPoolProof`
is the invariant, `JobPoolRuns` what it means for runs, `JobPoolReports` what rows and status have to do
with what the runners reported, `JobPoolHistory` what the remembered counts count, `JobPoolProgress` that
started jobs end.

**Events** (`EventStream*.dfy`, `EventDrain.dfy`, `Broker.dfy`). Emitters number, insert and notify;
readers subscribe, replay, send and park on a one-slot channel; all interleaved, with failures,
reconnects and restarts. `EventStreamRuns` has the guarantees, `EventStreamNumbers` when numbers can
collide, `EventStreamLoss` which steps lose an event to a client, `EventStreamSteps` what wakes readers and
what a restart forgets. `EventDrain` is the nested drain loop
itself with every way it can be cut short, `Broker` the subscription map.

**Import and export** (`Text`, `Fields`, `Importer`, `Exporter`, `ParsedLines`, `ExportedLines`, `RoundTrip`,
`FileRoundTrip`, `Import*.dfy`, `AccountImport`). The four-dash line format, the three account formats told apart by
shape, when importing undoes exporting, and the batched import with its compensating counters.

**Smaller algorithms and protocols**. `MergePaging` (two folders, one page), `LenientBase64` (section 4
of RFC 4648, folding of section 6.8 of RFC 2045), `Scheduler` and `SchedulerFairness` (claim by
advance), `Health*.dfy` (visits to mailboxes and edits with their read and their write apart, verdicts,
bans and the deletion of invalid accounts), `OAuthFlow` (one authorization code flow, section 4.1 of RFC 6749,
under concurrent callbacks and completions; `OAuthSteps` has its single steps).

Results that are negative, each with the exact condition, and most with a run that shows them:

- A processed event key is settled only once no delivery of it is past its check (`SettledExactly`,
  `SettledExactlyForRows`). Until then a late duplicate takes back a plan that an administrator assigned
  in between (`LateDuplicateRegrants`), or marks the processed key failed. The comment on `ProcessWebhook`
  calls handling an event idempotent; the model follows the code.
- The closing write of a cancel request does not look at the row again, so it overwrites a termination
  that came after its read (`CancelOverwritesTermination`; `OnlyTheseRevive` has all the ways back).
- Applying an event twice is applying it once except when the clock stands in for a timestamp that does
  not parse (`AppliedTwice`, `UntimedEventIsBookedLater`).
- A line does not come back when a field other than the last ends in a dash or a field has the shape of
  another one (`ImportUndoesExport`). The comment on `FormatLine` calls it the inverse of `ParseLine`
  without these conditions.
- An insert at or below a client's position, or a batch sent past a stored number, loses an event to it
  (`LostExactlyBySuchSteps`, `OvertakingLosesAnEvent`).
- An event counter below the stored maximum, or none while the maximum cannot be read, or a number in
  flight that is stored already, leads to a refused insert (`CollisionsExactly`).
- A second admitted callback spoils an already exchanged flow (`SpoiledOnlyByAdmittedCallbacks`,
  `LateFailureSpoilsTheFlow`).
- Before the start gate only a pending job can still end by itself; one that was stopped stays `stopping`
  (`EndsOnlyFromPending`, `StopBeforeStartSticks`).
- A stored ban is lifted by an overwriting import or an edit as well as by the user (`BanSurvivesExactly`,
  `ImportLiftsTheBan`), and the write that stores it may fail (`UnsavedBanIsForgotten`). The comment in
  the write-back says that later requests are refused.
- A check that began before an account was repaired can still expose it to the deletion of invalid
  accounts, and an edit that began before can put its old credentials back (`WrongedExactly`,
  `RepairProtectsExactly`).

## Model

| member | source | states |
|---|---|---|
| BillingRuns.ReachableTablesAreSafe | pkg/service/billing_webhook.go:170-292 | From tables without subscriptions, after any run: an order is held by at most one tenant, and a plan granted by a subscription belongs to the tenant's own row under its own id, never a canceled one. |
| BillingRuns.StepKeeps | pkg/service/billing_webhook.go:133-292 | Every step keeps those invariants, changes subscription and quota of one resolved tenant at most, and never a row's id. |
| BillingRuns.RunKeepsInv | pkg/repo/store.go:45-76 | The invariants hold after every run of whole transactions. |
| BillingRuns.RunKeepsIds | pkg/service/billing_webhook.go:248-251 | A tenant's subscription row never disappears and keeps its id for ever, so what quotas point at never moves. |
| BillingRuns.ResolveRespectsHolder | pkg/service/billing_webhook.go:170-209 | An order somebody holds resolves to nobody else. |
| BillingRuns.OnlyStartsTakeOver | pkg/service/billing_webhook.go:263-269 | A plan an administrator assigned becomes the subscription's in exactly those steps that commit an accepted start of that tenant's (or its first event); no other step but a new assignment touches it. |
| BillingRuns.AdminPlanSurvives | pkg/service/billing_webhook.go:263-291 | So it survives every run without such a step. |
| BillingRuns.OnlyTheseRevive | pkg/service/billing_webhook.go:224-292 | A terminated subscription's row becomes live again in exactly those steps that commit an accepted event or order of the tenant or write a cancel request. |
| BillingRuns.CancelOverwritesTermination | pkg/service/billing_checkout.go:176-208 | A termination that arrives between a cancel request's read and its write is overwritten, while its plan stays taken back. |
| BillingRuns.OtherOrdersAreInert | pkg/service/billing_webhook.go:217-285 | An event that starts nothing, for an order that is not the tenant's current one, changes no subscription and no quota. |
| BillingRuns.ApplyStatusShape | pkg/service/billing_webhook.go:238-274 | Exactly which rows an accepted status event writes, and when it grants the plan. |
| BillingRuns.ApplyCanceledShape | db/generated/sqlite/billing.sql.go:482-487 | A termination marks the current order's row canceled and takes back only the plan that very subscription granted. |
| BillingEffects.StatusEventEffect | pkg/service/billing_webhook.go:26-34 | A status event does nothing unless the order guards admit it; otherwise the row's status is past due exactly for past_due, canceling for canceling and active for the five others, with every other field, the granted plan and the completed checkout said as well; nothing else changes. |
| BillingEffects.StatusEventCommits | pkg/service/billing_webhook.go:229-271 | An admitted status event commits if and only if its price is known, the plan it grants can be granted, and a new row's id is new. |
| BillingEffects.TerminationEffect | pkg/service/billing_webhook.go:279-292 | What a termination writes, and that it fails only when the plan to fall back to is missing. |
| BillingEffects.OtherEventsChangeNothing | pkg/service/billing_webhook.go:133-152 | Events of other kinds change nothing; without data, order or one owner the others are refused. |
| BillingEffects.EventBelongsTo | pkg/service/billing_webhook.go:170-203 | An event is a tenant's if and only if that one exists, is named by checkout, metadata, buyer or row, and nobody else is. |
| BillingEffects.PriceByTrust | pkg/service/billing_webhook.go:165-209 | Of several prices the checkout's wins, then the order metadata's, then the product metadata's, then the row's. |
| BillingEffects.RepetitionsAreTheSameEvent | pkg/service/billing_webhook.go:96-130 | After an event was processed another is answered unapplied if and only if type, id and mode are the same, the envelope's id standing in for a missing event id. |
| BillingRuns.CancelSticks | pkg/service/billing_checkout.go:171-208 | After the user's cancel or uncancel is written, the row stays exactly so through any later transactions of any status events from before it. |
| BillingEffects.RequestEffect | pkg/service/billing_checkout.go:181-208 | A cancel request writes canceling and the flag, taking it back active and no flag. |
| BillingDelivery.NoEffectExactly | pkg/service/billing_webhook.go:217-274 | A status event changes nothing if and only if the guards ignore it or the tables already show it. |
| BillingDelivery.AppliedTwice | pkg/service/billing_webhook.go:133-165 | For every event: a second application changes nothing if and only if it is no status event (a cancellation, or one not handled); or it was accepted and its timestamp parses or the clock has not moved on; or it was ignored and is ignored again or already shown. |
| BillingOverlap.UntimedEventIsBookedLater | pkg/service/billing_webhook.go:145-148 | An event without a readable timestamp that is ignored at one clock and changes the row at a later one. |
| BillingDelivery.InterruptedThenRedelivered | pkg/service/billing_webhook.go:102-131 | A delivery any of whose statements failed, then an undisturbed one: if the first did not commit, the second does all of it; if it did, both together are one undisturbed delivery if and only if the mark was written or repeating is harmless. |
| BillingFlight.UndisturbedIsDeliver | pkg/service/billing_webhook.go:114-130 | The four statements one after the other, whichever of them fail, are the whole delivery. |
| BillingFlight.DeathIsAFault | pkg/service/billing_webhook.go:114-130 | Wherever the process dies between statements, the tables are those of a delivery whose next statements failed. |
| BillingFlight.TransactsOnce | pkg/service/billing_webhook.go:114-130 | In any run of overlapping deliveries each runs its transaction at most once. |
| BillingEffects.DeliveryAnswers | pkg/service/billing_webhook.go:102-131 | What a delivery answers, and with which error, for every pattern of failing statements. |
| BillingOverlap.FailedDeliveriesAreForgotten | pkg/service/billing_webhook.go:118-131 | However many deliveries of a key failed or died without committing, in any interleaving with everything else: an undisturbed redelivery ends in the tables, with the answer, it would have had without them. |
| BillingOverlap.SettledExactly | pkg/service/billing_webhook.go:114-130 | A transaction for a key can never run again if and only if the key is processed and no delivery of it is past its check or about to mark a failure. |
| BillingOverlap.SettledExactlyForRows | db/generated/sqlite/billing.sql.go:635-639 | Once some tenant is subscribed, so that events of the key's kind matter, a delivery of it can still change subscriptions or quotas if and only if the key is not so settled. |
| BillingOverlap.SettledKeyIsInert | pkg/service/billing_webhook.go:118-123 | Once settled, no statement of any delivery of the key, old or new, changes anything, whatever happens in between. |
| BillingOverlap.LateDuplicateRegrants | pkg/service/billing_webhook.go:118-124 | For every starting event with a timestamp that would be accepted: a run in which its key is processed, an administrator then assigns a plan, and a second delivery past its check takes it back. |
| BillingOverlap.ProcessedMeansCommitted | pkg/service/billing_webhook.go:124-130 | In every run a key is marked processed only after a transaction of it committed. |
| BillingOverlap.RunIsStatements | pkg/service/billing_webhook.go:114-130 | Any interleaving of deliveries with everything else is a run of the billing machine. |
| BillingOverlap.OverlapIsSafe | pkg/service/billing_webhook.go:102-131 | So under any overlap the invariants hold, rows keep their ids, and the administrator's plan survives without an accepted start. |
| BillingDelivery.DeliverySucceeds | pkg/service/billing_webhook.go:124-130 | A successful delivery has its transaction's effect and marks its own key processed and no other. |
| BillingOrder.Settle | pkg/service/billing_webhook.go:217-274 | After any order of the transactions with any repetitions, row and quota show the newest event. |
| BillingOrder.Confluence | pkg/service/billing_webhook.go:211-274 | Two orders of the same set of status events, with any repetitions, end with the same row (up to its drawn id and inherited period bounds) and granted quota. |
| BillingOverlap.OverlapsAgree | pkg/service/billing_webhook.go:102-131 | Likewise for two runs of overlapping deliveries with failing statements and dying processes, whose transactions were of the same events. |
| BillingRace.StaleSync | pkg/service/billing_checkout.go:289-306 | Polling an order that is older than the recorded event changes only the checkout's status. |
| BillingRace.PolledOrderIsBooked | pkg/service/billing_checkout.go:278-305 | An order that polling books shows up with its own status, mode, creation time and bounds, its plan granted and its checkout completed. |
| BillingEffects.PollingBooksOnesOwn | pkg/service/billing_checkout.go:214-219 | Polling for a tenant books for that tenant or for nobody. |
| BillingEffects.PollEffect | pkg/service/billing_checkout.go:262-277 | A poll that finds no order marks the checkout expired exactly when its session ended more than five minutes ago; one that finds an order out of service does nothing. |
| BillingEffects.CheckoutsMoveForward | pkg/service/billing_checkout.go:267-305 | In every step a checkout keeps its status, or goes from pending to completed, or is marked expired by such a poll. |
| BillingEffects.NeverRevived | pkg/service/billing_checkout.go:302-305 | So in no run is a failed or expired checkout completed. |
| BillingRace.SyncAndActivationCommute | pkg/service/billing_checkout.go:262-307 | Polling and a strictly newer activation with both bounds give the same tables in either order, from any reachable state. |
| BillingService.AgreeOnTenant | pkg/service/billing_webhook.go:186-197 | The loop answers the one tenant all claims name, and nothing when they disagree or none speaks. |
| BillingService.BillingStore.FindOwner | pkg/service/billing_webhook.go:170-209 | Collecting claims step by step gives the resolved owner. |
| BillingService.BillingStore.BookSubscription | db/generated/sqlite/billing.sql.go:663-676 | Upsert, grant and completion in sequence leave exactly the booked tables or the first error. |
| BillingService.BillingStore.ApplyStatus | pkg/service/billing_webhook.go:217-274 | The method over mutable rows does what the transaction's function says, error cases included. |
| BillingService.BillingStore.ApplyCanceled | pkg/service/billing_webhook.go:279-292 | Likewise for terminations. |
| BillingService.BillingStore.ApplyInTransaction | pkg/repo/store.go:45-76 | All of an event's writes, or none, also when the store fails one of them. |
| BillingService.BillingStore.ProcessWebhook | pkg/service/billing_webhook.go:102-131 | A delivery with no other in between, any of its statements failing, keeps the invariants and ends in the delivery function's tables and answer. |
| BillingService.BillingStore.InsertWebhookEvent | db/generated/sqlite/billing.sql.go:267-271 | Registering leaves a key that is there as it is, and says which it was. |
| BillingService.BillingStore.UpdateWebhookEvent | db/generated/sqlite/billing.sql.go:635-639 | The mark overwrites whatever status the key has. |
| BillingService.BillingStore.SyncCheckouts | pkg/service/billing_checkout.go:224-250 | Polling is the fold over the pending checkouts, one failure not stopping the rest; changed means the key before and after differ. |
| BillingService.BillingStore.Cancel | pkg/service/billing_checkout.go:176-208 | Exactly when a cancel or uncancel request is accepted, and that it writes status, flag and event time only then. |
| BillingService.BillingStore.AssignPlan | pkg/service/admin_service.go:287-295 | An assignment makes the plan the administrator's, or changes nothing. |
| BillingService.KeyTellsApart | pkg/service/billing_checkout.go:252-257 | The key changes if and only if order, status or plan changed (order ids without the bar). |
| BillingService.PollingSettles | pkg/service/billing_checkout.go:214-250 | Polling orders that the webhooks already booked reports no change. |
| JobPoolProof.StepKeeps | pkg/job/worker.go:89-204 | Every step of every interleaving keeps the pool's invariant. |
| JobPoolRuns.ItemsAreConserved | pkg/job/worker.go:89-193 | In every reachable state counted, uncounted, unsent and (only under shutdown) dropped items add up to all items. |
| JobPoolRuns.EachItemRunsAtMostOnce | pkg/job/worker.go:99-148 | No item is in two workers' hands and none is run twice. |
| JobPoolRuns.AllSettled | pkg/job/worker.go:140-155 | When all workers are gone without shutdown, success, failed and skipped add up to all items. |
| JobPoolRuns.TerminalStatusTellsTheTruth | pkg/job/worker.go:251-270 | The terminal status follows from the item rows, and the stored counters are the numbers of successful and failed rows, when no write failed. |
| JobPoolReports.RowsSayWhatWasReported | pkg/job/worker.go:157-193 | When no write failed, an item's row is success if and only if its runner reported it, failed if and only if it reported failure or nothing, skipped if and only if it reported that or was not run. |
| JobPoolReports.StatusSaysWhatWasReported | pkg/job/worker.go:251-270 | The terminal status over those reports: stopped exactly when an item was not run, else failed, partial or succeeded. |
| JobPoolReports.EveryItemIsRun | pkg/job/worker.go:89-148 | Without a stop request on the running job every item is run, once, and reported. |
| JobPoolHistory.FaultsAreFailedWrites | pkg/job/worker.go:158-187 | The faults that these statements exclude are exactly the failed writes of rows and stored counters. |
| JobPoolRuns.StopIsBounded | pkg/job/worker.go:99-116 | After a stop lands at most one more run per worker begins, plus one per failed status read. |
| JobPoolHistory.StopBoundsTheRun | pkg/job/worker.go:99-116 | From the moment a stop request lands, in whatever follows at most one run per worker begins, plus one per failed status read, counted off the steps themselves. |
| JobPoolHistory.ShutdownLosesFew | pkg/job/worker.go:99-116 | A shutdown loses at most one received item per worker. |
| JobPoolRuns.UnrunItemsEndSkipped | pkg/job/worker.go:195-204 | An item that was not run ends skipped, and only by a stop. |
| JobPoolRuns.OnlyOneRunStarts | db/generated/sqlite/jobs.sql.go:575-579 | However many attempts, one run passes the start gate. |
| JobPoolRuns.TerminalIsForEver | pkg/job/worker.go:250-280 | A terminal status is never left. |
| JobPoolRuns.StopBeforeStartSticks | db/generated/sqlite/jobs.sql.go:556-579 | A stop before the start gate leaves the job stopping, and nothing ever runs, until a restart reaps it. |
| JobPoolRuns.EndsOnlyFromPending | db/generated/sqlite/jobs.sql.go:575-579 | Before the start gate, while the process lives, a job can still end by itself if and only if it is pending and no shutdown was asked for. |
| JobPoolProgress.NeverStuck | pkg/job/worker.go:89-193 | A started job that nobody shut down always has a step of its own to take. |
| JobPoolProgress.EveryStartedJobEnds | pkg/job/worker.go:89-270 | From any reachable state of a started job its own steps, in any order, are at most so many, and it can take none exactly when its status is terminal (no write failing). |
| JobPoolProgress.ShutdownEndsThePool | pkg/job/worker.go:89-193 | After a shutdown the pool ends as well, in at most so many steps of its own, whichever writes fail. |
| EventStreamProof.StepKeeps | pkg/job/manager.go:211-246 | Every step of emitters, readers, restarts and reconnects keeps the stream's invariant. |
| EventStreamProof.BatchFollows | pkg/handler/job_handler.go:164-184 | In an ordered log a query from a prefix's end returns exactly the elements that follow. |
| EventStreamRuns.NoLostWakeup | pkg/handler/job_handler.go:114-160 | A parked stream with a stored event above its position has a token, or the emitter of that event has yet to notify. |
| EventStreamSteps.NotifyReachesTheConnected | pkg/job/broker.go:53-62 | A notification leaves a token with every connected reader and nobody else, and can come without an event. |
| EventStreamSteps.BatchesOfTwoHundred | pkg/handler/job_handler.go:164-184 | A query returns at most two hundred events, all there are if fewer, and only a full batch is followed by another query. |
| EventStreamSteps.QueriesAnswer | db/generated/sqlite/jobs.sql.go:287-289 | Whatever is stored and wherever a reader stands, the query has an answer. |
| EventStreamRuns.NumbersAreUnique | pkg/job/manager.go:211-224 | Stored numbers are distinct through restarts and counter disposal, numbers in flight are distinct, and none of them is stored already unless a counter was created below the stored maximum. |
| EventStreamNumbers.CollisionsExactly | pkg/job/manager.go:211-224 | While the counter is kept, some continuation gets an insert refused if and only if a number in flight is stored already, the counter is below the stored maximum, or there is none although events are stored. |
| EventStreamNumbers.SoundCounterIsSafe | pkg/job/manager.go:215-219 | A counter created with the stored maximum, or on an empty log, carries no such risk of its own. |
| EventStreamRuns.ClientsSeeAnIncreasingStream | pkg/handler/job_handler.go:107-184 | Over any reconnects, since it last started over from zero, a client's events are strictly increasing and stored. |
| EventStreamRuns.ClientsSeeAPrefix | pkg/handler/job_handler.go:114-184 | While events are stored in number order, a client has a prefix of the log. |
| EventStreamLoss.StepLoses | pkg/handler/job_handler.go:164-184 | A step loses a stored event to a client that has lost none if and only if it is an insert at or below the client's position, or a send past a stored number. |
| EventStreamLoss.LostExactlyBySuchSteps | pkg/handler/job_handler.go:164-184 | Over any run, disconnects in mid-batch included: something is lost if and only if one of its steps was such a step. |
| EventStreamLoss.IdleClientsHaveEverything | pkg/handler/job_handler.go:132-160 | An idle client has every stored event if and only if no step of the run lost one to it, and has them in stored order if and only if that is number order. |
| EventStreamLoss.AboveTheHorizonNothingIsLost | pkg/handler/job_handler.go:164-184 | If every insert is above what the client's current batch reaches, nothing is ever lost to it. |
| EventStreamLoss.BatchLosesExactlyTheUncovered | pkg/handler/job_handler.go:164-184 | Sending a batch to its end loses something if and only if it does not cover what is stored. |
| EventStreamLoss.DisconnectCovers | pkg/handler/job_handler.go:107-112 | A disconnect in mid-batch saves such an event for the next connection. |
| EventStreamRuns.OneEmitterStaysOrdered | pkg/job/manager.go:230-246 | With one emitter the log is in number order, unless a counter was created below the stored maximum. |
| EventStreamLoss.PassedOverForEver | pkg/handler/job_handler.go:164-184 | A number a client has passed over never reaches it, unless it starts over from zero. |
| EventStreamLoss.OvertakingLosesAnEvent | pkg/job/manager.go:237-241 | A run with two emitters after which a stored event never reaches the client without starting over. |
| EventDrain.Drain | pkg/handler/job_handler.go:164-184 | The drain sends the longest prefix of what is pending that writes and queries allow, advances the position accordingly, and succeeds exactly when that is everything. |
| EventDrain.ResumeLosesNothing | db/generated/sqlite/jobs.sql.go:287-289 | Cut anywhere and resumed on the grown log, a client gets what one uninterrupted drain would have sent. |
| EventDrain.DeliveredAndRestAreAll | pkg/handler/job_handler.go:107-112 | Over any chain of reconnects, deliveries followed by what is above the last number are the log's tail. |
| Broker.Broker.Subscribe | pkg/job/broker.go:27-38 | A fresh, empty channel joins exactly its job. |
| Broker.Broker.Unsubscribe | pkg/job/broker.go:40-49 | Removes that channel only, and the job's entry with its last one. |
| Broker.Broker.Notify | pkg/job/broker.go:53-62 | Fills every channel of the job and touches no other. |
| Broker.SignalsCoalesce | pkg/job/broker.go:27-62 | Any number of notifications wakes a subscriber once, and other jobs' not at all. |
| Fields.SplitFields | pkg/mailer/importer.go:198-212 | The loops compute the trimmed pieces without the empty tail. |
| Fields.SplitOfJoin | pkg/mailer/exporter.go:16-28 | Splitting undoes joining when no non-final field ends in a dash, and otherwise some field comes back shorter. |
| Fields.PartsAreTidy | pkg/mailer/importer.go:198-212 | Parsed fields are trimmed, free of separators, the last one not empty. |
| Fields.SplitInvertsJoin | pkg/mailer/importer.go:193-212 | A joined line reads back as its fields if and only if they are trimmed, separator-free, the last not empty and no other ends in a dash. |
| ExportedLines.AccountIsWritten | pkg/mailer/exporter.go:31-58 | For every account: the fields it is written as, or why it cannot be exported. |
| ExportedLines.FieldsAreJoined | pkg/mailer/exporter.go:16-28 | They are joined by four dashes unless one of them holds four dashes, in which case the export is refused. |
| RoundTrip.ProviderIgnoresCase | pkg/mailer/provider.go:97-107 | Lower-casing an address does not change its provider. |
| RoundTrip.OAuthFields | pkg/mailer/importer.go:82-94 | A clean OAuth line comes back if and only if token and client id are not mistaken for each other or for host and port. |
| RoundTrip.PasswordFields | pkg/mailer/importer.go:101-144 | A clean password line comes back if and only if, when host and port are spelled out, they look like a host and a port. |
| RoundTrip.SameMeansClean | pkg/mailer/importer.go:56-191 | Credentials that came back the same had clean fields. |
| RoundTrip.ImportUndoesExport | pkg/mailer/exporter.go:16-58 | For every exportable account, automatic import gives the lower-cased email and the same credentials if and only if its fields are clean and none clashes. |
| RoundTrip.EitherOrderParses | pkg/mailer/importer.go:154-165 | When one of the two strings has a client id's shape, their order and the option do not matter. |
| RoundTrip.ClientIDsAreNotHosts | pkg/mailer/importer.go:82-94 | A client id never looks like a host, so a four-field line is custom IMAP exactly when the third field looks like a host and the fourth is a port. |
| ParsedLines.LineIsRead | pkg/mailer/importer.go:56-191 | For every line and all options: when it is accepted and with which error it is not, in which format it is read, and every field of the account it becomes. |
| ParsedLines.TokensConnect | pkg/mailer/importer.go:167-190 | An account with a token connects to imap.gmail.com by IMAP if and only if its address is at gmail.com or googlemail.com, otherwise to outlook.live.com as an Outlook account. |
| ParsedLines.EmailIsServed | pkg/mailer/provider.go:68-107 | Which provider, host and account type each known domain has, and that all others have none. |
| FileRoundTrip.ExportedFileReadsBack | pkg/service/account_export.go:29-50 | A whole exported file has one line per exported account, and each comes back exactly under its own condition. |
| Text.ItoaRoundTrip | pkg/mailer/exporter.go:53-57 | A printed port reads back and is a clean last field. |
| Text.NumbersAreRead | pkg/mailer/importer.go:96-99 | Exactly an optional sign and at least one digit are a number. |
| ImportProof.ImportAccounting | pkg/service/account_import.go:25-78 | For any content and failures: lines add up, accounts grow by exactly created and never past the quota, as many errors are listed as there were, two hundred at most, and truncation is reported exactly. |
| ImportErrors.FirstErrorsAreListed | pkg/model/mail_account.go:294-302 | The listed errors are the first two hundred of all the problems, in the order lines and failed batches met them. |
| ImportContent.LinesAreTheContent | pkg/service/account_import.go:31-31 | The lines hold no line feed and, joined by line feeds, are the content. |
| ImportContent.BatchStaysSmall | pkg/service/account_import.go:70-76 | No transaction is of more than five hundred accounts. |
| ImportProof.BatchingIsInvisible | pkg/service/account_import.go:37-76 | Unless a transaction fails, batches of 500 give what writing each line at once gives. |
| ImportProof.FlushKeeps | pkg/service/account_import.go:38-60 | Writing or failing a batch keeps the accounting. |
| ImportRows.ImportRespectsStoredAccounts | pkg/service/account_import.go:207-258 | No account disappears; one changes only to the credentials of the first line with its address, with its verdict void, and keeps group, proxy and unspecified remark; a new one is in the chosen group; without overwriting none changes. |
| ImportQuota.ImportFillsTheQuota | pkg/service/account_import.go:159-169 | Without failures an import creates an account for each of the n new addresses in it, and fewer only when the tenant has a limit and it is reached, which it never exceeds. |
| AccountImport.ImportRun.PlanLine | pkg/service/account_import.go:130-186 | Parsing, repetition, conflict, quota and assembly with the refund, as the line's function says. |
| AccountImport.ImportRun.PersistBatch | pkg/service/account_import.go:42-49 | All rows of the batch or, failing anywhere, none. |
| AccountImport.ImportRun.Flush | pkg/service/account_import.go:38-60 | The compensation turns a failed batch's counts into failures. |
| AccountImport.ImportRun.Import | pkg/service/account_import.go:31-78 | The run over the content ends in the state the fold describes. |
| MergePaging.SortIsStable | pkg/service/message_service.go:144-146 | Newest first, the messages of each instant in their order. |
| MergePaging.StableOrderIsUnique | pkg/service/message_service.go:144-146 | Those two properties determine the list. |
| MergePaging.PageOfWhole | pkg/service/message_service.go:110-156 | With folders newest-first, fetching skip + top of each gives exactly that slice of everything sorted. |
| MergePaging.PagesTile | pkg/service/message_service.go:110-156 | Consecutive pages tile the sorted whole without gap or repetition. |
| MergePaging.ListAll | pkg/service/message_service.go:114-156 | The page, when the request fails and with which error, and what is recorded. |
| LenientBase64.Read | pkg/mailer/imapx/base64.go:16-52 | The shrinking loop ends with the decoding of the leading letters of the blank-free input, less one that stands alone. |
| LenientBase64.CutLettersDecode | pkg/mailer/imapx/base64.go:36-51 | Letters cut anywhere but after one of a group decode to a prefix of the data. |
| LenientBase64.ReaderUndoesEncoding | pkg/mailer/imapx/base64.go:11-52 | Folded encoding cut anywhere reads as a prefix of the data, uncut and within the limit as all of it. |
| LenientBase64.LetterIsTheStandards | pkg/mailer/imapx/base64.go:29-42 | The letters and their values are those of Table 1 of RFC 4648. |
| LenientBase64.GroupIsOneNumber | pkg/mailer/imapx/base64.go:29-42 | Three bytes and their four letters are one number, highest bits first. |
| LenientBase64.SqueezeDropsBlanks | pkg/mailer/imapx/base64.go:22-29 | Exactly carriage returns, line feeds, spaces and tabs are dropped. |
| Scheduler.TickStartsOneJobEach | pkg/service/refresh_scheduler.go:68-133 | A tick starts at most one job per tenant and none for a busy one. |
| Scheduler.TickClaims | db/generated/sqlite/mail_groups.sql.go:13-20 | A claimed group's next time is one interval from now however late it was, only rows still due are claimed, all others stay. |
| Scheduler.TickEffect | pkg/service/refresh_scheduler.go:68-133 | A tick claims exactly the groups of free tenants it can, moves each to 60 times its interval in seconds from now, and starts exactly one job for each that can be refreshed, in their order; nothing else changes. |
| Scheduler.RefreshScheduler.ClaimGroupRefresh | db/generated/sqlite/mail_groups.sql.go:13-20 | The conditional update claims exactly a row that is still due. |
| Scheduler.RefreshScheduler.Tick | pkg/service/refresh_scheduler.go:68-87 | The round over the scanned groups, with all three properties above. |
| SchedulerFairness.ServedOnce | pkg/service/refresh_scheduler.go:88-133 | A tick that finds the tenant idle claims the group or one of those ahead of it. |
| SchedulerFairness.NobodyStarves | pkg/service/refresh_scheduler.go:98-107 | With r groups of the tenant ahead, a group is claimed, and if it can be refreshed its job started, by the (r+1)-th tick that serves it. |
| SchedulerFairness.NotBeforeItsTime | pkg/service/refresh_scheduler.go:109-118 | Until its time comes a group is left alone. |
| SchedulerFairness.NeverWithoutSchedule | db/generated/sqlite/mail_groups.sql.go:194-206 | However many ticks pass, a group without a schedule, or whose tenant has no active user, is never claimed. |
| Health.HealthOf | pkg/service/account_health.go:40-61 | Which endings mean invalid, fine or nothing, each if and only if. |
| HealthRuns.HealthIsLatestVerdict | pkg/service/message_service.go:376-399 | In every run, visits overlapping with edits, imports and each other, an account's health is the latest verdict recorded since it was last reset. |
| HealthRuns.SweepRemovesOnlyTheInvalid | db/generated/sqlite/mail_accounts.sql.go:1267-1275 | A sweep removes exactly the accounts whose latest verdict is invalid, which is always a ban, a refused mailbox or a failed login. |
| HealthRuns.SweepRemovesAsManyAsConfirmed | pkg/service/account_health.go:258-275 | Undisturbed, as many accounts go as the user confirmed; otherwise nothing happens. |
| HealthRuns.WrongedExactly | pkg/service/account_health.go:105-128 | Without new credentials in between, an account can be deleted on a verdict about ones it does not have if and only if a visit that began with others can still condemn it, or an edit that read others has yet to write. |
| HealthRuns.RepairProtectsExactly | db/generated/sqlite/mail_accounts.sql.go:1242-1250 | New credentials put an account out of reach of that if and only if no such visit and no edit was under way when they came. |
| HealthRuns.BanSurvivesExactly | db/generated/sqlite/mail_accounts.sql.go:1333-1350 | After any run a stored ban is still there if and only if no other status was written last, by the user, an import or an edit. |
| HealthRuns.ImportLiftsTheBan | pkg/service/account_import.go:207-218 | A run in which a provider's ban is stored and an overwriting import makes the account active again. |
| HealthRuns.UnsavedBanIsForgotten | pkg/service/message_service.go:400-406 | When the write of the ban fails, the account stays as it was and the visit is over. |
| HealthRuns.BannedIsRefused | pkg/service/message_service.go:248-305 | A visit gets past the stored status if and only if the account is active and its credentials are readable. |
| HealthSteps.CredentialsAreNew | db/generated/sqlite/mail_accounts.sql.go:1242-1250 | New credentials are none of those issued before and carry no verdict. |
| HealthSteps.EditsWriteTheRow | pkg/service/account_service.go:320-352 | An edit writes the status and either new credentials or those it read, and nothing to a row deleted meanwhile. |
| HealthSteps.OnceEach | pkg/service/message_service.go:376-407 | In any run a visit records at most once and an edit is written at most once. |
| HealthService.HealthService.WriteResult | pkg/service/message_service.go:376-407 | The write-back of one access or refresh: the verdict, then the ban as a second write; either may fail. |
| HealthService.HealthService.Visit | pkg/service/account_health.go:105-128 | A check, access or refresh run by itself is its steps, and what it answers. |
| HealthService.VisitWritesOneRow | pkg/service/message_service.go:376-407 | All of it together: one row at most, the verdict the ending calls for, the ban the provider reported. |
| HealthService.HealthService.DeleteInvalid | pkg/service/account_health.go:258-275 | Succeeds if and only if the confirmed count is that of the invalid accounts and not zero, and then removes exactly those. |
| OAuthFlow.StepKeeps | pkg/service/oauth_service.go:210-349 | Every step of concurrent callbacks and completions keeps the flow's invariant. |
| OAuthFlow.FlowReplacesCredentialsAtMostOnce | db/generated/sqlite/oauth_authorizations.sql.go:13-18 | At most one replacement, exactly when consumed and before expiry; one success at most; one exchange at most. |
| OAuthFlow.FinishedFlowsStayFinished | db/generated/sqlite/oauth_authorizations.sql.go:13-18 | Consumed and failed are final. |
| OAuthFlow.ReplacedOnlyByConsumption | pkg/service/oauth_service.go:340-347 | The account's token is the old one or the installed one: replaced if and only if consumed. |
| OAuthFlow.CompletionSucceeds | pkg/service/oauth_service.go:292-349 | Exactly when an undisturbed completion succeeds, and that otherwise it changes nothing. |
| OAuthSteps.CallbackSucceeds | pkg/service/oauth_service.go:210-258 | Exactly when an undisturbed callback is admitted and its code exchanged, down to the last instant. |
| OAuthSteps.CallbackFails | pkg/service/oauth_service.go:238-250 | A failing callback fails a flow that was started or exchanged, and no other. |
| OAuthSteps.CallbacksReportOnce | pkg/service/oauth_service.go:210-258 | In any run a callback exchanges or fails once at most. |
| OAuthSteps.ConsumedHoldsNoToken | db/generated/sqlite/oauth_authorizations.sql.go:13-18 | A consumed flow holds no token any more. |
| OAuthFlow.LateFailureSpoilsTheFlow | pkg/service/oauth_service.go:238-250 | A run in which a second callback's failure makes an exchanged flow useless. |
| OAuthFlow.SpoiledOnlyByAdmittedCallbacks | pkg/service/oauth_service.go:210-250 | An exchanged flow whose row is still there can be failed if and only if another callback was admitted. |
| OAuthFlow.FlowStore.FinishCompletion | pkg/service/oauth_service.go:340-347 | Both statements, or neither. |

## Left out

- BillingOrder.Confluence: checkout status is not part of it, because a stale activation returns before marking the checkout; `canceled` events are excluded, because they have no timestamp guard.
- BillingOverlap.SettledExactlyForRows: the subscribed tenant stands for some event that would change rows; without any tenant, price or quota nothing can be booked at all.
- BillingOverlap.FailedDeliveriesAreForgotten: compares with what the other steps of the run do, taking their answers from providers and clocks as given.
- Transactions run one after another, as on the single connection to SQLite; what a weaker isolation level would let through is not modelled.
- EventStreamLoss.IdleClientsHaveEverything: says nothing about when the server closes a stream; the terminal status is written before the finished event, so a stream may close without it.
- EventStreamRuns.NoLostWakeup: an insert that is reported as failed is taken to have stored nothing.
- JobPoolRuns.TerminalStatusTellsTheTruth: row and stored-counter claims assume that no store write failed; failed writes are logged and ignored by the code.
- ImportProof.BatchingIsInvisible: assumes no other writer changes the tenant's accounts during the import.
- Text.ItoaRoundTrip: integers are unbounded; the number parser's range error is not modelled, because every use rejects such numbers as ports anyway.
- LenientBase64.Read: a read error of the underlying stream shows only as the bytes read before it; the decoder's tolerance of line breaks is not modelled, since they are gone before.
- HealthRuns.HealthIsLatestVerdict: verdicts whose write failed do not count; the code only logs such failures.
- Lower-casing is modelled for ASCII letters; other letters are left as they are.
- Texts are sequences of characters; bytes that are not valid UTF-8 are not modelled.
- Row ids drawn as random UUIDs are parameters of the steps that draw them; two draws are distinct where that matters.
- Webhook signatures, store and environment checks, payload hashes and JSON decoding are left out; an event arrives as its fields, with an absent timestamp or data object when it does not parse.
- Creating a checkout at the payment provider, its idempotency key and the query that selects pending checkouts are left out; opening one is a step that adds a pending row.
- Heartbeats and their timeouts are left out: reaping is possible for a dead process's job at any time.
- Progress events, their throttling and the per-account delay do not affect what is proved about the pool.
- Preparing an import (group, status and option checks), encryption of credentials and the fields the import does not touch are left out.
- The scan of due groups and the folder listings of mail providers are parameters described by what the query or provider promises.
- OAuth start, PKCE and the exchange of the code are the provider's side: their outcome is a parameter.
- HTTP, SSE framing, the two SQL dialects, retention purges, quota metering, the proxy and channel fallbacks and the web interface are not part of this model.
