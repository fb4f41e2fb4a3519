# Verified model of the delivery queues, the custody engine and their supervisors

The program watches a shop on one laptop and may send metadata to a cloud service. This project models the parts
whose mistakes would be hard to see, as mutable Dafny classes that follow the program statement by statement, and
proves what they promise. Nothing in it was executed; everything is checked by the Dafny verifier.

| files | what they model |
|---|---|
| `OutboxModel`, `MediaModel` | the effect of each operation of the two cloud queues on their tables |
| `OutboxDatabase`, `MediaDatabase` | the queues as classes: rows rewritten one statement at a time, with rollback |
| `OutboxInvariant`, `OutboxSteps`, `MediaSteps` | what every operation keeps, and how a row may evolve |
| `OutboxRuns`, `OutboxHistory`, `OutboxTheorems` | all runs of all operations from the empty database, and the promises over them |
| `OutboxPausing` | which step changes the state of a binding, and what leaves it or enters it while it is paused |
| `OutboxAttempts`, `OutboxBackoff` | how often a row is sent over whole runs, and that a retry's pause is kept |
| `OutboxFencing` | what takes a claim's lease away, and what is refused from then on in every run |
| `OutboxRetention` | how long media stays over whole runs, and when a pass of the sender is refused |
| `OutboxWitnesses` | short runs from the empty database that end where an expected promise does not hold |
| `DeliveryModel`, `DeliveryPass`, `Delivery` | the sender: its policy, the fair pass over waiting rows, its first transaction, the authorisation of a request, the settlement of an answer |
| `DeliveryAttempts` | how many claims a sender that follows its policy needs to be done with a row |
| `CustodyCoverage`, `CustodyModel`, `CustodyEngine`, `CustodyHistory`, `CustodyTheorems`, `CustodyDecisions` | the product custody engine and its meaning on a whole history |
| `ServiceHealth`, `Supervisor` | health probes and the bounded recovery of the two child processes |
| `Cooldown`, `Evaluation` | the greedy replay of the alarm cooldown, the coverage of a recording, the count of false alarms over all normal recordings |
| `Eviction` | rolling eviction of retained samples |
| `Basics`, `Sorting` | `ORDER BY ... LIMIT`, sums over rows, stable sorting |

## How the pieces fit

Each operation of the queues is a function from the tables to the tables and a result (`Step`); a refusal returns the
tables unchanged, as the savepoint of services/api/cloud_outbox.py:162-174 does. The methods of `Outbox` and
`MediaOutbox` are proved equal to these functions and keep the invariant `Inv`. A `World` adds what happened before:
every claim that was issued, every token that was settled, every row that was created and every row that was pruned.
The theorems quantify over all sequences of twenty kinds of event by any callers, with a clock that does not run back,
fresh random identifiers and fixed limits. `WorldInv` holds in every world reached from the empty database
(`StartIsGood`, `RunKeeps`), so a theorem that asks for it, or for `Inv` of the tables, holds in every reachable world;
the main theorems name the run from the empty database themselves.

The custody engine is a class of mutable records proved equal to functions on record values; those are then proved
equal to a predicate that reads the whole history of one visit and product at once. The supervisor, the sender, the
cooldown replay and the eviction are classes and loops proved against statements about their results.

## What the proofs brought to light

- A pause, a resume, a disconnection or the keyless stop fences observation settlements in the queue itself, but not
  media settlements: the media fence compares the row with the claim and never reads the binding
  (`OutboxTheorems.PauseDoesNotFenceMedia`). `OutboxWitnesses.MediaOutlivesStops` is a run after which each of these
  stops succeeds and the manifest that was being sent is acknowledged all the same. Only the sender's own comparison of
  bindings prevents that settlement, and it does so after every stop, at the last generation too
  (`DeliveryModel.StopsChangeContext`). What does fence media, and for good, is the first mirroring after its
  observation was withdrawn, a claim that finds its lease overdue, and a restore (`OutboxFencing.StopsFenceMedia`).
- The sender's media settlement knows no halting code: what halts it for an observation is tried again for media
  (services/api/cloud_delivery.py:493-504).
- The comment at services/api/cloud_media_outbox.py:241-242 says that media can never block parent pruning. That is so
  when a reconciliation ran within a day of the parent's settlement (`OutboxRetention.ReconciledPassIsAccepted`).
  `MediaSteps.PruneBlockedExactly` gives the exact condition for a refused pass and `OutboxWitnesses.PruneCanBeBlocked`
  a run of five calls that leads there: an observation is queued with its media and deleted before it was sent, and the
  sender does not look at it for a month.
- Such a refusal is permanent. One transaction withdraws, mirrors, prunes and claims, so the refusal also undoes the
  mirroring that would have ended it, and no claim is made: the sender never delivers anything for that binding again
  (`DeliveryPass.DeliveryStops`, from a run of the queue in `OutboxWitnesses.DeliveryCanStop`).
- The policy's maximum of attempts bounds the claims of a row whose leases are answered
  (`DeliveryAttempts.ClaimsAreBounded`). For media it is one claim more: a manifest that is accepted at the last attempt
  is followed by a claim for its content all the same (`DeliveryAttempts.MediaClaimsAreBounded`);
  `OutboxWitnesses.MediaGoesBeyondThePolicy` is such a run. A claim whose lease is lost without an answer is
  counted too, but the program looks at the maximum only when an answer comes.
- A never-sent parent that expires has no withdrawal reason, so its media is mirrored as cancelled and not as expired
  (services/api/cloud_outbox.py:449-452 with services/api/cloud_media_outbox.py:189-190).
- `_covers` over an empty stretch is true without intervals and can be false with one more
  (`CustodyCoverage.EmptyStretch`). The engine never reaches that case with an alarm at stake, because the exit of a
  complete chain is strictly later than the shelf departure.
- The watermark zero is stored as minus one (services/api/custody_engine.py:283). It can never decide an alarm: the exit
  of a complete chain is at a positive time.
- A settled retry before any attempt would ask for half a base interval, which the queue refuses; the invariant shows
  that a leased row always has an attempt (`DeliveryModel.SenderChecksTheFence`).

## Model

| member | source | states |
|---|---|---|
| Basics.OrderBy | services/api/cloud_outbox.py:522-524 | the page holds exactly the rows with fewer than `limit` rows before them, in ascending order, and every row left out comes after it |
| OutboxDatabase.Outbox.CheckBinding | services/api/cloud_outbox.py:283-298 | scope, generation, key and clock are checked in this order; the clock is written only when all pass |
| OutboxDatabase.Outbox.CreateBinding | services/api/cloud_outbox.py:340-359 | a new paused binding of generation 1, or the exact refusal; one live binding per installation and the invariant are kept |
| OutboxDatabase.Outbox.SetPaused | services/api/cloud_outbox.py:361-375 | pausing and resuming raise the generation, release every lease of the binding and keep the invariant; the last generation refuses |
| OutboxDatabase.Outbox.Release | services/api/cloud_outbox.py:377-380 | exactly the leased rows of the binding return to the queue without a lease |
| OutboxDatabase.Outbox.Enqueue | services/api/cloud_outbox.py:382-425 | one new pending row with its sealed payload, the id of the equal row that exists, or the first refusal that applies, with nothing changed |
| OutboxDatabase.Outbox.Quota | services/api/cloud_outbox.py:427-444 | refuses exactly when records, waiting rows or charged bytes of the binding or the installation, or the day's rows, reach their limit |
| OutboxDatabase.Usage | services/api/cloud_outbox.py:433-440 | one loop counts the selected rows, those that wait and the sum of their charges |
| OutboxDatabase.Outbox.WithdrawOne | services/api/cloud_outbox.py:446-460 | erases a row that was never sent, turns a sent one into a withdrawal, leaves a withdrawal alone; the reserve always suffices |
| OutboxDatabase.Outbox.Withdraw | services/api/cloud_outbox.py:462-469 | withdraws one row of the caller's binding and changes no other; the invariant is kept |
| OutboxDatabase.Outbox.ExpireDue | services/api/cloud_outbox.py:471-475 | withdraws exactly the observations of the binding whose deadline is reached |
| OutboxDatabase.Outbox.Expire | services/api/cloud_outbox.py:477-481 | the checked operation around it, with rollback on refusal |
| OutboxDatabase.Outbox.Disconnect | services/api/cloud_outbox.py:483-498 | withdraws every row, releases every lease and closes the binding under a new generation; closing twice changes only the clock |
| OutboxDatabase.Outbox.Claim | services/api/cloud_outbox.py:508-544 | expiry and reclaim first, then nothing while a reservation is held, else the first due row is leased, counted as one attempt more and the reservation written; from a valid state no ciphertext ever fails |
| OutboxDatabase.Outbox.NextDue | services/api/cloud_outbox.py:522-526 | the least due row: withdrawals before observations, then the oldest, then the smallest id |
| OutboxDatabase.Outbox.CheckLease | services/api/cloud_outbox.py:546-554 | passes exactly for a live binding, this generation, this token, this operation and an unexpired lease |
| OutboxDatabase.Outbox.Retry | services/api/cloud_outbox.py:556-564 | the row waits for the given pause and the claim's own reservation is freed; anything else is refused without a change |
| OutboxDatabase.Outbox.Acknowledge | services/api/cloud_outbox.py:566-585 | an exact replay is accepted without effect, another receipt conflicts, else the row is receipted once and its payload erased |
| OutboxDatabase.Outbox.Reject | services/api/cloud_outbox.py:587-600 | a refused observation becomes a withdrawal, a refused withdrawal is blocked; the reservation is freed |
| OutboxDatabase.Outbox.PruneTerminal | services/api/cloud_outbox.py:602-615 | deletes one page of the oldest spent rows of 31 days, or refuses when media still references one of them |
| OutboxDatabase.PauseRow | services/api/cloud_connection.py:196-204 | pauses a live binding without its key, at the last generation too, and releases its leases |
| OutboxDatabase.MarkRestored | services/api/cloud_outbox.py:234-272 | the restore's statements in their order equal one row-wise update; nothing changes at an exhausted generation |
| MediaDatabase.MediaOutbox.EnqueueOverview | services/api/cloud_media_outbox.py:146-180 | one reference per observation: a new one, the existing equal one, or a conflict |
| MediaDatabase.MediaOutbox.MirrorParents | services/api/cloud_media_outbox.py:183-196 | the two updates together equal one mirroring of each row of the binding |
| MediaDatabase.MediaOutbox.Claim | services/api/cloud_media_outbox.py:198-232 | mirrors, reclaims, and leases the oldest due reference of an active binding under the shared reservation |
| MediaDatabase.MediaOutbox.Reconcile | services/api/cloud_media_outbox.py:234-244 | mirrors the parents and deletes exactly the references settled for 30 days |
| MediaDatabase.MediaOutbox.CheckLease | services/api/cloud_media_outbox.py:246-254 | passes exactly for the row, token, generation and step of the claim while the lease lasts |
| MediaDatabase.MediaOutbox.Retry | services/api/cloud_media_outbox.py:256-265 | back to the step it came from after the pause; the reservation is freed |
| MediaDatabase.MediaOutbox.AcknowledgeManifest | services/api/cloud_media_outbox.py:267-282 | records the evidence and goes on to the content or is ready; another evidence conflicts |
| MediaDatabase.MediaOutbox.AcknowledgeContent | services/api/cloud_media_outbox.py:284-293 | ready only for the acknowledged evidence |
| MediaDatabase.MediaOutbox.Reject | services/api/cloud_media_outbox.py:295-301 | blocks the reference and frees the reservation |
| OutboxInvariant.WithdrawalFits | services/api/cloud_outbox.py:453-456 | every withdrawal ciphertext is at most 128 bytes, so the 256-byte reserve is never too small |
| OutboxSteps.ClaimAlwaysDecodes | services/api/cloud_outbox.py:527-528 | in a valid state no claim ever meets a ciphertext it cannot open |
| OutboxSteps.CreateBindingKeeps | services/api/cloud_outbox.py:340-359 | keeps the invariant and lets every row evolve only forwards |
| OutboxSteps.SetPausedKeeps | services/api/cloud_outbox.py:361-375 | keeps the invariant and lets every row evolve only forwards |
| OutboxSteps.DisconnectKeeps | services/api/cloud_outbox.py:483-498 | keeps the invariant and lets every row evolve only forwards |
| OutboxSteps.PauseRowKeeps | services/api/cloud_connection.py:196-204 | keeps the invariant and lets every row evolve only forwards |
| OutboxSteps.EnqueueKeeps | services/api/cloud_outbox.py:382-425 | keeps the invariant with a fresh row, and changes no other row |
| OutboxSteps.WithdrawItemKeeps | services/api/cloud_outbox.py:462-469 | keeps the invariant and lets every row evolve only forwards |
| OutboxSteps.ExpireItemsKeeps | services/api/cloud_outbox.py:471-481 | keeps the invariant and lets every row evolve only forwards |
| OutboxSteps.ClaimItemKeeps | services/api/cloud_outbox.py:508-544 | keeps the invariant; the only new lease carries the token that was drawn |
| OutboxSteps.RetryItemKeeps | services/api/cloud_outbox.py:556-564 | keeps the invariant and lets every row evolve only forwards |
| OutboxSteps.AcknowledgeItemKeeps | services/api/cloud_outbox.py:566-585 | keeps the invariant and lets every row evolve only forwards |
| OutboxSteps.RejectItemKeeps | services/api/cloud_outbox.py:587-600 | keeps the invariant and lets every row evolve only forwards |
| OutboxSteps.PruneTerminalKeeps | services/api/cloud_outbox.py:602-615 | keeps the invariant; what leaves the table was never sent or is a receipted withdrawal, and is 31 days old |
| OutboxSteps.MarkRestoredKeeps | services/api/cloud_outbox.py:234-272 | keeps the invariant and lets every row evolve only forwards |
| OutboxRuns.EffectKeeps | services/api/cloud_outbox.py:275-615 | every one of the twenty kinds of step, of either queue, keeps the invariant and evolves rows only forwards |
| OutboxHistory.StartIsGood | services/api/cloud_outbox.py:183-231 | the empty database satisfies the invariant over worlds |
| OutboxHistory.NextKeeps | services/api/cloud_outbox.py:275-615 | every allowed event keeps the invariant over worlds |
| OutboxHistory.RunKeeps | services/api/cloud_outbox.py:275-615 | every run keeps the invariant over worlds: tables, issued and settled claims, creations and deletions agree |
| OutboxTheorems.SentIsNeverForgotten | services/api/cloud_outbox.py:446-460 | a row that was sent stays pending, leased, received or blocked in every later world until its withdrawal is receipted, and a withdrawal never becomes an observation again |
| OutboxTheorems.OneRequestInFlight | services/api/cloud_outbox.py:517-541 | over every run, both queues and all bindings of an installation never have two unsettled, unexpired requests, and the reservation names the one there is |
| OutboxTheorems.StorageIsBounded | services/api/cloud_outbox.py:427-444 | in every reachable world the bytes really stored for any binding and any installation are within the limit, although only enqueue asks |
| OutboxTheorems.RowsAreBounded | services/api/cloud_outbox.py:427-444 | so are the records and the waiting observations of every binding and every installation |
| OutboxTheorems.BindingsAreBounded | services/api/cloud_outbox.py:346-350 | in every reachable world no installation has more bindings than its limit, closed ones included |
| OutboxTheorems.CreatedExactly | services/api/cloud_outbox.py:340-359 | a binding is created if and only if its name and target are new, its installation has room and no live binding; then it is paused, of generation 1, and nothing else changes |
| OutboxTheorems.DailyLimitSlides | services/api/cloud_outbox.py:442-444 | for every instant, at most the daily number of rows was created in the day before it, deleted rows included |
| OutboxTheorems.StaleSettlementChangesNothing | services/api/cloud_outbox.py:546-600 | without a row leased to its token, a claim's retry and reject are refused and its acknowledgement changes no row |
| OutboxTheorems.StaleMediaSettlementChangesNothing | services/api/cloud_media_outbox.py:246-301 | the same for all media settlements |
| OutboxTheorems.FencedForever | services/api/cloud_outbox.py:546-554 | once no row is leased to an issued token, no row of any later world is |
| OutboxTheorems.SettlesAtMostOnce | services/api/cloud_outbox.py:556-600 | after the event that settles a token no event of any run settles it again |
| OutboxTheorems.AcknowledgementReplays | services/api/cloud_outbox.py:573-576 | after an acknowledgement the same receipt is accepted without effect and any other conflicts |
| OutboxTheorems.StopsDropLeases | services/api/cloud_outbox.py:361-380 | pause, resume, disconnect and the keyless stop leave no lease in the binding |
| OutboxTheorems.WithdrawalDropsLease | services/api/cloud_outbox.py:446-475 | withdrawal, expiry and the reclaim of overdue leases drop the row's lease at once |
| OutboxTheorems.PauseDoesNotFenceMedia | services/api/cloud_media_outbox.py:246-254 | keyless stop, pause, resume and disconnection leave the fence of every media claim as it was; only a caller with the new reference is refused |
| OutboxTheorems.EnqueueIsIdempotent | services/api/cloud_outbox.py:408-413 | an enqueue of a retained source changes no row; it returns its one row if and only if an active binding gets the same observation again, and any other conflicts |
| OutboxTheorems.QuotaIsExact | services/api/cloud_outbox.py:427-444 | a new row is refused for its quota if and only if it would break one of the limits of its binding, its installation or its day |
| OutboxTheorems.DeletedIsNeverReadmitted | services/api/cloud_outbox.py:408-417 | after a row was pruned its observation is refused as expired in that and every later world, unless the binding, the observation's own form, a newer row of its source or a later activation refuses it first |
| OutboxTheorems.DeletedForever | services/api/cloud_outbox.py:602-615 | a pruned row never comes back in any later world, and what is known of it never changes |
| OutboxTheorems.PruneTakesOldest | services/api/cloud_outbox.py:602-615 | a committed deletion takes as many rows settled for 31 days as there are, up to its limit and the earliest first, returns their number and leaves all others as they are |
| OutboxTheorems.ClaimEndsInTime | services/api/cloud_outbox.py:531-533 | a claim ends after it begins, within its lease, and an observation's before its deadline and within a day of admission |
| OutboxTheorems.ReceiptsAreInTime | services/api/cloud_outbox.py:566-585 | in every reachable world a received observation was receipted strictly before its deadline |
| OutboxTheorems.ClaimTakesFirst | services/api/cloud_outbox.py:517-526 | a live binding's claim succeeds if and only if no reservation is held and some row is pending with its pause over, a withdrawal or a current observation of an active binding; it takes a withdrawal first, then the oldest row, then the smallest id |
| OutboxTheorems.ClaimCarriesRow | services/api/cloud_outbox.py:527-544 | in every reachable world a claim carries exactly the observation that was enqueued, or the withdrawal of that source for the row's reason, and its row is leased to it |
| OutboxTheorems.RestoreFences | services/api/cloud_outbox.py:234-272 | after a restore no binding is live, every reference to one is stale, nothing waits, no payload or reservation is left, and every unreceipted attempt is blocked for management |
| OutboxTheorems.RestoreIsIdempotent | services/api/cloud_outbox.py:249-262 | a second restore at any time changes no item and no binding |
| OutboxTheorems.ClosedIsNeverClaimed | services/api/cloud_outbox.py:514-515 | no run ever claims a row of a binding that was closed or restored, nor media of it |
| OutboxPausing.StatesFollow | services/api/cloud_outbox.py:340-375 | every step of every kind leaves each binding in the state, and activated at the instant, that a table of pauses, resumptions, disconnections and restores says |
| OutboxPausing.PausePauses | services/api/cloud_connection.py:196-204 | the keyless stop succeeds exactly for a live binding and leaves it paused; a pause pauses, a resumption activates, and a change of state is a new generation |
| OutboxPausing.PausedSendsWithdrawalsOnly | services/api/cloud_outbox.py:517-526 | over every run from a paused binding until it is resumed: each claim of it is a withdrawal, no media of it is claimed, every observation for it is refused |
| OutboxPausing.PauseHolds | services/api/cloud_connection.py:196-204 | the same from every successful keyless stop or pause on |
| OutboxPausing.ResumptionForgetsOlder | services/api/cloud_outbox.py:361-417 | over every run, no row added after a resumption was admitted before it |
| OutboxAttempts.ClaimCountsOnce | services/api/cloud_outbox.py:537-538 | a claim adds one attempt to the row it takes, up to the largest integer of the column, and none to any other |
| OutboxAttempts.StepCounts | services/api/cloud_outbox.py:508-600 | every step of every kind counts exactly the claims of a row, brings no row that does not wait back except as a withdrawal, and keeps a waiting row's pause |
| OutboxAttempts.AttemptsAreClaims | services/api/cloud_outbox.py:537-538 | in every reachable world a row's attempts are the number of claims issued for it |
| OutboxAttempts.MediaAttemptsAreClaims | services/api/cloud_media_outbox.py:222-224 | in every reachable world a media row's attempts are the number of claims issued for it |
| OutboxBackoff.RetriedRowWaits | services/api/cloud_outbox.py:556-564 | over every run, until the pause of a retry is over no claim sends the row again as it was |
| OutboxBackoff.RetriedMediaWaits | services/api/cloud_media_outbox.py:256-265 | over every run, until the pause of a retry is over no claim sends the media row again |
| OutboxFencing.StopUnleases | services/api/cloud_outbox.py:361-380 | a pause, resume, disconnection, keyless stop, withdrawal, expiry, reclaim or restore of the row that a claim was issued for leaves no row of either queue leased to its token |
| OutboxFencing.StopsFence | services/api/cloud_outbox.py:546-600 | in every run, after any such stop the claim's retry and reject are refused and its acknowledgement changes no row, in every later world |
| OutboxFencing.StopsFenceMedia | services/api/cloud_media_outbox.py:183-301 | in every run, after a mirroring that finds the parent over, a reclaim or a restore all four settlements of the media claim are refused in every later world |
| OutboxRetention.MediaStates | services/api/cloud_media_outbox.py:198-301 | in every reachable world content and readiness have an acknowledged manifest, a sent reference has a sent parent, and what is still to be sent is not terminal |
| OutboxRetention.ReconcileMirrors | services/api/cloud_media_outbox.py:183-196 | in every reachable world a reconciliation within a day of the parent's settlement makes its media terminal within that day |
| OutboxRetention.MirroredUntilDeleted | services/api/cloud_media_outbox.py:234-244 | over every run without a restore of the binding, mirrored media stays so until it is deleted |
| OutboxRetention.ReferenceIsDropped | services/api/cloud_media_outbox.py:241-244 | over every run: a reference reconciled within a day of its parent's settlement is dropped by the pass that selects the parent |
| OutboxRetention.ReconciledPassIsAccepted | services/api/cloud_delivery.py:349-350 | over every run: when the references of the selected parents were reconciled in time, the pass over an open binding is accepted |
| OutboxRetention.BlockedForGood | services/api/cloud_delivery.py:349-350 | a selected parent with an unmirrored reference refuses this pass and every later one |
| OutboxWitnesses.PruneCanBeBlocked | services/api/cloud_media_outbox.py:241-244 | an allowed run from the empty database after which the pass is refused |
| OutboxWitnesses.DeliveryCanStop | services/api/cloud_delivery.py:400-412 | after that run every later attempt of the sender is refused and leaves the tables as they are |
| OutboxWitnesses.MediaOutlivesStops | services/api/cloud_media_outbox.py:267-282 | an allowed run after which keyless stop, pause and disconnection succeed and the running manifest is still acknowledged |
| OutboxWitnesses.MediaGoesBeyondThePolicy | services/api/cloud_delivery.py:488-499 | an allowed run that obeys a policy of two attempts and claims one media reference three times |
| MediaSteps.MediaClaimFollowsParent | services/api/cloud_media_outbox.py:216-226 | every media claim is issued under a received observation and before the deadline |
| MediaSteps.MediaClaimTakesFirst | services/api/cloud_media_outbox.py:198-232 | a media claim succeeds if and only if the binding is active, nothing is held and some reference of a received observation waits with its pause over before its deadline; it takes the oldest under the shared reservation |
| MediaSteps.OverviewExactly | services/api/cloud_media_outbox.py:146-180 | an overview is accepted if and only if a retained observation, a usable frame and no other frame before it are given; then it is that observation's one reference, new and waiting if there was none |
| MediaSteps.ReconcileFollows | services/api/cloud_media_outbox.py:183-196 | which state each media row takes from its parent, when it ended, and that mirroring twice changes nothing |
| MediaSteps.SpentParentReference | services/api/cloud_media_outbox.py:241-244 | the pass that may delete a parent drops its reference exactly when that was terminal for 30 days |
| MediaSteps.PruneBlockedExactly | services/api/cloud_delivery.py:349-350 | the pass is refused by the foreign key if and only if a selected parent keeps a reference that is not terminal for 30 days |
| MediaSteps.PruneNeverBlocked | services/api/cloud_delivery.py:349-350 | when the references of the selected parents became terminal within a day of them, the pass is accepted |
| DeliveryModel.RequestEndsBeforeDeadline | services/api/cloud_delivery.py:415-419 | for every valid policy the request ends two seconds before the lease, so an observation's before its deadline, and gets all of the time that leaves up to the policy's |
| DeliveryModel.WithdrawalGetsWholeTime | services/api/cloud_delivery.py:53-56 | the policy's four seconds give a withdrawal read within two seconds its whole request time |
| DeliveryModel.DelayIsBounded | services/api/cloud_delivery.py:552-554 | every pause is between the base and an hour, at least what the server asked for, and grows with the attempts |
| DeliveryModel.DelayDoubles | services/api/cloud_delivery.py:552 | the pause starts at the base and doubles with every attempt until the maximum |
| DeliveryModel.RetryIsNeverRefused | services/api/cloud_delivery.py:552-555 | the queue accepts every pause that the sender computes |
| DeliveryModel.PassReaches | services/api/cloud_delivery.py:332-348 | every pass that does not read a row brings it one pass nearer, however rows leave |
| DeliveryModel.EveryRowIsRead | services/api/cloud_delivery.py:332-348 | from any cursor every row that stays eligible is read within one pass more than the quotient of rows and page length, rounded up |
| DeliveryModel.PassStopsGoneRows | services/api/cloud_delivery.py:343-350 | after a committed pass every row it read is withdrawn, if its source is gone or its deadline reached, or unchanged |
| DeliveryModel.SenderChecksTheFence | services/api/cloud_delivery.py:528-532 | what the sender compared implies the queue's own fence and at least one attempt |
| DeliveryModel.SettlementNeverRefused | services/api/cloud_delivery.py:533-557 | an answer is never refused by the queue while the binding opens |
| DeliveryModel.OutcomeExplains | services/api/cloud_delivery.py:533-557 | each outcome says what became of the claimed row, and no other row changes |
| DeliveryModel.AnswerDecides | services/api/cloud_delivery.py:537-557 | with lease and source there the answer decides: a receipt is recorded and reported delivered, a permanent refusal blocks with its code, a transient one retries below the maximum and blocks at it, a cancelled one changes nothing |
| DeliveryModel.GoneSourceWithdraws | services/api/cloud_delivery.py:533-536 | an answer for an observation whose source is gone is not used; the row becomes a withdrawal for that reason |
| DeliveryModel.AuthorityErrorPauses | services/api/cloud_delivery.py:520-526 | revoked access and a halting fault report blocked, pause the binding and release all its leases |
| DeliveryModel.LateAnswerChangesNothing | services/api/cloud_delivery.py:529-532 | without the lease an answer changes nothing |
| DeliveryModel.StopsChangeContext | services/api/cloud_delivery.py:309-311 | every pause, disconnection and restore takes the sender's context away, so it uses no answer from then on |
| DeliveryModel.AuthorisedExactly | services/api/cloud_delivery.py:352-372 | a request goes on if and only if context, lease and source all hold; nothing changes then, and an observation whose source is gone loses its lease |
| DeliveryModel.MediaOutcomeExplains | services/api/cloud_delivery.py:474-504 | a media answer is refused if and only if it contradicts itself or an earlier acknowledgement; else its outcome says what became of the one row it may change |
| DeliveryModel.MediaAnswerDecides | services/api/cloud_delivery.py:474-504 | which answer leads to which outcome and row for media, the attempts so far given |
| DeliveryModel.MediaAuthorityErrorPauses | services/api/cloud_delivery.py:480-482 | revoked access for media reports blocked and pauses the binding |
| DeliveryAttempts.ClaimsAreBounded | services/api/cloud_delivery.py:546-552 | over every run in which a row returns to the queue only by an answer the policy allows, it is claimed at most the maximum number of times, and at most the smaller one as an observation |
| DeliveryAttempts.SenderObeys | services/api/cloud_delivery.py:546-555 | the sender retries a row only below the maximum for its operation |
| DeliveryAttempts.TransientAnswersEnd | services/api/cloud_delivery.py:546-557 | after any run a transient answer leads to a retry with the pause of the claims issued so far while they are fewer than the maximum, and then to a withdrawal or its end |
| DeliveryAttempts.MediaBoundedStep | services/api/cloud_delivery.py:496-503 | media goes beyond the maximum if and only if content is claimed after a manifest accepted at the last attempt |
| DeliveryAttempts.MediaClaimsAreBounded | services/api/cloud_delivery.py:496-503 | over every such run media is claimed at most once more than the maximum, and then for its content |
| DeliveryAttempts.TransientMediaAnswersEnd | services/api/cloud_delivery.py:496-503 | after any run a transient answer for media leads to a retry while fewer claims than the maximum were issued, and then blocks it |
| DeliveryPass.PassBlockedExactly | services/api/cloud_delivery.py:343-350 | the withdrawals of the pass do not matter: it is refused if and only if mirroring and pruning alone would be, and then nothing is changed |
| DeliveryPass.DeliveryStops | services/api/cloud_delivery.py:400-412 | a selected parent with an unmirrored reference refuses every later first transaction, whatever it reads, so no claim is ever made |
| DeliveryPass.ReconciledDeliveryGoesOn | services/api/cloud_delivery.py:332-350 | over every run: the pass commits when the references of the selected parents were reconciled in time |
| Delivery.CloudDelivery.NextPage | services/api/cloud_delivery.py:336-342 | the next page of eligible ids after the cursor, wrapping at most once |
| Delivery.CloudDelivery.Begin | services/api/cloud_delivery.py:400-412 | the first transaction: pass, then a claim of an item, then one of media; a refusal anywhere undoes all of it |
| Delivery.CloudDelivery.Reconcile | services/api/cloud_delivery.py:332-350 | the page is the fair one, its rows are looked at once, a refusal undoes the tables, and the cursor rests on the last row |
| Delivery.CloudDelivery.StillSame | services/api/cloud_delivery.py:309-311 | the active binding has the scope, generation, target and credential that the sender started with |
| Delivery.CloudDelivery.Authorize | services/api/cloud_delivery.py:352-372 | exactly the authorisation: allowed, refused, refused with a withdrawal, or a clock that ran back |
| Delivery.CloudDelivery.Settle | services/api/cloud_delivery.py:513-557 | without its context nothing changes; else the answer has exactly the effect of its settlement, and only a halting code halts the sender |
| Delivery.CloudDelivery.SettleMedia | services/api/cloud_delivery.py:474-504 | the same for a media answer, which never halts the sender |
| Delivery.OrderIds | services/api/cloud_delivery.py:336-339 | the smallest ids in ascending order, at most as many as the policy allows |
| CustodyCoverage.RunSweep | services/api/custody_engine.py:485-496 | the loop over the sorted intervals computes the recursive sweep |
| CustodyCoverage.CoversExact | services/api/custody_engine.py:485-496 | for start before end it succeeds if and only if every unit segment lies inside one interval, malformed intervals included |
| CustodyCoverage.CoversIsMonotone | services/api/custody_engine.py:488-495 | order and repetition of intervals do not matter, and more of them never uncover anything |
| CustodyCoverage.EmptyStretch | services/api/custody_engine.py:485-496 | over an empty stretch one more interval can refuse what none accepts |
| CustodyEngine.Record.NoteArrival | services/api/custody_engine.py:241-262 | time, identifier, duration and camera rules of an accepted observation |
| CustodyEngine.Record.NoteFact | services/api/custody_engine.py:263-293 | quality rule, fact, source health, declared interval, watermark and timeline entry |
| CustodyEngine.Record.Transition | services/api/custody_engine.py:315-383 | the next product state, and compromise exactly when the transition does not fit |
| CustodyEngine.Record.Receive | services/api/custody_engine.py:232-299 | exact repeats change nothing, conflicting or late observations compromise, others are absorbed; says whether the timeline overflowed |
| CustodyEngine.Record.Decision | services/api/custody_engine.py:385-464 | the decision, computed in the program's order, equals the one whose meaning on the history is proved |
| CustodyEngine.ProductCustodyEngine.FindOldest | services/api/custody_engine.py:210 | the first inserted of the records seen longest ago |
| CustodyEngine.ProductCustodyEngine.Open | services/api/custody_engine.py:206-213 | the record of the visit, after one eviction if there was no room, which degrades the engine |
| CustodyEngine.ProductCustodyEngine.Observe | services/api/custody_engine.py:203-300 | an invalid observation changes nothing; a valid one rewrites exactly its own record and is assessed |
| CustodyEngine.ProductCustodyEngine.Reset | services/api/custody_engine.py:195-197 | back to the empty engine |
| CustodyHistory.RepeatsChangeNothing | services/api/custody_engine.py:232-236 | the record of a history equals the record of the history without its exact repeats |
| CustodyHistory.RecordAgrees | services/api/custody_engine.py:237-299 | the record is uncompromised if and only if the whole history is sound, and then it remembers it |
| CustodyHistory.SourcesAgree | services/api/custody_engine.py:270-283 | declared intervals, source health and watermark of the record are those of the history |
| CustodyTheorems.AlarmAgrees | services/api/custody_engine.py:407-464 | the record of a history without repeats is alarming if and only if the history is a complete chain |
| CustodyHistory.FitsExactly | services/api/custody_engine.py:232-298 | a history overflows its timeline if and only if more than 128 of its observations are new in identifier and time to the accepted ones before them |
| CustodyTheorems.DegradedExactly | services/api/custody_engine.py:209-212 | the engine is degraded if and only if the observations since the reset exceeded capacity, counted on them alone; until then each record is the fold of its own history |
| CustodyTheorems.AlarmExactly | services/api/custody_engine.py:385-464 | an observation raises an alarm if and only if capacity was never exceeded and the whole history of its visit is a complete chain; high attention implies concealment |
| CustodyDecisions.DecisionAgrees | services/api/custody_engine.py:385-464 | the record of a history without repeats leads to the answer that the history, read at once, deserves |
| CustodyDecisions.DecisionsExactly | services/api/custody_engine.py:385-464 | beyond capacity the engine abstains; within it each of the five answers is given if and only if the whole history says so: a complete chain, an unsound one or a gap in the coverage, a return or checkout, a concealment or an exit with the product off the shelf, or none of these |
| CustodyDecisions.AnswerShows | services/api/custody_engine.py:284-298 | an answer says whether capacity was exceeded, and within it its timeline tells of exactly the accepted observations of the visit and product in their order |
| CustodyTheorems.ShortHistoriesFit | services/api/custody_engine.py:294-298 | at most 128 different observations never overflow a timeline |
| CustodyTheorems.SpoiledNeverAlarms | services/api/custody_engine.py:388-392 | from a compromise, an eviction or a truncation on, no observation of that visit raises an alarm until a reset |
| CustodyTheorems.LossDegrades | services/api/custody_engine.py:294-298 | evidence that the engine forgets degrades it in the same step |
| CustodyTheorems.EvictsOldest | services/api/custody_engine.py:206-213 | a new visit evicts nothing while there is room, else the record seen before all others, the first inserted of equals, and degrades the engine |
| CustodyTheorems.ReceivedBounded | services/api/custody_engine.py:284-298 | a timeline keeps at most 128 strictly increasing entries whose ids are exactly those the record knows |
| CustodyTheorems.RunBounded | services/api/custody_engine.py:208-213 | over every run the engine holds at most the configured number of such records |
| CustodyTheorems.RepeatChangesNothing | services/api/custody_engine.py:232-236 | repeating exactly what a record still holds changes nothing at all |
| ServiceHealth.UnhealthyExactly | scripts/service_health.py:36-47 | a service is unhealthy if and only if its last three counted answers failed |
| ServiceHealth.HealthState.Record | scripts/service_health.py:36-47 | keeps the state of all answers so far and reports exactly the persistent failures |
| Supervisor.Supervisor.Start | scripts/run_pilot.py:202-236 | success means exactly one new child whose last probe was answered; a child that does not answer is stopped; the consumer stays younger than its provider |
| Supervisor.Supervisor.RestartFailed | scripts/run_pilot.py:293-302 | uses up one restart, or reports why none was possible |
| Supervisor.Supervisor.Retry | scripts/run_pilot.py:323-329 | terminates, since every round uses up a restart or sees the stop, and gives up only when no restart is left, at a stop or after a sleep |
| Supervisor.Supervisor.RecoverVision | scripts/run_pilot.py:315-349 | if the launch goes on, the provider was started anew and answers or is disabled and gone, and the consumer was started after that and answers |
| Supervisor.Supervisor.RecoverApi | scripts/run_pilot.py:322-334 | recovers the application, which then is a new child that answers, or ends the launch; the vision service is untouched |
| Supervisor.Supervisor.Recover | scripts/run_pilot.py:304-355 | a child that still runs is recovered only after three counted failures in a row; every recovery is logged with its cause, and recoveries never exceed what restarts, a disabling and the end of the launch account for; a launch that goes on has a new application child |
| Supervisor.Supervisor.Watch | scripts/run_pilot.py:362-381 | a running child is recovered only after three counted failures in a row, a failed round that leads to no recovery leaves it running, and what the look found is on record: disabled, answering, or a recovery begun |
| Supervisor.Supervisor.Round | scripts/run_pilot.py:357-381 | a round that goes on has looked at the vision service and then at the application |
| Supervisor.Supervisor.Monitor | scripts/run_pilot.py:357-389 | every completed round has looked at both services in turn, only a stop, a sleep or a failed recovery leaves a round, all counts stay within their budgets, and the application is the younger child |
| Supervisor.Supervisor.Shutdown | scripts/run_pilot.py:266-291 | stops both children and starts none |
| Supervisor.Supervisor.Launch | scripts/run_pilot.py:493-550 | the vision service is tried first if it is wanted and never else; at most 3L + 3 starts and 2L + 2 recoveries with the limit L, each recovery has one logged cause and demands a fresh arming, each that found its child running had three counted failures in a row, and each look of each round found its service disabled, answering, or began its recovery |
| Supervisor.ConsumerMayRestart | scripts/run_pilot.py:335-344 | each recovery of the vision service used a restart or disabled it, so its consumer has a start left |
| Cooldown.ReplaySession | scripts/evaluate-interactions.py:253-275 | the four lists partition the eligible windows, the sounds keep the cooldown and are the greedy choice |
| Cooldown.SimulatedDelivery | scripts/evaluate-interactions.py:245-294 | over all sessions: every eligible window is in exactly one list, and each session gets its own greedy choice |
| Cooldown.StaysAhead | scripts/evaluate-interactions.py:267-270 | the greedy choice has at least as many as any other choice and could take any time that the other could |
| Cooldown.SoundsAreMost | scripts/evaluate-interactions.py:253-272 | no set of fresh windows that keeps the cooldown is larger than the sounds of the session |
| Cooldown.TiesDoNotMatter | scripts/evaluate-interactions.py:438-441 | the order among windows that end together does not change the count |
| Cooldown.NormalAlarms | scripts/evaluate-interactions.py:437-441 | the evaluator's own count of a session equals the sounds of the replay |
| Cooldown.CoveredSession | scripts/evaluate-interactions.py:195-201 | covered if and only if no instant of the session, up to the tolerance, is without a window |
| Evaluation.Judge | scripts/evaluate-interactions.py:425-433 | the first reason that leaves a normal recording out of the count, or none |
| Evaluation.Evaluate | scripts/evaluate-interactions.py:418-441 | each normal recording of the split is included or excluded for its first reason, and the alarms counted over the included ones are exactly the sounds that the replay of all windows gives them |
| Evaluation.OneMoreSession | scripts/evaluate-interactions.py:432-441 | the sounds of several sessions are the sum of the sounds of each |
| Eviction.InteractionService.MakeRoom | services/api/interactions.py:338-371 | removes exactly the oldest unreviewed low-value samples of the branch, as many as needed or all, and says whether one more fits |
| Eviction.InteractionService.Submit | services/api/interactions.py:593-665 | accepts exactly when enough can be given up; every branch stays within 100 and all within 600; a refusal changes nothing |
| Eviction.RoomExactly | services/api/interactions.py:349-371 | there is room after the pass if and only if enough samples were evictable |
| Eviction.ProtectedSurvive | services/api/interactions.py:356-362 | reviewed, running, concealment and alarming samples and all other branches are untouched |
| Eviction.NothingRemovedInVain | services/api/interactions.py:352-354 | with one sample fewer removed there would have been no room |

## Left out

- Cryptography, hashing and version 5 UUIDs (section 5.5 of RFC 9562): a ciphertext is a sealed record that opens to what was sealed, 38 bytes longer than its plaintext; source ids and fingerprints are injective.
- Identifiers of rows, bindings, tokens and receipts are natural numbers; the order of their text is the order of the numbers.
- Clocks are whole milliseconds; microseconds of the textual times, and dates past the year 9999, are not modelled.
- Argument checks that only refuse ill-typed values (scope and target syntax, non-string ids, non-integer seconds) are expressed by types.
- SQLite itself, savepoint names and threads: an operation is one atomic step, and constraints of the schema are part of the invariant.
- `inspect`, the views that operations return beside the binding reference, the counts a restore reports, and all audit, reason and explanation text.
- The HTTP child, its pipes and its watchdog: an answer is any value the sender may receive, and the time between reading the clock and starting the request is not counted.
- `run_once` after its first transaction: when the request is made and when it asks for authorisation again; its authorisations and settlements are modelled one by one.
- The credential is compared outside: whether it is still the same is an argument, as is whether the media's source is still available.
- The operations of the media queue return no count of deleted rows.
- The engine's observations have enumerated visibility, association, source and health; other strings, which the program refuses, are not representable.
- OutboxHistory.RunKeeps: a run has one clock that does not run back over all bindings, although the program checks it per binding.
- Supervisor.Supervisor.Monitor: the endless loop is any finite number of rounds; both services are values in fields of the supervisor, so sharing of their records is not modelled.
- Supervisor.Supervisor.Shutdown: status files, the Windows job object and the choice between killing and terminating a child.
- Cooldown.SimulatedDelivery: the counts of concealment windows without a signal are not kept; times are exact reals instead of floating point; sessions may be replayed in any order, which only permutes the lists.
- Eviction.InteractionService.Submit: frames on disk, the idempotency table and the withdrawal of evicted samples from the cloud queue.
- Incident workflow, account forms, the budget of the external model, sequence reservation and the three-clip scorer: mostly one guard each.
