# WardPulse verification models

A Dafny 4.11 model of the parts of WardPulse that hold the most state and arithmetic, with
proofs of what they promise. `dafny verify dfyconfig.toml` checks the whole project.

## What is modelled

**The credential lease engine.** `ConnectionCacheEngine` serializes access to each provider
credential: one exclusive lease with a first-come queue per connection, a separate reservation
for network work, a durable record per connection, and a cached snapshot bound to one version
of it. `Records.dfy` holds the record and its edits, `LeaseWorld.dfy` specifies every public
call on values, and `ConnectionCacheEngine.dfy` is the class with the source's own maps, each
method proved to move the abstract state exactly as specified. A commit that reports failure
may leave the new values in memory, in the file, in both or in neither.
`Safety.dfy` states the invariant, `LeaseSteps.dfy`, `LeaseCalls.dfy` and `LeaseDetach.dfy`
show that every call keeps it, `LeaseQueue.dfy` does the same for the queues, `LeaseRuns.dfy`
lifts both to arbitrary runs, and `LeaseTheorems.dfy` and `LeaseOffers.dfy` state what follows.
`LeaseAnswers.dfy`, `LeaseOutcomes.dfy` and `LeaseVanished.dfy` say of each call when it succeeds and
what it leaves, told by the fields of the records and by the queues alone.
`LeaseMemory.dfy` proves exactly how long a slot stays listed for cleanup and exactly when a slot
handed out for writing is listed; `LeaseMarks.dfy` and `LeaseLeaks.dfy` show what becomes of one
that is not.
The secure store, which the engine never reads, is ghost state driven by the clients' events.

**Calendar and timestamps.** `Calendar.dfy` proves the era formula against the Gregorian
calendar, `Timestamps.dfy` covers printing, date stepping and text order, and
`ClaudeTimestamps.dfy` proves the offset-normalizing parser equal to an independent path:
count days, subtract the offset, print.

**Money and usage.** `DecimalAmounts.dfy` and `DecimalText.dfy` prove the decimal type exact
against real arithmetic, `UsageReports.dfy` and `CostReports.dfy` prove the page folds, the
merged bucket list and the budget totals (`Pages.dfy` holds what both share).

**The watch-face consent.** `WatchFaceConsentStore.dfy` has the store and a protocol over all
interleavings of controllers; `WatchFaceController.dfy` has the controller, in which every
foreign call may fail, be cancelled or be missing. Each operation records its claims and effects
and is proved careful, which is all the protocol asks of it in any interleaving.

**The Google Play edit.** `PlayTracks.dfy` has the track edit and the response check,
`PlayEdits.dfy` the marker protocol and the whole apply run, in which the process may die
around every request.

## What the clients of the lease engine must do

The engine cannot check its clients, so the run theorems assume the following of them, as
`LeaseRuns.Allowed` spells out: a client activates only after writing, under the same lease,
the slot it was last told to write; it deletes only slots offered by the lease it holds (the
holder of a deletion may delete every retired key and the connection's original one, and any
holder on a plan connection the secret once pasted there); it acknowledges cleanup only on a
connection that has a record; a write by a detached owner reaches only a slot that owner left
behind. Everything else may happen in any order.

## Where the code does less than it seems to

- An acknowledgement on a connection with no record stores only the retired key, and the
  connection is then unreadable; `AcknowledgeReadableIff` says exactly when.
- While a sign-in is pending, a reader is offered its candidate slot for cleanup
  (`PendingCandidateIsOffered`). If it deletes and acknowledges that slot, the sign-in may still be
  completed into it, and a secret written there and not activated is in the store with no record
  that mentions it (`AcknowledgedCandidateIsLost`), for good (`LostStaysLost`). Otherwise a listed
  slot stays listed until it is acknowledged (`ListedIff`, `GrantedSlotStaysIff`).
- A refused migration leaves the connection fenced. Prepared again under the same lease, it may be
  saved, written and activated; the next reconnect restarts from the record before the refusal and
  no longer mentions that slot (`PreparedSlotStaysIff`, `RecoveryListsIff`,
  `RefusedMigrationIsLost`).
- A snapshot upgrade may lower the stored time (`UpgradeLowersIff` says exactly when), and so may a
  restart after a commit that moved memory and not the file (`RestartLowersIff`).
- A refused migration commit leaves the lease's slot moved although the client was never told;
  activating then, on a connection with no record, stores an active record that `state` refuses
  (`ActivationReadableIff`).
- The time module says text order matches chronological order. It does for the years
  0000-9999 (`UnixTextOrders`); `UnixTextOrdersIff` says for which other pairs of years it does,
  and `SortedYears` that only the year -1 can be added to that interval.
- `from_source` accepts a sign right after the decimal point; `ReadsIff` says exactly which texts
  it reads.
- Decimal addition is associative only when both groupings succeed (`GroupingMatters`), so
  whether a cost report overflows can depend on the order of its rows; `ModerateReportsSucceed`
  gives a condition, independent of the order, under which it never does.

## Model

| member | source | states |
|---|---|---|
| LeaseTheorems.SecretsSurvive | apps/phone_flutter/plugins/ward_pulse_watch_sync/android/src/main/java/app/wardpulse/watchsync/ConnectionCacheEngine.java:177-215 | From an empty store on, after any permitted sequence of calls, client writes and deletes, refused commits, detachments and restarts: a slot named active, or named as the one a cancellation restores, by the visible record, the durable record or the remembered record, still holds the secret written under the lease that activated it |
| LeaseTheorems.NamedSlotsWereActivated | apps/phone_flutter/plugins/ward_pulse_watch_sync/android/src/main/java/app/wardpulse/watchsync/ConnectionCacheEngine.java:248-263 | From an empty store on, every slot that a record could name was activated in the run by the holder of the lease that writes it |
| LeaseTheorems.GuardedSecretsUntouched | apps/phone_flutter/plugins/ward_pulse_watch_sync/android/src/main/java/app/wardpulse/watchsync/ConnectionCacheEngine.java:206-213 | No single event changes or erases a secret its connection still guards: a named slot, a bound backup, or an installed legacy session |
| LeaseOffers.OffersStayDisposable | apps/phone_flutter/plugins/ward_pulse_watch_sync/android/src/main/java/app/wardpulse/watchsync/ConnectionCacheEngine.java:206-215 | In every reachable state, nothing offered by the grant of a held lease is guarded by the visible, durable or remembered record, and none of it is the slot the holder writes |
| LeaseSteps.CleanupOffers | apps/phone_flutter/plugins/ward_pulse_watch_sync/android/src/main/java/app/wardpulse/watchsync/ConnectionCacheEngine.java:209-213 | A grant offers exactly the retired slots that are not guarded, not the write slot and not abandoned |
| LeaseTheorems.OffersAreDisposable | apps/phone_flutter/plugins/ward_pulse_watch_sync/android/src/main/java/app/wardpulse/watchsync/ConnectionCacheEngine.java:206-215 | What a holder may delete no record of the connection still needs |
| LeaseMemory.ListedIff | apps/phone_flutter/plugins/ward_pulse_watch_sync/android/src/main/java/app/wardpulse/watchsync/ConnectionCacheEngine.java:100-105 | From any reachable moment at which the visible, durable and remembered records all list a slot, written or not, it stays listed after every later event exactly when no effective acknowledgement drops it; supersessions, cancellations, refused commits, detachments and restarts never take it off |
| LeaseMemory.NoSecretForgotten | apps/phone_flutter/plugins/ward_pulse_watch_sync/android/src/main/java/app/wardpulse/watchsync/ConnectionCacheEngine.java:292-304 | From an empty store on: a secret whose slot is listed when it is written stays listed after every later event exactly when no later acknowledgement drops it, whatever was acknowledged before |
| LeaseMemory.EventForgetsIff | apps/phone_flutter/plugins/ward_pulse_watch_sync/android/src/main/java/app/wardpulse/watchsync/ConnectionCacheEngine.java:292-304 | One event takes a listed slot off the list exactly when it acknowledges it under the held lease, no record guards it, it is neither the lease's slot nor abandoned, and the commit reaches memory or the file |
| LeaseMemory.UnacknowledgedSlotsAreListed | apps/phone_flutter/plugins/ward_pulse_watch_sync/android/src/main/java/app/wardpulse/watchsync/ConnectionCacheEngine.java:100-105 | From an empty store on, a slot written under a lease that saw no refused migration, and never dropped by an acknowledgement, is listed at the end |
| LeaseMemory.GrantedSlotStaysIff | apps/phone_flutter/plugins/ward_pulse_watch_sync/android/src/main/java/app/wardpulse/watchsync/ConnectionCacheEngine.java:189-204 | A slot handed out by a grant stays listed from then on exactly when it was minted for that reconnect or refresh, or both files still listed the candidate being completed, and no acknowledgement drops it |
| LeaseMemory.PreparedSlotStaysIff | apps/phone_flutter/plugins/ward_pulse_watch_sync/android/src/main/java/app/wardpulse/watchsync/ConnectionCacheEngine.java:231-241 | A slot handed out by a migration stays listed from then on exactly when no commit of the connection had been refused before it and no acknowledgement drops it |
| LeaseMarks.LostStaysLost | apps/phone_flutter/plugins/ward_pulse_watch_sync/android/src/main/java/app/wardpulse/watchsync/ConnectionCacheEngine.java:100-114 | A minted slot that no record mentions and no lease is for stays so through any events whatever: never listed, offered, named or handed out again |
| LeaseMarks.NamedByActivation | apps/phone_flutter/plugins/ward_pulse_watch_sync/android/src/main/java/app/wardpulse/watchsync/ConnectionCacheEngine.java:248-263 | One event of any kind makes the records of a connection name a slot they did not name only if it activates that slot |
| LeaseMarks.NamedSlotsWereNotOffered | apps/phone_flutter/plugins/ward_pulse_watch_sync/android/src/main/java/app/wardpulse/watchsync/ConnectionCacheEngine.java:206-215 | From an empty store on: a slot that some record names was named at every moment since its last activation, and no lease held at any of them had been offered it for cleanup |
| LeaseLeaks.AcknowledgedCandidateIsLost | apps/phone_flutter/plugins/ward_pulse_watch_sync/android/src/main/java/app/wardpulse/watchsync/ConnectionCacheEngine.java:292-304 | A permitted run in which a reader acknowledges the pending candidate before it is written: afterwards the secure store holds the secret and no record mentions its slot |
| LeaseLeaks.RefusedMigrationIsLost | apps/phone_flutter/plugins/ward_pulse_watch_sync/android/src/main/java/app/wardpulse/watchsync/ConnectionCacheEngine.java:163-166 | A permitted run in which a migration is refused, prepared again, written and successfully activated: after the next reconnect the secure store holds the secret and no record mentions its slot |
| LeaseMemory.RecoveryListsIff | apps/phone_flutter/plugins/ward_pulse_watch_sync/android/src/main/java/app/wardpulse/watchsync/ConnectionCacheEngine.java:163-191 | A recovery lists exactly what the remembered record listed, its slot, the original key and the new candidate |
| LeaseMemory.EventTracks | apps/phone_flutter/plugins/ward_pulse_watch_sync/android/src/main/java/app/wardpulse/watchsync/ConnectionCacheEngine.java:125-381 | One event of any kind but an effective acknowledgement forgets no written slot and starts listing every slot it lets a client write on an unfenced connection |
| LeaseTheorems.AbandonedStaysOut | apps/phone_flutter/plugins/ward_pulse_watch_sync/android/src/main/java/app/wardpulse/watchsync/ConnectionCacheEngine.java:312-325 | Once its owner is detached, a slot is never named by a record nor written under a lease again in that process |
| LeaseTheorems.StaleVersionsNeverRevive | apps/phone_flutter/plugins/ward_pulse_watch_sync/android/src/main/java/app/wardpulse/watchsync/ConnectionCacheEngine.java:327-360 | Behind a durable barrier, a version answered before it is refused by valid, validAll, readSnapshot and writeSnapshot after any later run, including cancellations, detachments, refused commits, recoveries and restarts |
| LeaseOffers.CurrentVersionsAreBefore | apps/phone_flutter/plugins/ward_pulse_watch_sync/android/src/main/java/app/wardpulse/watchsync/ConnectionCacheEngine.java:92-99 | Every version that can be answered now is older than the next barrier |
| LeaseTheorems.GrantedBarrierCuts | apps/phone_flutter/plugins/ward_pulse_watch_sync/android/src/main/java/app/wardpulse/watchsync/ConnectionCacheEngine.java:176-200 | A granted reconnect or deletion is such a durable barrier |
| LeaseTheorems.MissingCuts | apps/phone_flutter/plugins/ward_pulse_watch_sync/android/src/main/java/app/wardpulse/watchsync/ConnectionCacheEngine.java:272-275 | A finish that reports a missing secret successfully is such a barrier |
| LeaseTheorems.SavedDropCuts | apps/phone_flutter/plugins/ward_pulse_watch_sync/android/src/main/java/app/wardpulse/watchsync/ConnectionCacheEngine.java:251-275 | A saved drop is such a barrier whichever operation makes it: a missing secret, a confirmation of another identity, or an activation that finds the identity changed, which reports failure all the same |
| LeaseTheorems.DetachedWriterCuts | apps/phone_flutter/plugins/ward_pulse_watch_sync/android/src/main/java/app/wardpulse/watchsync/ConnectionCacheEngine.java:316-322 | The record saved for a vanished writer is such a barrier |
| LeaseTheorems.PreparedMigrationCuts | apps/phone_flutter/plugins/ward_pulse_watch_sync/android/src/main/java/app/wardpulse/watchsync/ConnectionCacheEngine.java:231-241 | A migration prepared over a record that is not active is such a barrier |
| LeaseTheorems.QueuedCleanupCuts | apps/phone_flutter/plugins/ward_pulse_watch_sync/android/src/main/java/app/wardpulse/watchsync/ConnectionCacheEngine.java:281-291 | Legacy cleanup queued on a record without a generation is such a barrier |
| LeaseTheorems.ClearCuts | apps/phone_flutter/plugins/ward_pulse_watch_sync/android/src/main/java/app/wardpulse/watchsync/ConnectionCacheEngine.java:371-381 | A successful snapshot clear of a record that is not legacy, with its current version or with none, is such a barrier |
| LeaseTheorems.CachedPayloadWasWritten | apps/phone_flutter/plugins/ward_pulse_watch_sync/android/src/main/java/app/wardpulse/watchsync/ConnectionCacheEngine.java:336-344 | Any payload readSnapshot returns was passed to writeSnapshot under the same generation, identity and epoch |
| LeaseTheorems.WriteThenRead | apps/phone_flutter/plugins/ward_pulse_watch_sync/android/src/main/java/app/wardpulse/watchsync/ConnectionCacheEngine.java:345-360 | After a saved write the same version reads exactly that payload |
| LeaseOffers.RefreshKeepsPayload | apps/phone_flutter/plugins/ward_pulse_watch_sync/android/src/main/java/app/wardpulse/watchsync/ConnectionCacheEngine.java:248-263 | A token refresh that finishes successfully keeps the cached payload readable under the same version, up to what the waiting requests then do |
| LeaseOffers.RefreshGrantKeepsPayload | apps/phone_flutter/plugins/ward_pulse_watch_sync/android/src/main/java/app/wardpulse/watchsync/ConnectionCacheEngine.java:201-204 | The commit with which a refresh is granted keeps it readable as well |
| LeaseOffers.ChangedIdentityDropsPayload | apps/phone_flutter/plugins/ward_pulse_watch_sync/android/src/main/java/app/wardpulse/watchsync/ConnectionCacheEngine.java:251-255 | A saved drop, for a changed identity or a missing secret, leaves no payload and no active record |
| LeaseOffers.BarriersDropPayloads | apps/phone_flutter/plugins/ward_pulse_watch_sync/android/src/main/java/app/wardpulse/watchsync/ConnectionCacheEngine.java:176-198 | A granted reconnect or deletion leaves no cached payload |
| LeaseOffers.CancelDropsPayload | apps/phone_flutter/plugins/ward_pulse_watch_sync/android/src/main/java/app/wardpulse/watchsync/ConnectionCacheEngine.java:264-271 | A finished cancellation leaves no cached payload |
| LeaseTheorems.CancelTargetKept | apps/phone_flutter/plugins/ward_pulse_watch_sync/android/src/main/java/app/wardpulse/watchsync/ConnectionCacheEngine.java:163-191 | Any number of superseding reconnects, retries rebuilt from the record before the first refused commit, reads, refreshes, migrations and detachments of readers keep what a cancellation restores |
| LeaseTheorems.CancelRestoresTarget | apps/phone_flutter/plugins/ward_pulse_watch_sync/android/src/main/java/app/wardpulse/watchsync/ConnectionCacheEngine.java:264-271 | A successful cancellation answers exactly that target: the previous slot and identity, the legacy installation, or nothing |
| LeaseTheorems.RecordsStayReadable | apps/phone_flutter/plugins/ward_pulse_watch_sync/android/src/main/java/app/wardpulse/watchsync/ConnectionCacheEngine.java:38-54 | From an empty store on, every visible and durable record is accepted by state, and previousSlot and previousIdentity come together |
| LeaseTheorems.CallsAreIsolated | apps/phone_flutter/plugins/ward_pulse_watch_sync/android/src/main/java/app/wardpulse/watchsync/ConnectionCacheEngine.java:55-71 | A call about one connection leaves every other connection's visible record, queues and leases unchanged, and its durable record either unchanged or equal to the visible one |
| LeaseTheorems.FirstComeFirstServed | apps/phone_flutter/plugins/ward_pulse_watch_sync/android/src/main/java/app/wardpulse/watchsync/ConnectionCacheEngine.java:147-162 | Answers follow request order, waiting requests come after answered ones, and a non-empty queue implies a held lease |
| LeaseTheorems.RequestsAccountedFor | apps/phone_flutter/plugins/ward_pulse_watch_sync/android/src/main/java/app/wardpulse/watchsync/ConnectionCacheEngine.java:216-224 | Every request is exactly one of answered once, waiting, or dropped by its owner's detachment |
| LeaseOffers.ReservationsInOrder | apps/phone_flutter/plugins/ward_pulse_watch_sync/android/src/main/java/app/wardpulse/watchsync/ConnectionCacheEngine.java:125-146 | Network reservations are granted in request order and nobody waits for an idle one |
| LeaseOffers.ReservationsAccountedFor | apps/phone_flutter/plugins/ward_pulse_watch_sync/android/src/main/java/app/wardpulse/watchsync/ConnectionCacheEngine.java:125-146 | Every reservation request is exactly one of granted once, waiting, or dropped by its owner's detachment |
| LeaseTheorems.ReleasedReservationsStayDead | apps/phone_flutter/plugins/ward_pulse_watch_sync/android/src/main/java/app/wardpulse/watchsync/ConnectionCacheEngine.java:135-146 | A reservation that is over is never valid again, for any owner, in any later state |
| LeaseTheorems.FinishedTicketsStayDead | apps/phone_flutter/plugins/ward_pulse_watch_sync/android/src/main/java/app/wardpulse/watchsync/ConnectionCacheEngine.java:225-230 | A finished or lost lease ticket is never accepted again |
| LeaseTheorems.SnapshotTimeNeverDecreases | apps/phone_flutter/plugins/ward_pulse_watch_sync/android/src/main/java/app/wardpulse/watchsync/ConnectionCacheEngine.java:345-370 | Through refused commits and restarts the stored record never gets older: within one epoch its effective microsecond time never decreases, and no earlier epoch comes back, provided upgrades quote no smaller time and a process ends only while its durable record is no older than the visible one |
| LeaseTheorems.RestartLowersIff | apps/phone_flutter/plugins/ward_pulse_watch_sync/android/src/main/java/app/wardpulse/watchsync/ConnectionCacheEngine.java:345-360 | From agreeing copies, a newer snapshot written and then a restart put the stored time back exactly when the commit reached memory and not the file |
| LeaseTheorems.OwnMicrosecondsAreHonest | apps/phone_flutter/plugins/ward_pulse_watch_sync/android/src/main/java/app/wardpulse/watchsync/ConnectionCacheEngine.java:361-370 | An upgrade carrying the stored millisecond's own microseconds never lowers the stored time, overflowing milliseconds counting as oldest |
| LeaseTheorems.UpgradeLowersIff | apps/phone_flutter/plugins/ward_pulse_watch_sync/android/src/main/java/app/wardpulse/watchsync/ConnectionCacheEngine.java:361-370 | A saved upgrade lowers the effective time exactly when it quotes a smaller one |
| LeaseTheorems.UpgradeKeepsPayload | apps/phone_flutter/plugins/ward_pulse_watch_sync/android/src/main/java/app/wardpulse/watchsync/ConnectionCacheEngine.java:361-370 | An upgrade never replaces a payload, and changes nothing over a newer one |
| LeaseTheorems.AcknowledgeReadableIff | apps/phone_flutter/plugins/ward_pulse_watch_sync/android/src/main/java/app/wardpulse/watchsync/ConnectionCacheEngine.java:292-304 | A saved acknowledgement leaves the connection readable exactly when it had a record |
| LeaseTheorems.ActivationReadableIff | apps/phone_flutter/plugins/ward_pulse_watch_sync/android/src/main/java/app/wardpulse/watchsync/ConnectionCacheEngine.java:248-263 | A saved activation leaves the connection readable exactly when it had a record |
| LeaseTheorems.PendingCandidateIsOffered | apps/phone_flutter/plugins/ward_pulse_watch_sync/android/src/main/java/app/wardpulse/watchsync/ConnectionCacheEngine.java:206-213 | While a sign-in is pending, its candidate slot is offered to another holder exactly when it is not abandoned |
| LeaseRuns.RunSane | apps/phone_flutter/plugins/ward_pulse_watch_sync/android/src/main/java/app/wardpulse/watchsync/ConnectionCacheEngine.java:18-406 | Every run keeps every connection safe and orderly, and revives no cut version, dead ticket or dead reservation |
| LeaseRuns.EngineStepped | apps/phone_flutter/plugins/ward_pulse_watch_sync/android/src/main/java/app/wardpulse/watchsync/ConnectionCacheEngine.java:125-381 | Each call on one connection keeps the whole process safe, moves nothing of another connection, never makes a snapshot older within its epoch, and moves the cancel target only where it says |
| LeaseDetach.DetachKeeps | apps/phone_flutter/plugins/ward_pulse_watch_sync/android/src/main/java/app/wardpulse/watchsync/ConnectionCacheEngine.java:305-326 | Detaching an owner keeps every connection safe, in any iteration order of the process's maps |
| LeaseSteps.PersistKeeps | apps/phone_flutter/plugins/ward_pulse_watch_sync/android/src/main/java/app/wardpulse/watchsync/ConnectionCacheEngine.java:55-71 | A fencing commit keeps every connection safe whatever a refusal leaves in memory and on file, and a refusal keeps the cancel target |
| Safety.ReconnectSound | apps/phone_flutter/plugins/ward_pulse_watch_sync/android/src/main/java/app/wardpulse/watchsync/ConnectionCacheEngine.java:177-191 | The reconnect edit keeps a record sound, keeps its cancel target and names no new slot |
| Safety.ActivateSound | apps/phone_flutter/plugins/ward_pulse_watch_sync/android/src/main/java/app/wardpulse/watchsync/ConnectionCacheEngine.java:250-263 | The activation edit keeps a record sound and names only the activated slot |
| Safety.CancelSound | apps/phone_flutter/plugins/ward_pulse_watch_sync/android/src/main/java/app/wardpulse/watchsync/ConnectionCacheEngine.java:264-271 | The cancellation edit keeps a pending record sound and lands on its target |
| LeaseAnswers.AnswerIff | apps/phone_flutter/plugins/ward_pulse_watch_sync/android/src/main/java/app/wardpulse/watchsync/ConnectionCacheEngine.java:158-219 | On an idle connection every request gets one answer. It is declined exactly when it is admitted and quotes another version than the record's own, by generation, identity and credential revision of an active record, or by generation and revision of a pending one; then both files are unchanged. It is granted, as a lease of the requester and with the slot to write, exactly when it is admitted, quotes no other version, its action is possible and the commit that needs is saved |
| LeaseAnswers.GrantIsToldFrom | apps/phone_flutter/plugins/ward_pulse_watch_sync/android/src/main/java/app/wardpulse/watchsync/ConnectionCacheEngine.java:176-215 | A granted request leaves in both files exactly the record its action calls for, told field by field, and its answer shows that record, without a backup key that no longer stands, and offers exactly the retired keys nobody needs |
| LeaseAnswers.SupersededVersionsAreRefused | apps/phone_flutter/plugins/ward_pulse_watch_sync/android/src/main/java/app/wardpulse/watchsync/ConnectionCacheEngine.java:171-175 | After a refresh or a sign-in has succeeded, whatever follows: a request that quotes the version from before it is never granted again, and declined wherever it is admitted on an idle connection |
| LeaseOutcomes.SettleOutcome | apps/phone_flutter/plugins/ward_pulse_watch_sync/android/src/main/java/app/wardpulse/watchsync/ConnectionCacheEngine.java:242-279 | Each operation of finish succeeds exactly when its conditions on the lease, the reservation, the identity and the commit hold, and leaves the record dropped, activated or cancelled, told field by field, or everything as it was |
| LeaseOutcomes.FinishOutcome | apps/phone_flutter/plugins/ward_pulse_watch_sync/android/src/main/java/app/wardpulse/watchsync/ConnectionCacheEngine.java:242-280 | Only the holder's ticket finishes a lease; the lease ends in every case, the record is settled, and the queue is taken up from its head |
| LeaseOutcomes.UnreadableOutcome | apps/phone_flutter/plugins/ward_pulse_watch_sync/android/src/main/java/app/wardpulse/watchsync/ConnectionCacheEngine.java:38-54 | On an unreadable record every call on a lease fails and changes nothing, but for the lease that finish ends |
| LeaseOutcomes.UnreadableSnapshot | apps/phone_flutter/plugins/ward_pulse_watch_sync/android/src/main/java/app/wardpulse/watchsync/ConnectionCacheEngine.java:38-54 | On an unreadable record every call on its snapshot fails and changes nothing; on a closed connection no version is valid |
| LeaseOutcomes.VanishedWriterParks | apps/phone_flutter/plugins/ward_pulse_watch_sync/android/src/main/java/app/wardpulse/watchsync/ConnectionCacheEngine.java:312-325 | A vanished reader leaves the record alone; a vanished writer leaves it waiting for a new sign-in, told field by field, or the connection closed |
| LeaseOutcomes.MigrationOutcome | apps/phone_flutter/plugins/ward_pulse_watch_sync/android/src/main/java/app/wardpulse/watchsync/ConnectionCacheEngine.java:231-241 | A migration is prepared exactly for a reader's lease on a legacy record, a migration or a standing backup; the lease's slot moves in any case, and the record is barred unless it is active |
| LeaseOutcomes.LegacyCleanupOutcome | apps/phone_flutter/plugins/ward_pulse_watch_sync/android/src/main/java/app/wardpulse/watchsync/ConnectionCacheEngine.java:281-291 | On the two plan connections the holder gets the pasted key listed, on a record without a generation under a new barrier; nothing else changes, and a refused commit closes nothing |
| LeaseOutcomes.AcknowledgeOutcome | apps/phone_flutter/plugins/ward_pulse_watch_sync/android/src/main/java/app/wardpulse/watchsync/ConnectionCacheEngine.java:292-304 | An acknowledgement takes off exactly the cleaned keys that nobody needs, are not being written and not abandoned, writes nothing else, and answers whether it was saved |
| LeaseOutcomes.ValidIff | apps/phone_flutter/plugins/ward_pulse_watch_sync/android/src/main/java/app/wardpulse/watchsync/ConnectionCacheEngine.java:327-329 | A version is valid exactly on a connection that is not closed and an active record with its generation, identity and epoch |
| LeaseOutcomes.ValidAllIff | apps/phone_flutter/plugins/ward_pulse_watch_sync/android/src/main/java/app/wardpulse/watchsync/ConnectionCacheEngine.java:330-335 | Several versions are valid exactly when each one is; the first that is not decides the answer |
| LeaseOutcomes.ReadOutcome | apps/phone_flutter/plugins/ward_pulse_watch_sync/android/src/main/java/app/wardpulse/watchsync/ConnectionCacheEngine.java:336-344 | A valid version reads the payload of the known format, and clears a payload of any other |
| LeaseOutcomes.WriteOutcome | apps/phone_flutter/plugins/ward_pulse_watch_sync/android/src/main/java/app/wardpulse/watchsync/ConnectionCacheEngine.java:345-360 | A valid version writes unless the stored time, in microseconds and a 64-bit number, is later; then payload, time, format and unit are exactly the ones given |
| LeaseOutcomes.UpgradeOutcome | apps/phone_flutter/plugins/ward_pulse_watch_sync/android/src/main/java/app/wardpulse/watchsync/ConnectionCacheEngine.java:361-370 | A valid version gives the very payload stored a time in microseconds, and only once |
| LeaseOutcomes.ClearOutcome | apps/phone_flutter/plugins/ward_pulse_watch_sync/android/src/main/java/app/wardpulse/watchsync/ConnectionCacheEngine.java:371-381 | A version that is not current clears nothing and a legacy record is never cleared, both reported as done; anything else empties the snapshot under a new epoch |
| LeaseVanished.DetachClears | apps/phone_flutter/plugins/ward_pulse_watch_sync/android/src/main/java/app/wardpulse/watchsync/ConnectionCacheEngine.java:305-326 | When an owner vanishes, nothing of it is left on any connection: no reservation, no lease, no waiting request. Its reservation passes to the first waiting request of another owner under a new ticket, or is free; its lease ends and the first waiting request of another owner is answered; a reservation or lease of another owner stays, with the others still waiting in order |
| LeaseVanished.DetachAbandonsIff | apps/phone_flutter/plugins/ward_pulse_watch_sync/android/src/main/java/app/wardpulse/watchsync/ConnectionCacheEngine.java:315-315 | Exactly the slots of the leases the owner held are abandoned |
| LeaseVanished.ReleaseHandsOn | apps/phone_flutter/plugins/ward_pulse_watch_sync/android/src/main/java/app/wardpulse/watchsync/ConnectionCacheEngine.java:139-146 | Only the holder's own ticket releases a reservation, which then passes to the first waiting request |
| LeaseVanished.AcquireFetchAnswers | apps/phone_flutter/plugins/ward_pulse_watch_sync/android/src/main/java/app/wardpulse/watchsync/ConnectionCacheEngine.java:125-134 | A free reservation is granted at once under a new ticket, a held one is queued for |
| LeaseVanished.AcquireServes | apps/phone_flutter/plugins/ward_pulse_watch_sync/android/src/main/java/app/wardpulse/watchsync/ConnectionCacheEngine.java:147-157 | A request waits behind a held lease; otherwise it is answered at once, and if it is not granted the queue is taken up |
| ConnectionCache.ConnectionCacheEngine.constructor | apps/phone_flutter/plugins/ward_pulse_watch_sync/android/src/main/java/app/wardpulse/watchsync/ConnectionCacheEngine.java:33-33 | A new engine is idle on every connection over whatever the backend holds |
| ConnectionCache.Backend.Commit | apps/phone_flutter/plugins/ward_pulse_watch_sync/android/src/main/java/app/wardpulse/watchsync/ConnectionCacheEngine.java:18-21 | A refused commit may leave the new values in memory, in the file, in both or in neither |
| ConnectionCache.ConnectionCacheEngine.State | apps/phone_flutter/plugins/ward_pulse_watch_sync/android/src/main/java/app/wardpulse/watchsync/ConnectionCacheEngine.java:38-54 | Absent keys read as legacy, an unreadable record fails |
| ConnectionCache.ConnectionCacheEngine.Persist | apps/phone_flutter/plugins/ward_pulse_watch_sync/android/src/main/java/app/wardpulse/watchsync/ConnectionCacheEngine.java:55-71 | Moves the process exactly as the specification's Persist: commit, fence, remember the first prior record |
| ConnectionCache.ConnectionCacheEngine.EditReconnect | apps/phone_flutter/plugins/ward_pulse_watch_sync/android/src/main/java/app/wardpulse/watchsync/ConnectionCacheEngine.java:177-191 | The step-by-step reconnect edit equals the specified record |
| ConnectionCache.ConnectionCacheEngine.EditDelete | apps/phone_flutter/plugins/ward_pulse_watch_sync/android/src/main/java/app/wardpulse/watchsync/ConnectionCacheEngine.java:196-200 | The step-by-step deletion edit equals the specified record |
| ConnectionCache.ConnectionCacheEngine.EditMigration | apps/phone_flutter/plugins/ward_pulse_watch_sync/android/src/main/java/app/wardpulse/watchsync/ConnectionCacheEngine.java:231-241 | The step-by-step migration edit equals the specified record and slot |
| ConnectionCache.ConnectionCacheEngine.EditActivate | apps/phone_flutter/plugins/ward_pulse_watch_sync/android/src/main/java/app/wardpulse/watchsync/ConnectionCacheEngine.java:250-263 | The step-by-step activation edit equals the specified record |
| ConnectionCache.ConnectionCacheEngine.EditCancel | apps/phone_flutter/plugins/ward_pulse_watch_sync/android/src/main/java/app/wardpulse/watchsync/ConnectionCacheEngine.java:264-271 | The step-by-step cancellation edit equals the specified record |
| ConnectionCache.ConnectionCacheEngine.EditDrop | apps/phone_flutter/plugins/ward_pulse_watch_sync/android/src/main/java/app/wardpulse/watchsync/ConnectionCacheEngine.java:272-275 | The missing-secret edit equals the specified record |
| ConnectionCache.ConnectionCacheEngine.EditDetach | apps/phone_flutter/plugins/ward_pulse_watch_sync/android/src/main/java/app/wardpulse/watchsync/ConnectionCacheEngine.java:312-320 | The vanished-writer edit equals the specified record |
| ConnectionCache.ConnectionCacheEngine.AcquireFetch | apps/phone_flutter/plugins/ward_pulse_watch_sync/android/src/main/java/app/wardpulse/watchsync/ConnectionCacheEngine.java:125-134 | Grants or queues a reservation, as specified |
| ConnectionCache.ConnectionCacheEngine.ReleaseFetch | apps/phone_flutter/plugins/ward_pulse_watch_sync/android/src/main/java/app/wardpulse/watchsync/ConnectionCacheEngine.java:139-146 | Releases only the holder's reservation and starts the next, as specified |
| ConnectionCache.ConnectionCacheEngine.Grant | apps/phone_flutter/plugins/ward_pulse_watch_sync/android/src/main/java/app/wardpulse/watchsync/ConnectionCacheEngine.java:205-215 | Installs the lease and answers with the view, the cleanup slots and the write slot, as specified |
| ConnectionCache.ConnectionCacheEngine.Attempt | apps/phone_flutter/plugins/ward_pulse_watch_sync/android/src/main/java/app/wardpulse/watchsync/ConnectionCacheEngine.java:158-219 | Answers one request: grant, decline or failure, as specified |
| ConnectionCache.ConnectionCacheEngine.Next | apps/phone_flutter/plugins/ward_pulse_watch_sync/android/src/main/java/app/wardpulse/watchsync/ConnectionCacheEngine.java:220-224 | Drains the queue until one request is granted; terminates on the queue's length |
| ConnectionCache.ConnectionCacheEngine.Acquire | apps/phone_flutter/plugins/ward_pulse_watch_sync/android/src/main/java/app/wardpulse/watchsync/ConnectionCacheEngine.java:147-157 | Queues behind a held lease or starts at once, as specified |
| ConnectionCache.ConnectionCacheEngine.PrepareMigration | apps/phone_flutter/plugins/ward_pulse_watch_sync/android/src/main/java/app/wardpulse/watchsync/ConnectionCacheEngine.java:231-241 | As specified, with the lease's slot moved before the commit that may be refused |
| ConnectionCache.ConnectionCacheEngine.Settle | apps/phone_flutter/plugins/ward_pulse_watch_sync/android/src/main/java/app/wardpulse/watchsync/ConnectionCacheEngine.java:242-279 | Every branch of finish as specified, with the lease still in place |
| ConnectionCache.ConnectionCacheEngine.Finish | apps/phone_flutter/plugins/ward_pulse_watch_sync/android/src/main/java/app/wardpulse/watchsync/ConnectionCacheEngine.java:242-280 | Settles, then drops the lease and drains the queue, equal to the specification that drops it first |
| LeaseWorld.SettleIgnoresLease | apps/phone_flutter/plugins/ward_pulse_watch_sync/android/src/main/java/app/wardpulse/watchsync/ConnectionCacheEngine.java:242-280 | Dropping the lease before or after settling makes no difference |
| ConnectionCache.ConnectionCacheEngine.QueueLegacyCleanup | apps/phone_flutter/plugins/ward_pulse_watch_sync/android/src/main/java/app/wardpulse/watchsync/ConnectionCacheEngine.java:281-291 | As specified, for the two plan connections only |
| ConnectionCache.ConnectionCacheEngine.AcknowledgeCleanup | apps/phone_flutter/plugins/ward_pulse_watch_sync/android/src/main/java/app/wardpulse/watchsync/ConnectionCacheEngine.java:292-304 | As specified: only the retired key is written |
| LeaseCalls.UnacknowledgedSubset | apps/phone_flutter/plugins/ward_pulse_watch_sync/android/src/main/java/app/wardpulse/watchsync/ConnectionCacheEngine.java:292-304 | An acknowledgement removes exactly the cleaned retired slots that are not guarded, not being written and not abandoned |
| ConnectionCache.ConnectionCacheEngine.Detach | apps/phone_flutter/plugins/ward_pulse_watch_sync/android/src/main/java/app/wardpulse/watchsync/ConnectionCacheEngine.java:305-326 | Drops the owner's waiting requests, releases its reservations, abandons its slots and parks its records, as specified |
| ConnectionCache.ConnectionCacheEngine.Valid | apps/phone_flutter/plugins/ward_pulse_watch_sync/android/src/main/java/app/wardpulse/watchsync/ConnectionCacheEngine.java:327-329 | As specified |
| ConnectionCache.ConnectionCacheEngine.ValidAll | apps/phone_flutter/plugins/ward_pulse_watch_sync/android/src/main/java/app/wardpulse/watchsync/ConnectionCacheEngine.java:330-335 | The loop stops at the first version that is not valid, as specified |
| ConnectionCache.ConnectionCacheEngine.ReadSnapshot | apps/phone_flutter/plugins/ward_pulse_watch_sync/android/src/main/java/app/wardpulse/watchsync/ConnectionCacheEngine.java:336-344 | As specified, including the clear of an unknown snapshot version |
| ConnectionCache.ConnectionCacheEngine.StoredTime | apps/phone_flutter/plugins/ward_pulse_watch_sync/android/src/main/java/app/wardpulse/watchsync/ConnectionCacheEngine.java:345-356 | Parsing and multiplication with overflow equal the effective time |
| ConnectionCache.ConnectionCacheEngine.WriteSnapshot | apps/phone_flutter/plugins/ward_pulse_watch_sync/android/src/main/java/app/wardpulse/watchsync/ConnectionCacheEngine.java:345-360 | As specified |
| ConnectionCache.ConnectionCacheEngine.UpgradeSnapshotTimestamp | apps/phone_flutter/plugins/ward_pulse_watch_sync/android/src/main/java/app/wardpulse/watchsync/ConnectionCacheEngine.java:361-370 | As specified |
| ConnectionCache.ConnectionCacheEngine.ClearSnapshot | apps/phone_flutter/plugins/ward_pulse_watch_sync/android/src/main/java/app/wardpulse/watchsync/ConnectionCacheEngine.java:371-381 | As specified |
| Calendar.CivilIsGregorian | core/ward-pulse-providers/src/codex/mod.rs:329-343 | For every day the conversion accepts, the era formula yields a valid date whose Gregorian day number is that day |
| Calendar.CivilSteps | core/ward-pulse-providers/src/codex/mod.rs:329-343 | The formula of the next day is the next date, before and after the epoch, and day 0 is 1970-01-01 |
| Calendar.CivilOfDayNumber | core/ward-pulse-providers/src/codex/mod.rs:329-343 | The formula inverts the day number, so days and valid dates are in one-to-one correspondence |
| Calendar.NextDayCounts | core/ward-pulse-providers/src/codex/mod.rs:289-312 | The date step keeps dates valid and adds exactly one day |
| Calendar.DayNumberOrders | core/ward-pulse-providers/src/codex/mod.rs:329-343 | Day numbers order and tell apart valid dates as years, months and days do |
| Timestamps.UnixSecondsPrint | core/ward-pulse-providers/src/codex/mod.rs:316-327 | Every 64-bit timestamp prints, as the valid date and clock time that denote it: the error branch is never taken |
| Timestamps.UnixTextOrders | core/ward-pulse-core/src/time.rs:22-26 | For instants of the years 0000-9999 printed text compares, and is equal, exactly as the instants do |
| Timestamps.UnixTextOrdersIff | core/ward-pulse-core/src/time.rs:8-10 | For all 64-bit timestamps: the printed texts compare as the instants do exactly when the two years sort, that is, for equal years, across the sign, for two years from 0 on when the longer one's first digits reach the shorter one, and the other way around for two negative years; equal texts mean equal instants |
| Timestamps.SortedYears | core/ward-pulse-core/src/time.rs:8-10 | An interval of years around 0000-9999 sorts throughout exactly when it adds no more than the year -1 |
| Timestamps.FiveDigitYearsMisorder | core/ward-pulse-core/src/time.rs:8-10 | The year 10000 sorts before the year 9999 |
| Timestamps.WholeSecondsTwice | core/ward-pulse-core/src/time.rs:34-42 | Dropping the fraction twice is dropping it once, for any text |
| Timestamps.WholeSecondsDropsFraction | core/ward-pulse-core/src/time.rs:34-42 | One instant has one spelling: a fraction before Z is dropped, and dropping again changes nothing |
| Timestamps.NextDate | core/ward-pulse-providers/src/codex/mod.rs:270-310 | The parsing and stepping of date text equals the specified step, whose successes and results StepsIff tells from the text |
| Timestamps.DateOfTextIff | core/ward-pulse-providers/src/codex/mod.rs:270-287 | Text names a date exactly when it is three 32-bit numerals, with a plus sign or without, with dashes between them |
| Timestamps.StepsIff | core/ward-pulse-providers/src/codex/mod.rs:270-310 | Text is stepped exactly when it names a day of the calendar whose next day has a 32-bit year, to the text of that day |
| Timestamps.DateRoundTrip | core/ward-pulse-providers/src/codex/mod.rs:270-310 | A printed date parses back to itself |
| Timestamps.DayTextFollowsCalendar | core/ward-pulse-providers/src/codex/mod.rs:270-310 | Stepping a printed day is printing the formula's next day; only the last day of the last 32-bit year fails |
| Timestamps.MidnightText | core/ward-pulse-providers/src/codex/mod.rs:252-258 | A date text with T00:00:00Z is the printed midnight of that day |
| ClaudeTimestamps.ParseTimestamp | core/ward-pulse-providers/src/claude/mod.rs:194-293 | The result is the text of local time minus offset with the fraction dropped, or a failure when the text denotes no time or its UTC year leaves 0000-9999 |
| ClaudeTimestamps.ReadLocal | core/ward-pulse-providers/src/claude/mod.rs:195-255 | The fixed-position checks read exactly the local time and offset the text denotes |
| ClaudeTimestamps.ReadTail | core/ward-pulse-providers/src/claude/mod.rs:224-255 | A fraction needs a digit and something after it, and a zone is Z or a bounded signed offset |
| ClaudeTimestamps.ToUtc | core/ward-pulse-providers/src/claude/mod.rs:257-285 | Borrowing or carrying one day across month and year equals counting days and subtracting the offset |
| ClaudeTimestamps.DenotesIff | core/ward-pulse-providers/src/claude/mod.rs:194-256 | A text denotes a time exactly when it is the printed date and clock time, then nothing or a point and digits, then Z or a signed offset of at most 23 hours and 59 minutes |
| ClaudeTimestamps.DenotesOnce | core/ward-pulse-providers/src/claude/mod.rs:192-256 | A timestamp denotes one local time and one offset |
| ClaudeTimestamps.AtMostOneDay | core/ward-pulse-providers/src/claude/mod.rs:257-285 | At most one day is borrowed or carried |
| ClaudeTimestamps.RefusedIff | core/ward-pulse-providers/src/claude/mod.rs:283-285 | A denoted time is refused exactly on the first day of year 0000 before its offset, or on the last day of 9999 past midnight UTC |
| ClaudeTimestamps.ResultIsFixedPoint | core/ward-pulse-providers/src/claude/mod.rs:287-293 | A result denotes the same instant at offset zero, so parsing it again returns it |
| ClaudeTimestamps.TextFollowsInstant | core/ward-pulse-providers/src/claude/mod.rs:192-293 | Inputs naming one whole-second instant give one text, and texts are ordered as the instants are |
| DecimalAmounts.New | core/ward-pulse-providers/src/openai/mod.rs:281-292 | The normalizing loop keeps the worth and yields the canonical form |
| DecimalAmounts.CanonicalUnique | core/ward-pulse-providers/src/openai/mod.rs:274-292 | Equal worth leaves one canonical representation |
| DecimalAmounts.AddIsExact | core/ward-pulse-providers/src/openai/mod.rs:328-351 | Addition returns the canonical exact sum, and fails exactly when an aligned coefficient or the sum leaves 128 bits |
| DecimalAmounts.AddCommutes | core/ward-pulse-providers/src/openai/mod.rs:328-351 | Addition is commutative, failures included |
| DecimalAmounts.AddAssociates | core/ward-pulse-providers/src/openai/mod.rs:328-351 | Addition is associative whenever both groupings succeed |
| DecimalAmounts.GroupingMatters | core/ward-pulse-providers/src/openai/mod.rs:328-351 | One grouping can succeed where another overflows |
| DecimalAmounts.MinorUnitsRound | core/ward-pulse-providers/src/openai/mod.rs:353-376 | Cents are one hundred times the worth rounded half away from zero, for every scale, or a failure exactly when that leaves 64 bits |
| DecimalAmounts.PowerOfTenFits | core/ward-pulse-providers/src/openai/mod.rs:456-460 | A power of ten fits exactly up to the exponent 38 |
| DecimalAmounts.TotalIsExact | core/ward-pulse-providers/src/openai/mod.rs:202-208 | A folded total that succeeds is the canonical exact sum |
| DecimalAmounts.PeriodDrift | core/ward-pulse-providers/src/openai/mod.rs:196-211 | A rounded total differs from the sum of its n rounded parts by at most (n + 1) / 2 cents |
| DecimalText.WrittenReads | core/ward-pulse-providers/src/openai/mod.rs:294-326 | A numeral with sign, point and exponent is read as its coefficient over its decimal places |
| DecimalText.ReadingIsExact | core/ward-pulse-providers/src/openai/mod.rs:294-326 | A numeral that is read becomes the canonical amount of exactly the number written |
| DecimalText.RefusedNumerals | core/ward-pulse-providers/src/openai/mod.rs:294-326 | A numeral is refused exactly when its coefficient, its scale or its written-out whole number does not fit |
| DecimalText.ReadsIff | core/ward-pulse-providers/src/openai/mod.rs:294-326 | A text is read exactly when it is a written numeral that fits, or a point, a sign, digits and an optional exponent that fit |
| DecimalText.PointSignedReads | core/ward-pulse-providers/src/openai/mod.rs:304-311 | Every text with a sign right after the point is read as its signed digits over one more decimal place than it has digits, or refused when that does not fit |
| DecimalText.SignAfterPoint | core/ward-pulse-providers/src/openai/mod.rs:304-311 | For instance, .+5 is read as five hundredths |
| UsageReports.Add | core/ward-pulse-providers/src/openai/mod.rs:387-407 | Adding a row adds each of the four measures, or fails exactly when one leaves 64 bits |
| UsageReports.AddRow | core/ward-pulse-providers/src/openai/mod.rs:105-120 | One row adds its four measures to its period's totals and to its model's, leaves every other total alone, and fails exactly when a sum leaves 64 bits |
| UsageReports.Aggregate | core/ward-pulse-providers/src/openai/mod.rs:100-121 | The page loops succeed exactly when every period and model total fits 64 bits, and then hold the exact sums of all rows |
| UsageReports.RowsDecide | core/ward-pulse-providers/src/openai/mod.rs:100-121 | Only the rows and the periods matter, not how rows are split over buckets |
| UsageReports.PageOrderIgnored | core/ward-pulse-providers/src/openai/mod.rs:100-121 | Reordering or resplitting pages changes neither success nor any total nor the model breakdown |
| UsageReports.BucketsConserve | core/ward-pulse-providers/src/openai/mod.rs:409-446 | The totals of the listed periods add up to the rows of all pages, for each of the four measures |
| CostReports.TotalCosts | core/ward-pulse-providers/src/openai/mod.rs:123-146 | The page loops give the fold of all buckets, failures included: it stops at the first unreadable row or sum beyond 128 bits |
| CostReports.CurrencyDecides | core/ward-pulse-providers/src/openai/mod.rs:130-138 | A result without an amount, a value or a currency costs nothing; one in any spelling of usd, upper or lower case, is read, and one in any other currency is refused |
| CostReports.CostsAreExact | core/ward-pulse-providers/src/openai/mod.rs:123-146 | In a report that succeeds every row is a readable USD amount, and each period's cost is the canonical exact sum of its rows |
| CostReports.ModerateReportsSucceed | core/ward-pulse-providers/src/openai/mod.rs:123-146 | A report succeeds whenever every row is readable and the sizes of each period's rows, at one common scale, add up within 128 bits; so it fails only for an unreadable row or a period beyond that |
| CostReports.ModerateIgnoresOrder | core/ward-pulse-providers/src/openai/mod.rs:123-146 | That condition does not depend on the order of rows, buckets or pages |
| CostReports.CostOrderIgnored | core/ward-pulse-providers/src/openai/mod.rs:123-146 | Two reports that succeed over the same rows, in any order, hold the same costs |
| CostReports.SortedPeriods | core/ward-pulse-providers/src/openai/mod.rs:413-419 | Sorting and removing duplicates lists every period once in strictly increasing order |
| CostReports.MergeBuckets | core/ward-pulse-providers/src/openai/mod.rs:409-446 | One bucket per period in usage or costs, strictly in time order: it starts and ends with the printed times of its period, has a cost exactly when the period has one, a hundred times its worth rounded half away from zero, and usage exactly when the period has it; the list fails exactly when some cost leaves 64-bit cents |
| CostReports.BudgetSpent | core/ward-pulse-providers/src/openai/mod.rs:196-211 | The filtered fold is the total of the costs starting no earlier than the period, in cents |
| CostReports.BudgetIsRows | core/ward-pulse-providers/src/openai/mod.rs:196-211 | A period has spent what all rows of the buckets starting in it are worth together, printed in cents rounded once, half away from zero |
| CostReports.BudgetDrift | core/ward-pulse-providers/src/openai/mod.rs:196-211 | A printed budget differs from the printed buckets it covers by at most half a cent per bucket and half of its own |
| WatchFaceConsentHistory.WatchFaceConsentStore.Read | apps/wear_android/app/src/main/java/app/wardpulse/wear/watchface/WatchFaceConsentStore.kt:25-30 | Nothing saved is eligible, a saved name is itself, an unknown name is a consumed attempt |
| WatchFaceConsentHistory.WatchFaceConsentStore.CompareAndSet | apps/wear_android/app/src/main/java/app/wardpulse/wear/watchface/WatchFaceConsentStore.kt:32-35 | Wins exactly when the expected history is read and the commit is kept; each copy becomes the new history when the commit is kept or still reached it, and stays otherwise |
| WatchFaceConsentHistory.OneShotInterleaved | apps/wear_android/app/src/main/java/app/wardpulse/wear/watchface/WatchFaceConsentStore.kt:25-41 | Over any interleaving of any number of controllers whose operations are careful (an effect directly follows the claim that operation won for it), refused commits and restarts: at most one activation and at most one permission launch |
| WatchFaceConsentHistory.CarefulIsPermitted | apps/wear_android/app/src/main/java/app/wardpulse/wear/watchface/WatchFaceConsentStore.kt:25-41 | Careful operations, interleaved in any way, take only the steps the protocol permits |
| WatchFaceConsentHistory.OneShot | apps/wear_android/app/src/main/java/app/wardpulse/wear/watchface/WatchFaceConsentStore.kt:25-41 | In every permitted run of the protocol, from any two saved copies: at most one activation and one launch, an activation leaves both copies attempted, a launch leaves neither eligible |
| WatchFaceControl.Live | apps/wear_android/app/src/main/java/app/wardpulse/wear/watchface/WatchFaceController.kt:36-127 | Any number of processes, each with any number of controllers asked anything in any order: what they do together is a permitted run of the protocol, so at most one activation and one launch in all |
| WatchFaceControl.Serve | apps/wear_android/app/src/main/java/app/wardpulse/wear/watchface/WatchFaceController.kt:45-127 | Every operation of a controller, whatever the platform answers, is careful: each claim and effect is in its record, and each effect directly follows the claim won for it |
| WatchFaceConsentHistory.SettledForever | apps/wear_android/app/src/main/java/app/wardpulse/wear/watchface/WatchFaceConsentStore.kt:25-41 | Once declined or attempted in both copies, no claim ever wins again |
| WatchFaceConsentHistory.UnknownNamesAreConsumed | apps/wear_android/app/src/main/java/app/wardpulse/wear/watchface/WatchFaceConsentStore.kt:27-29 | An unknown saved name never leads to an activation or a launch |
| WatchFaceConsentHistory.RefusedClaimsCanBeWonLater | apps/wear_android/app/src/main/java/app/wardpulse/wear/watchface/WatchFaceConsentStore.kt:32-35 | A claim whose commit was refused can be won again after a restart, so acting on it would not be one-shot |
| WatchFaceControl.WatchFaceController.Look | apps/wear_android/app/src/main/java/app/wardpulse/wear/watchface/WatchFaceController.kt:146-183 | Succeeds exactly when the platform's answers can be read, fails with the first failure otherwise, and publishes what they say: status, update and installed face as listed, use offered exactly on an installed, inactive face with an eligible history |
| WatchFaceControl.WatchFaceController.Check | apps/wear_android/app/src/main/java/app/wardpulse/wear/watchface/WatchFaceController.kt:45-48 | Shows exactly what the platform and the history say whenever they can be read and no cancellation intervenes, and a failure otherwise; busy equals awaiting permission afterwards, and nothing changes while permission is awaited |
| WatchFaceControl.WatchFaceController.Install | apps/wear_android/app/src/main/java/app/wardpulse/wear/watchface/WatchFaceController.kt:50-57 | Pushes exactly when it sees a missing face and room for it; the bundle sent back means installed, and anything but the sent bundle in the answer ends in a failure status; busy equals awaiting permission afterwards, use is offered only on an eligible history, and nothing changes while permission is awaited |
| WatchFaceControl.WatchFaceController.Update | apps/wear_android/app/src/main/java/app/wardpulse/wear/watchface/WatchFaceController.kt:59-69 | Pushes exactly when it sees an older installed face; the bundle sent back in the same slot means installed, and anything but the sent bundle in the same slot ends in a failure status; busy equals awaiting permission afterwards, use is offered only on an eligible history, and nothing changes while permission is awaited |
| WatchFaceControl.WatchFaceController.UseWatchFace | apps/wear_android/app/src/main/java/app/wardpulse/wear/watchface/WatchFaceController.kt:72-103 | One tap asks for the permission exactly when it sees the face installed and not in use with an eligible history. With the permission it claims the attempt and, when that commit is kept, activates the face's slot once, leaving both copies attempted and the manual fallback; without it, it claims the prompt and, when that commit is kept and nothing cancels, launches once, leaving neither copy eligible; a lost claim leaves the manual fallback. In every other case it claims and does nothing |
| WatchFaceControl.WatchFaceController.OnPermissionResult | apps/wear_android/app/src/main/java/app/wardpulse/wear/watchface/WatchFaceController.kt:106-127 | Spends the history exactly when it is pending and nothing cancels first, on the attempt when granted and as declined otherwise; with the attempt won, a look that finds the face asks for the permission again and with it activates the face's slot once, both copies attempted; never launches; a lost claim ends in a failure status; permission is no longer awaited |
| WatchFaceControl.WatchFaceController.Activate | apps/wear_android/app/src/main/java/app/wardpulse/wear/watchface/WatchFaceController.kt:129-139 | Spends one won attempt; only a cancellation escapes |
| WatchFaceControl.WatchFaceController.AbandonPermission | apps/wear_android/app/src/main/java/app/wardpulse/wear/watchface/WatchFaceController.kt:141-144 | Falls back to manual selection and declines a pending history, in both copies when the commit is kept, unless a cancellation comes first, which changes nothing |
| WatchFaceControl.WatchFaceController.Leave | apps/wear_android/app/src/main/java/app/wardpulse/wear/watchface/WatchFaceController.kt:219-233 | Success, failure and cancellation all end with busy equal to awaiting permission; an interrupted activation keeps its state |
| PlayTracks.ReleaseCodesIff | tools/release-google-play/release_google_play.py:496-502 | A release's codes are read exactly when it lists up to ten thousand distinct texts of codes from 1 to 2147483647, as they are printed, and are the codes whose texts it lists |
| PlayTracks.OrdinaryIff | tools/release-google-play/release_google_play.py:507-518 | A track is ordinary exactly when each release lists codes and is a draft or completed, no two have the same status or share a code, and none is newer than the request |
| PlayTracks.TrackStateIff | tools/release-google-play/release_google_play.py:505-532 | A request succeeds exactly on an ordinary track where no completed release holds the code unless a completion is asked for and there is no draft, a draft holds that code alone, and a completion finds no older completed release but one of a single code |
| PlayTracks.TrackStateLeaves | tools/release-google-play/release_google_play.py:505-532 | It leaves the track as it is when the code is there as asked; for a draft the stored releases and one fresh draft; for a completion one completed release alone, the draft with everything else it says if there was one; nothing but the releases changes |
| PlayTracks.SortReleases | tools/release-google-play/release_google_play.py:507-518 | The loop accepts exactly the tracks with at most one draft and one completed release, disjoint codes and none newer than the request |
| PlayTracks.UpdateTrack | tools/release-google-play/release_google_play.py:505-532 | The branches equal the specified track state, whose successes and results TrackStateIff and TrackStateLeaves tell from the releases |
| PlayTracks.CodeIsGreatest | tools/release-google-play/release_google_play.py:505-532 | Every success leaves an ordinary track that contains the requested code as its greatest |
| PlayTracks.DraftKeepsReleases | tools/release-google-play/release_google_play.py:505-532 | A draft request keeps every existing release in place and unchanged |
| PlayTracks.RequestIsIdempotent | tools/release-google-play/release_google_play.py:505-532 | Asking twice is asking once |
| PlayTracks.DraftThenCompleted | tools/release-google-play/release_google_play.py:505-532 | A draft and then its completion leave exactly one completed release with that code alone, equal to completing directly |
| PlayTracks.CompletionRetiresOneCode | tools/release-google-play/release_google_play.py:527-532 | A completion drops only completed releases that held a single older code |
| PlayTracks.VerifyTrackResponse | tools/release-google-play/release_google_play.py:535-554 | Accepts exactly the responses that repeat the request apart from a generated name and a default priority |
| PlayEdits.Play.Mutate | tools/release-google-play/release_google_play.py:455-489 | A mutation is sent only under a marker this call created, and never over an existing one |
| PlayEdits.Play.Confirm | tools/release-google-play/release_google_play.py:491-493 | The marker is removed only for a response that was accepted |
| PlayEdits.Play.Perform | tools/release-google-play/release_google_play.py:573-614 | Sends at most this mutation, and succeeds exactly when no marker was there, its response is accepted and its marker removed |
| PlayEdits.OnlyRemovalReopens | tools/release-google-play/release_google_play.py:455-493 | An unconfirmed mutation in the history of a directory is followed by another mutation only after an operator removed the marker by hand |
| PlayEdits.NoTwoUnconfirmed | tools/release-google-play/release_google_play.py:455-493 | Between any two mutations in the history of a directory, the first was confirmed or an operator removed the marker |
| PlayEdits.Play.ReadTracks | tools/release-google-play/release_google_play.py:572-583 | Succeeds exactly on a listing of up to a thousand tracks under distinct names with readable releases; then the tracks are there by name, and the codes collected are exactly those some track ever released |
| PlayEdits.Play.ReadBundles | tools/release-google-play/release_google_play.py:586-592 | Succeeds exactly on a listing of up to ten thousand bundles under distinct codes with well-formed digests, and then holds exactly those |
| PlayEdits.Play.Decide | tools/release-google-play/release_google_play.py:593-598 | Both track edits are decided before anything changes, exactly when no other bytes are stored under a code, no code was released without its bytes stored, and both tracks take theirs |
| PlayEdits.PlanIs | tools/release-google-play/release_google_play.py:599-614 | The plan creates the edit, uploads each bundle that is not stored, writes each track that changes, validates and commits, in this order |
| PlayEdits.Play.Apply | tools/release-google-play/release_google_play.py:557-614 | For every sequence of replies, failures and crashes: what was sent is a prefix of one plan, an existing marker means nothing at all is sent, and the run succeeds, with all of the plan sent in order, exactly when the edit is created, the tracks and bundles read admit both bundles, and every mutation is answered as it must be |
| PlayEdits.CommitIsLast | tools/release-google-play/release_google_play.py:611-614 | A plan commits once, as its very last step |
| PlayEdits.KeepTrying | tools/release-google-play/release_google_play.py:557-572 | After a run stopped with a mutation unconfirmed, no number of later runs sends anything |

## Left out

- ConnectionCacheEngine: random UUIDs are serial numbers, which the engine only compares for equality; connection names are the six accepted ones, an unknown name being refused before any state is touched; callbacks are a log of answers.
- CredentialRecords: the store's flat string keys are fields of a record, and the newline-joined retired list is a sequence, so key prefixes and the joining itself are not modelled.
- LeaseWorld.Detach: the iteration order of the process's hash maps is a parameter; the results hold for every order without repetitions.
- Timestamps.UnixSecondsToUtc: stands for the two identical copies of the conversion; the third copy of the date step, in the Cursor adapter, is not modelled separately.
- DecimalText.FromSource: JSON numbers reach it as text; how the JSON library spells a number is not modelled.
- UsageReports: JSON decoding, error texts and the snapshot fields copied through unchanged.
- WatchFaceControl.Live: runs the controllers' operations one after another; operations that overlap are covered by `OneShotInterleaved`, on the steps each operation takes.
- WatchFaceControl: one controller's operations are sequential because its mutex admits one at a time; a second tap during an operation returns at once in the source and is not represented. Closing the bundle and a preferences read that throws are left out.
- PlayTracks.Json: Python compares true with 1 and 1.0 with 1 as equal; here JSON values of different types differ.
- PlayEdits.Play.Apply: the checks of the retained preparation are one Boolean input, bundle bytes appear as their digest, and HTTP, headers and URLs are left out.
- Checkout, GitHub download and release preparation: regular expressions and file handling around straight-line checks.
- Alerts, dashboard, polling, ring order, percent formatting, floating-point adapters, Android and Flutter plumbing: short folds and foreign calls.
