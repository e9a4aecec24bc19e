# Credential Guard: a verified model

Credential Guard is a plugin that watches Codex credentials held by a Host. When a credential runs out of quota it
disables the credential file, later enables it again, probes it, and either lets go or disables it once more. It also
sends a bounded number of real "wake" requests, keeps a catalogue of proxy profiles with fallbacks, and reads quota
responses. This project models that behaviour in Dafny and proves what it keeps over every run. Paths below are relative
to the root of the repository.

`dafny verify dfyconfig.toml` checks everything. No lemma, function or method is assumed.

## What is modelled

| files | subject |
|---|---|
| `Protocol`, `OwnershipInvariant`, `OwnershipSafety` | the guarded disable / enable / probe / re-disable protocol of one auth index, as a transition system over Host calls, store reads, store commits and lock operations, with any number of goroutines, outside writes, Host errors, failed commits and crashes in between |
| `DisableRecord`, `DisableWitness`, `StaleError` | that a disable the plugin made stays on record: the exact list of events after which it does not, a run for each, and the error record among them |
| `Decisions` | what a goroutine does on each answer of Host and store, in whatever company, and what a whole undisturbed scan makes of any record and any credential |
| `RecoveryCycles`, `CalmRuns`, `NextCheck` | what failed attempts add up to, for one attempt after another and for every calm interleaving of scans and quota events, and that a scan waits for the next check |
| `ProtocolLimits`, `SpanCounterexample`, `RestartReview`, `Fleet` | what holds with fewer assumptions, where the assumption about outside writes is needed exactly, restarts, all indexes together |
| `RecoveryManager` | the recovery manager, the credential transaction and the quota disable as methods; each is proved to be a run of the protocol |
| `Domain`, `StateStore`, `StateKeeps` | the sanitizers of the persistence boundary, both state validators, the store, and what a save keeps |
| `WindowKey`, `WakeProtocol`, `WakeBudget`, `WakeOutcome`, `WakeTimely`, `WakeRecords`, `WakeManager` | reset-window keys and the wake budget machine, again as a transition system and as methods that refine it |
| `FallbackGraph`, `ProfileStore`, `Plans` | the proxy catalogue, its three-colour search, active fallbacks, and the table of previewed plans |
| `Credentials` | field-preserving edits and the ownership hash |
| `JsonTree`, `QuotaTime`, `QuotaWalk`, `QuotaResets`, `QuotaHeaders`, `QuotaClassify`, `QuotaFields` | the recursive walks over quota responses, reset times, the windows the Codex headers describe, classification, and how single fields are read |
| `Handover` | reconfigure, quiesce and shutdown against calls and the scan loop |
| `Backoff`, `Basics` | the two delay loops; shared vocabulary |

### Assumptions, stated where they are used

* `Protocol.FreshRun`: every Host write gets a revision not seen before. `Protocol.CleanRun`: no outside write lands
  inside the get, guard, save, re-get span of one transaction. Crashes, Host errors and failed commits may land there.
  Replacing a credential by another one is an outside write. Content hashes are injective (a hash is its content).
* A runtime answer of the Host is current: it may fail, lack the revision, or name another file than the document read
  before, but not carry the revision of an earlier write. (In the re-get after a save, an answer with the revision from
  before the save has the effect of one without revision, which is covered.)
* A store commit either happens as a whole or changes nothing; that is what `atomicWrite` provides in `state.go` and in
  `profiles/store.go`.
* `WindowKey.NoCollision`: JSON text, time text and SHA-256 do not collide on the values compared.
* `Credentials.Lawful`: normalising a JSON text twice is the same as once and does not change its meaning.
* Random identifiers (plan ids, profile ids, attempt ids) are fresh.

### What turned out different from the documentation

* **A disable can go off the record.** `DisableRecord.AccountedExactly`: over every clean and fresh run, each disable the
  plugin made is on record, or its bookkeeping is under way, in every state, if and only if none of these events occurs:
  a crash or a failed commit between the applied disable and its record; a failed answer to the save, the re-get or the
  runtime read of a quota disable that was applied; a quota record whose identifier is not the credential's (taken
  from the listed entry, or with white space around it); a late error record that puts back a version from before the
  disable; an announcement that writes over such a version. `DisableWitness.EveryEntryOccurs` has a run for each.
* **A late error record can make the plugin forget.** `recordSafeError` is fenced by the attempt id, but phase changes
  that keep the id are not fenced. `StaleError.ErrorRecordForgetsDisable` gives, from every settled state, a clean and
  fresh run of four scans without failed commits after which the credential stays disabled by the plugin and no record
  says so. Between attempts the fence holds on every run (`ErrorRecordIsFenced`).
* **Save and load disagree on blank guards.** A pending probe whose post-enable revision or hash is only white space is
  saved but makes the document unreadable on the next start. `StateStore.LoadUndoesSave` has the exact condition,
  `BlankGuardIsLost` a document.
* **The wake budget depends on the index length.** Observations of an auth index longer than 256 characters are
  dropped by every save, so every scan may send a wake. `WakeOutcome.BudgetNeedsShortIndex`: the budget of three holds
  over every run if and only if the index is at most 256 characters.
* **A success that could not be saved is repeated.** `WakeOutcome.SuccessIsFinal`: no further initial wake is sent if
  and only if the success was saved, or it was the third attempt, or other use of the credential is on record. For a
  reset wake use does not help, since an older use can be recorded over it: `WakeTimely.ResetSuccessIsFinal`.
* **`resetTime` is read by one walk and not by the other.** The walk for resets compares with the misspelt lower-case
  name `resetime` (`internal/quota/quota.go:561`). `QuotaWalk.NamesCollected`: of the names of a window's reset this is
  the only one the two read differently; `QuotaResets.ResetTimeAloneIsLost`: a flat response whose one reset stands
  under that name has no structured reset.
* **A full plan table can evict the plan that is being applied**, because applying prunes as if it were about to
  insert. `Plans.AlwaysFound`: a live plan is sure to be found if and only if there is room or another live plan expires
  strictly earlier; `Plans.SometimesFound`: it may be found if and only if there is room or another expires no later.
* **Window keys depend on the order beyond 32 windows**, since the list is cut before it is sorted.
  `WindowKey.OrderIgnoredExactly`: the key ignores the order if and only if there are at most 32 windows or all are the
  same once sanitized.
* **Which header counts can depend on the map order.** Headers outside the known families share one window, and the last
  one read wins. `QuotaHeaders.SometimesExhausted`: a family's window is exhausted in some order if and only if some
  header of it says so; `QuotaHeaders.AlwaysExhausted`: in every order if and only if all its headers of one kind do.
* `SafeUsageObservation` on its own is not idempotent (`Domain.SafeUsageSettles` says when it is); as part of an
  observation it is.
* Two branches of the recovery manager cannot be reached: `post_enable_revision_unavailable`
  (`internal/recovery/recovery.go:234-236`) and `redisable_revision_unavailable`
  (`internal/recovery/recovery.go:338-340`), because a mutation that succeeds always carries a revision.

## Model

| member | source | states |
|---|---|---|
| OwnershipSafety.OwnershipSafe | internal/recovery/recovery.go:148-366 | On every clean and fresh run from empty, each write of the plugin replaces exactly what the Host had but for `disabled`; each enable lands directly on the plugin's own disabling write, each re-disable on its own enable: nothing a user disabled or edited since is ever enabled. |
| OwnershipSafety.EnableIsRecorded | internal/recovery/recovery.go:207-254 | On every such run, while the last Host write is the plugin's enable and no guarded probe success confirmed it, a durable record exists in a phase past owned_disabled. |
| OwnershipSafety.RunInv | internal/recovery/recovery.go:148-366 | The invariant tying log, record, revisions and every goroutine's position is kept by every event of every clean and fresh run. |
| OwnershipSafety.StepInv | internal/recovery/recovery.go:148-366 | One event of any kind keeps that invariant. |
| ProtocolLimits.NoLostUpdate | internal/credentials/credentials.go:231-275 | Even if the Host repeats revisions, no write of the plugin loses an edit, as long as nobody writes inside a transaction. |
| ProtocolLimits.OneTransaction | internal/credentials/credentials.go:74-99 | On every run, with no assumption, at most one goroutine is inside the lock of an index, hence at most one transaction and one probe. |
| ProtocolLimits.GuardHalfIsHarmless | internal/credentials/credentials.go:236-246 | Outside writes between the get and the runtime read that open a transaction: it fails, nothing is saved and no guard is bound. |
| ProtocolLimits.SaveHalfIsExact | internal/credentials/credentials.go:244-257 | Outside writes from there to the save: each of the three saves lands on the snapshot its guard was checked on if and only if there were none. |
| ProtocolLimits.SpanIsExact | internal/credentials/credentials.go:236-259 | So the enable or re-disable lands on the plugin's own write if and only if there were none. |
| ProtocolLimits.RereadIsExact | internal/credentials/credentials.go:263-274 | Outside writes from the save to the end of the re-get: if the transaction ends well, the revision it binds is that of its own save if and only if there were none. |
| ProtocolLimits.EditIsBound | internal/credentials/credentials.go:263-274 | An outside edit there that leaves `disabled` at the plugin's value does end the transaction well, with the edit's revision bound. |
| SpanCounterexample.OutsideWriteInSpanBreaks | internal/credentials/credentials.go:236-259 | The assumption is needed: a concrete run with fresh revisions in which the enable overwrites a user's edit. |
| StaleError.ErrorRecordIsFenced | internal/recovery/recovery.go:495-514 | On every run, recording an error changes only a record of the very attempt the failed scan was started for, and never creates or removes one. |
| DisableRecord.StepTracks | internal/recovery/recovery.go:194-366 | Each listed event leaves a disable of the plugin unaccounted for, and every other event keeps the invariant that accounts for it. |
| DisableRecord.AccountedExactly | internal/recovery/recovery.go:148-366 | Over every clean and fresh run, every disable is on record or about to be, in every state, if and only if no listed event occurs. |
| DisableRecord.DisableIsOnRecord | internal/recovery/recovery.go:148-366 | After such a run, with nobody inside the lock: if the last write is the plugin's disable, a record owns it with matching hash, revision and identifiers, or is about to restore it with the same, or asks for review. |
| DisableWitness.EveryEntryOccurs | internal/app/controller.go:405-447 | For each entry of the list there is a clean and fresh run, with no earlier loss, at whose end that event occurs. |
| StaleError.ErrorRecordForgetsDisable | internal/recovery/recovery.go:495-514 | From every settled state there is a clean and fresh run without outside writes, crashes or failed commits that ends with the plugin's own disable in force and no record of it. |
| Decisions.SnapshotDecides | internal/recovery/recovery.go:156-206 | On any snapshot in any company: a scan goes on to enable exactly a credential that is ours and untouched since the disable on record, to probe exactly one that is ours and guarded, asks a human exactly in the doubtful cases, each with its reason, and lets go in all others. |
| Decisions.GuardDecides | internal/credentials/credentials.go:231-259 | A transaction saves exactly if its guard holds and the flag is not yet as asked for; each caller's reaction to a refusal is fixed. |
| Decisions.RereadConfirms | internal/credentials/credentials.go:259-275 | It ends well exactly if the re-read finds a new revision and the flag as asked for; an enable that breaks otherwise is retried after one more back-off level, a re-disable goes to a human. |
| Decisions.SaveDecides | internal/credentials/credentials.go:244-259 | A save changes nothing of the document but the flag, whatever the Host answers. |
| Decisions.ProbeDecides | internal/recovery/recovery.go:257-293 | A probe is made only under its guard; without a prober and after a failure the re-disable is begun, for that reason. |
| Decisions.SuccessCounts | internal/recovery/recovery.go:294-313 | A success counts exactly if the guard still holds when the credential is read once more. |
| Decisions.QuotaDecides | internal/app/controller.go:370-402 | A quota event goes on exactly with the credential it names, if that is enabled and its revision known. |
| Decisions.UpdateDecides | internal/state/state.go:633-655 | What each store update of recovery leaves of the record found there; a failed one changes nothing and ends the scan with an error, and a record that has gone is not put back. |
| Decisions.ErrorDecides | internal/recovery/recovery.go:495-514 | An error is recorded, with one more back-off level, exactly over a record of the attempt the scan began with. |
| Decisions.ScanLetsGo | internal/recovery/recovery.go:156-206 | A whole undisturbed scan of a record that is due, whose credential is neither ours and untouched nor ours and guarded: nothing is written to the Host; the record goes to manual review in the doubtful cases and is removed in all others. |
| Decisions.ResumeSucceeds | internal/recovery/recovery.go:179-192 | A scan that finds an interrupted attempt enabled and guarded probes again; a success ends it with the credential enabled and no record. |
| Decisions.ResumeFails | internal/recovery/recovery.go:317-366 | A failure ends it disabled again, owned, one level up, with the next check after the closed-form delay. |
| Decisions.UnreadableBacksOff | internal/recovery/recovery.go:495-514 | A scan whose opening read fails writes nothing to the Host and leaves the record one level up, to be checked after the back-off. |
| RestartReview.RestartOnlyReviews | internal/recovery/recovery.go:167-179 | After a crash with an unconfirmed enable in restore_pending, every later run without outside writes sends no probe and writes nothing to the Host; at most the record goes to manual review. |
| RecoveryCycles.AttemptFails | internal/recovery/recovery.go:194-366 | An undisturbed attempt, begun at one instant and ended at another, whose probe fails leaves the credential disabled, with hash and revision on record matching the Host, the level one higher and the next check at the closed-form delay after its end. |
| RecoveryCycles.FailedCycles | internal/recovery/recovery.go:317-400 | After k such attempts the level is min(32, start + k) and the next check min(max, initial * 2^(level-1)) after the end of the last; the next attempt can run. |
| CalmRuns.CalmRunsSettle | internal/recovery/recovery.go:194-400 | The same for every run without outside writes, crashes and failures of Host or store in which all probes fail, with scans and quota events interleaved in any way and every event at its own instant: whenever nobody is inside the lock, level and next check follow from the number and last instant of the failed attempts. |
| NextCheck.NothingBeforeNextCheck | internal/recovery/recovery.go:113-155 | While the next check lies ahead, every run without outside writes (scans, waiting goroutines, quota events, Host errors, failed commits and crashes in any order) leaves the Host and the record as they are and probes nothing. |
| NextCheck.BackoffIsKept | internal/recovery/recovery.go:317-400 | So after k failed attempts, in any calm interleaving, nothing is written, recorded or probed until the closed-form delay after the last failure has passed. |
| NextCheck.ScanBeginsExactly | internal/recovery/recovery.go:113-124 | A scan takes a record up exactly when its check has come. |
| NextCheck.ScanGoesOnExactly | internal/recovery/recovery.go:148-155 | Inside the lock it goes on exactly with a record whose check has come, that is not in review and whose credential was enabled before. |
| RecoveryCycles.AttemptSucceeds | internal/recovery/recovery.go:257-315 | An undisturbed attempt whose probe succeeds leaves the credential enabled, confirmed and without record. |
| RecoveryCycles.QuotaDisables | internal/app/controller.go:370-447 | A quota event on an enabled credential without record leads to the settled state the cycles start from; the first check is at the reset the decision names if that lies ahead, else after the initial back-off. |
| Fleet.FleetProjects | internal/recovery/recovery.go:113-142 | A run over all indexes, seen from one index, is a run of the protocol. |
| Fleet.FleetIsSafe | internal/recovery/recovery.go:113-142 | Ownership safety and the write-ahead record hold for all indexes at once. |
| RecoveryManager.Manager.Snapshot | internal/credentials/credentials.go:162-215 | The two Host reads of a snapshot, whatever else happens between them, are the protocol's read of that continuation. |
| RecoveryManager.Manager.MutateAndSaveLocked | internal/credentials/credentials.go:231-275 | The transaction ends exactly as the protocol's: verified, unneeded, or failed with the error its caller reacts to; a verified result carries a revision. |
| RecoveryManager.Manager.WithLock | internal/credentials/credentials.go:84-99 | Waits, runs the job and gives the token back, or leaves without it; a failed scan goes on to record its error. |
| RecoveryManager.Manager.ScanOne | internal/recovery/recovery.go:113-142 | One turn of a scan is a run of the protocol and leaves no goroutine behind; it begins exactly if the record found has reached its next check, else it does nothing. |
| RecoveryManager.Manager.ProcessLocked | internal/recovery/recovery.go:148-192 | Follows the protocol to the exit it returns; on a record whose check has not come, that is in review or was not enabled before, it does nothing after reading it. |
| RecoveryManager.Manager.ProcessRecord | internal/recovery/recovery.go:156-192 | Takes, for every phase and snapshot, the branch the protocol takes. |
| RecoveryManager.Manager.StartRecoveryLocked | internal/recovery/recovery.go:194-206 | The ownership checks before an enable lead where the protocol's do. |
| RecoveryManager.Manager.EnableOwned | internal/recovery/recovery.go:207-254 | Announce, enable, bind and probe follow the protocol through every failure; the announcement stored is the protocol's. |
| RecoveryManager.Manager.StoreUpdate | internal/state/state.go:633-655 | Applies the caller's closure to the record of that moment, or leaves it; the closures of all callers leave the record the protocol's commit leaves. |
| RecoveryManager.Manager.ScheduleBackoff | internal/recovery/recovery.go:415-428 | Level and next check, computed by the doubling loop, are those of the closed form. |
| RecoveryManager.Manager.ProbeLocked | internal/recovery/recovery.go:257-315 | Probing and both guarded re-reads follow the protocol. |
| RecoveryManager.Manager.FinishFailedProbe | internal/recovery/recovery.go:317-366 | The guarded re-disable follows the protocol; the level, next check, hash and revision it computes and stores are the protocol's. |
| RecoveryManager.Manager.RetryOrReview | internal/recovery/recovery.go:476-494 | Cancellation passes through, guard errors go to manual review, everything else stores the pending record with the back-off computed for it. |
| RecoveryManager.Manager.RecordSafeError | internal/recovery/recovery.go:495-514 | Read, back-off and conditional write outside the lock follow the protocol, the record written included. |
| RecoveryManager.Manager.DisableFromQuota | internal/app/controller.go:370-402 | The quota disable follows the protocol through every failure. |
| RecoveryManager.Manager.DisableAndOwn | internal/app/controller.go:403-447 | So does its second half, the ownership record it builds and stores included. |
| RecoveryManager.ManagerIsSafe | internal/recovery/recovery.go:148-366 | Whatever these methods did, in whatever company, the Host writes are safe and an unconfirmed enable is on record. |
| Backoff.BackoffForLevel | internal/recovery/recovery.go:369-400 | For all 64-bit settings and every level: no overflow, and the result is min(max, initial * 2^(level-1)) with the level cut to 1..32. |
| Backoff.DoubledIsPower | internal/recovery/recovery.go:386-395 | Doubling n times multiplies by 2^n. |
| Backoff.RecoveryDelayMonotone | internal/recovery/recovery.go:369-400 | The delay never shrinks as the level grows. |
| Backoff.WakeBackoff | internal/wakeup/manager.go:464-479 | No overflow, and the closed form including the one case in which the loop jumps to the maximum early. |
| Backoff.WakeDelayBounds | internal/wakeup/manager.go:464-479 | Never above the maximum, within one nanosecond of plain doubling, and monotone in the attempt. |
| Domain.SafeCodeIdempotent | internal/domain/domain.go:70-81 | A sanitized code is empty, listed, or "unknown", and is sanitized to itself. |
| Domain.SafeFamilyIdempotent | internal/domain/domain.go:134-147 | One of four family names, each of which is sanitized to itself. |
| Domain.SafeQuotaWindows | internal/domain/domain.go:106-132 | The loop keeps the first 32 windows, each sanitized. |
| Domain.SafeWindowBlocking | internal/domain/domain.go:106-132 | A sanitized window blocks exactly on its own evidence, whatever flag was stored; a percentage out of range is dropped, the rest kept. |
| Domain.SafeWindowsIdempotent | internal/domain/domain.go:106-132 | Sanitizing windows twice is the same as once. |
| Domain.SafeProbeSummaryIdempotent | internal/domain/domain.go:83-101 | The same for probe summaries. |
| Domain.WakeCleanFixed | internal/domain/domain.go:149-193 | Describes exactly the wake records the sanitizer leaves alone. |
| Domain.SafeWakeupRecordIdempotent | internal/domain/domain.go:149-193 | Sanitizing a wake record twice is the same as once. |
| Domain.SafeWakeupRecordBudget | internal/domain/domain.go:149-193 | Sanitizing never hands an attempt back, never makes a success, and never lets a record of the other mode count. |
| Domain.SafeQuotaObservationIdempotent | internal/domain/domain.go:195-215 | Idempotent, and afterwards the load validator's checks on it cannot fire. |
| Domain.SafeUsageSettles | internal/domain/domain.go:217-233 | The usage sanitizer is idempotent on a record if and only if not (identity too long and index short enough). |
| Domain.SafeCredentialObservationIdempotent | internal/domain/domain.go:235-261 | The observation sanitizer as a whole is idempotent. |
| Domain.WakeKept | internal/domain/domain.go:235-261 | A nested wake record is kept as it is if and only if it is clean and bound to the envelope's identity. |
| StateKeeps.ObservationsKept | internal/state/state.go:675-686 | A save keeps exactly the observations under their own key with a fitting index and identity, and each of their five parts unchanged if and only if it is well-formed and bound to the credential. |
| StateKeeps.RecordsKept | internal/state/state.go:690-727 | An accepted document keeps every ownership record, and of its optional parts exactly the well-formed and bound ones unchanged. |
| StateKeeps.WellFormedIsKept | internal/state/state.go:657-728 | A document of well-formed records is committed as it is. |
| StateKeeps.ProbeSanitized | internal/domain/domain.go:83-101 | Instants, numbers, known status, listed codes and the first 32 windows of a probe survive sanitizing. |
| StateKeeps.QuotaSanitized | internal/domain/domain.go:195-215 | A quota bound to its credential is never dropped and keeps its reset; one of another credential is dropped. |
| StateKeeps.UsageSanitized | internal/domain/domain.go:217-233 | A use bound to its credential is never dropped. |
| StateKeeps.WakeSanitized | internal/domain/domain.go:149-193 | A wake record bound to its credential is never dropped and keeps its instants; an inconsistent one becomes an attempt nobody may repeat. |
| StateStore.SaveRecordMeaning | internal/state/state.go:690-727 | The save accepts a record exactly when it is complete, safe and, while a probe is pending, has a non-empty guard; it changes only the optional sub-records. |
| StateStore.LoadRecordMeaning | internal/state/state.go:490-541 | The load accepts exactly the complete, safe records with a non-blank guard, and cleans them the same way. |
| StateStore.CollectObservations | internal/state/state.go:675-686 | In any map order, the entries under their own key that survive sanitizing, sanitized. |
| StateStore.ValidateRecords | internal/state/state.go:690-727 | In any map order, accepts if and only if every record is accepted, and then all are cleaned. |
| StateStore.ValidateStateForSave | internal/state/state.go:657-728 | Accepts exactly the documents of the right schema and size whose records a save accepts. |
| StateStore.DecodeAndValidate | internal/state/state.go:463-541 | Accepts exactly the stamped documents of the right schema and size whose records a load accepts; two passes over the observations are one. |
| StateStore.LoadUndoesSave | internal/state/state.go:657-728 | What a save accepted and stamped is loaded, unchanged, if and only if the stamp is not the zero time and no pending probe has a blank guard. |
| StateStore.BlankGuardIsLost | internal/state/state.go:711-714 | A concrete document that is saved and cannot be loaded. |
| StateStore.Store.Commit | internal/state/state.go:640-654 | Memory and disk change together or not at all, to the cleaned document. |
| StateStore.Store.Update | internal/state/state.go:633-655 | A failing callback, validation or write changes nothing; success is exactly the cleaned result of the callback. |
| StateStore.Store.Restart | internal/state/state.go:234-329 | A committed state survives a restart, or is set aside exactly under the condition above. |
| WindowKey.BeforeTotal | internal/wakeup/manager.go:362-380 | The chained comparator is a strict total order on windows whose JSON tells them apart. |
| WindowKey.BeforeTransitive | internal/wakeup/manager.go:362-380 | It is transitive. |
| WindowKey.BeforeByFields | internal/wakeup/manager.go:362-380 | It goes by family, reset and length, then puts the milder window first. |
| WindowKey.SortSorted | internal/wakeup/manager.go:362-380 | Stable insertion sorts by it. |
| WindowKey.SortedUnique | internal/wakeup/manager.go:362-380 | A multiset of windows has one sorted arrangement. |
| WindowKey.KeyIdentifiesWindow | internal/wakeup/manager.go:357-389 | Two keys are equal if and only if identity, reset instant and the multiset of sanitized windows are. |
| WindowKey.KeyStable | internal/wakeup/manager.go:357-389 | Up to 32 windows, the key depends neither on their order nor on a trip through the store. |
| WindowKey.OrderIgnoredExactly | internal/domain/domain.go:107-109 | All rearrangements of a list have one key if and only if it has at most 32 windows or all its windows are the same once sanitized. |
| WakeProtocol.LatestBlockingResetIsMaximum | internal/wakeup/manager.go:279-287 | The reset taken over from a stored probe is the latest of its blocking windows, absent only if none has one. |
| WakeBudget.WakeSave | internal/wakeup/manager.go:487-513 | Saving a wake record changes the record of that mode and nothing of the other mode, for the same identity. |
| WakeBudget.WriterStep | internal/app/controller.go:321-352 | None of the other four writers changes a wake record of an unchanged identity, nor forgets recorded use. |
| WakeBudget.StepBudget | internal/wakeup/manager.go:175-231 | Every event, including crashes and failed saves, pays for the request it sends with an attempt already on disk. |
| WakeBudget.BudgetHolds | internal/wakeup/manager.go:395-453 | Over every run with unchanged identity (and window), requests sent plus attempts spent before never exceed the attempts on disk, which never exceed three. |
| WakeBudget.ThreeRequests | internal/wakeup/manager.go:395-453 | From an empty store at most three requests per budget are sent. |
| WakeOutcome.ClosedForGood | internal/wakeup/manager.go:233-270 | Once success, unknown, a non-retryable failure, three attempts or (initial wake) other use is on disk, no run sends another request of that budget. |
| WakeOutcome.SuccessIsFinal | internal/wakeup/manager.go:430-453 | After a success no run sends another initial wake, if and only if the success was saved, was the third attempt, or other use is on record. |
| WakeOutcome.BudgetNeedsShortIndex | internal/domain/domain.go:235-239 | The budget of three holds over every run if and only if the auth index is at most 256 characters. |
| WakeTimely.OutcomeCloses | internal/wakeup/manager.go:432-452 | A recorded attempt closes its budget if and only if it succeeded, failed with a code that is not retryable once sanitized, was the third, or (initial wake) other use is on record. |
| WakeTimely.RetryTimes | internal/wakeup/manager.go:255-269 | After a retryable failure the next attempt is eligible exactly from the back-off on; after a crash that left the record pending, exactly from the lease on. |
| WakeTimely.PersistedResetQuotaSurvives | internal/wakeup/manager.go:272-305 | An ownership record yields a reset window if and only if it is bound, not under review and remembers a reset; the window survives the store unchanged. |
| WakeTimely.ResetWakeSends | internal/wakeup/manager.go:307-355 | A due reset wake is sent by the next pass, for the window on record, even while the credential is disabled. |
| WakeTimely.ResetWakeExactly | internal/wakeup/manager.go:307-355 | A reset wake is sent on its way if and only if its announcement is saved, reset wakes are on, the quota is exhausted and its reset has come, no use since is on record, and no wake of this window stands against it. |
| WakeTimely.InitialWakeExactly | internal/wakeup/manager.go:207-270 | An initial wake is, if and only if its announcement is saved, initial wakes are on, the credential is enabled, no use is on record, and no attempt stands against it. |
| WakeTimely.WakesAreHeldBack | internal/wakeup/manager.go:175-231 | Over every run from an empty store: no wake is announced before its reset, on a used or (initial wake) disabled credential. |
| WakeTimely.UseIsRecorded | internal/app/controller.go:321-352 | A saved use is on disk as it was, marked as after the reset exactly if it was a real request at or after the reset known then. |
| WakeTimely.UseEndsInitialWakes | internal/app/controller.go:321-352 | After it no run sends an initial wake of this identity, and use stays on record. |
| WakeRecords.PassStartsFrom | internal/wakeup/manager.go:175-206 | Without a runtime answer no pass starts; else it starts from what is stored for the identity, and without a stored quota from the one an ownership record remembers. |
| WakeRecords.RememberedExactly | internal/wakeup/manager.go:272-305 | What such a record remembers: its own reset, or without one the latest of the blocking windows its last probe saw, with the windows and the instant of that probe. |
| WakeRecords.RememberedResetSends | internal/wakeup/manager.go:184-231 | With nothing stored but such a record, the first pass after the reset sends the reset wake, even while the credential is disabled. |
| WakeRecords.AnnouncementIsStored | internal/wakeup/manager.go:395-424 | Before a request its announcement is on disk: one more attempt, stamped with the instant its lease runs from, for the window of the pass; nothing else of the entry changes. |
| WakeRecords.OutcomeIsStored | internal/wakeup/manager.go:430-453 | A saved outcome leaves status, code, instants and back-off as the request ended, and nothing else of the entry changes. |
| WakeRecords.RefreshExactly | internal/wakeup/manager.go:207-224 | Between two wakes of one pass it goes on unless a reset wake is due and the credential, read once more, is another. |
| WakeRecords.QuotaIsRecorded | internal/codexhealth/health.go:380-401 | A saved health check, quota query or quota disable is on disk as the quota of its identity, with the status, reset, instant and windows reported; wakes and use stay. |
| WakeTimely.ResetSuccessIsFinal | internal/wakeup/manager.go:430-453 | After a successful reset wake no run sends another for its window, if and only if the success was saved or was the third attempt. |
| WakeManager.LatestReset | internal/wakeup/manager.go:279-287 | The loop computes the latest blocking reset. |
| WakeManager.Manager.SaveWakeObservation | internal/wakeup/manager.go:487-513 | One store update, as the machine's save of a wake record. |
| WakeManager.Manager.RunWakeLocked | internal/wakeup/manager.go:395-424 | Announces before anything is sent; a failed save sends nothing. |
| WakeManager.Manager.RequestAndRecord | internal/wakeup/manager.go:425-453 | Sends once and records; a crash before either is a run of the machine. |
| WakeManager.Manager.Finish | internal/wakeup/manager.go:432-452 | The outcome record, with the loop's delay for retryable failures below three attempts. |
| WakeManager.Manager.ReadObservation | internal/wakeup/manager.go:184-206 | The observation a pass starts from: emptied for another identity, with the reset window an ownership record remembers. |
| WakeManager.Manager.ProcessLocked | internal/wakeup/manager.go:175-231 | Without a usable snapshot nothing; else one whole pass of the machine, begun with this snapshot and followed to its end or to a crash at a request. |
| WakeManager.Manager.OtherWriter | internal/app/controller.go:431-445 | Each of the other writers is one event of the machine. |
| WakeManager.ManagerKeepsBudget | internal/wakeup/manager.go:175-231 | Whatever a manager has been through, a budget has seen at most three requests. |
| FallbackGraph.ValidateFallbackFields | internal/profiles/store.go:333-375 | Accepts exactly well-formed modes and targets with an index list that is non-empty if and only if the fallback is active, at most 256 long, usable and without repetition. |
| FallbackGraph.Search.Visit | internal/profiles/store.go:394-412 | The depth-first visit ends; it fails only on a cycle, and otherwise colours nodes whose chain ends. |
| FallbackGraph.ValidateFallbackGraph | internal/profiles/store.go:377-420 | In any map order, accepts if and only if fields are valid, targets exist and no profile lies on a cycle. |
| FallbackGraph.ChainsAreShort | internal/profiles/store.go:377-420 | In an accepted catalogue every fallback chain ends in fewer steps than there are profiles. |
| FallbackGraph.OneEdge | internal/profiles/store.go:377-420 | Replacing one profile keeps the graph acyclic if and only if the new target does not lead back to it. |
| ProfileStore.NormalizeAuthIndexes | internal/profiles/store.go:704-720 | Strictly ascending, and exactly the usable trimmed entries. |
| ProfileStore.AppendUnique | internal/profiles/store.go:722-724 | The union of both lists, strictly ascending. |
| ProfileStore.RemoveIndexes | internal/profiles/store.go:726-738 | The difference, strictly ascending. |
| ProfileStore.SaveKeeps | internal/profiles/store.go:499-592 | An accepted save, given field by field (active flag and affected credentials stay, the URL is the new canonical one or the old), keeps the catalogue invariant and every active fallback's configuration. |
| ProfileStore.DeleteKeeps | internal/profiles/store.go:594-619 | So does deleting an inactive profile nobody falls back to. |
| ProfileStore.UpdateKeeps | internal/profiles/store.go:665-702 | So does changing a profile's affected credentials, accepted if and only if there are at most 256. |
| ProfileStore.Store.Save | internal/profiles/store.go:499-592 | Succeeds if and only if written and allowed, where "allowed" says of the graph only that the target exists and does not lead back, and then leaves exactly those fields; a refused or failed save changes nothing. |
| ProfileStore.NewProfileIsAccepted | internal/profiles/store.go:499-592 | While there is room, a new profile with a good URL, a usable free remark and no fallback is allowed. |
| ProfileStore.IdleSaveIsAccepted | internal/profiles/store.go:499-592 | Saving a profile with nothing given but its own remark is allowed in every state and changes nothing else. |
| ProfileStore.Store.Delete | internal/profiles/store.go:594-619 | Succeeds if and only if written, known, inactive and unreferenced. |
| ProfileStore.Store.UpdateFallbackState | internal/profiles/store.go:665-702 | Succeeds under an exact condition; the affected credentials are then the union with, or difference from, the usable given ones, and active means there are some. |
| ProfileStore.HistoryOk | internal/profiles/store.go:499-702 | Along every sequence of saves, deletions, marks and clears from the empty catalogue, with any of them refused or their writes failing, every catalogue is well-formed. |
| ProfileStore.ActiveStaysPut | internal/profiles/store.go:548-556 | Along every such sequence, from a moment at which a fallback is active and for as long as it stays so, its mode and target are unchanged and the target's profile is still there. |
| ProfileStore.ActiveExactly | internal/profiles/store.go:665-702 | Along every such sequence, the credentials on a profile's fallback are exactly those marked since it was created and not cleared since, and it is active if and only if there are some. |
| ProfileStore.OnlyClearsEnd | internal/profiles/store.go:665-702 | Only a clear that went through, of all credentials left, ends an active fallback. |
| Plans.Service.PrunePlansLocked | internal/management/management.go:532-551 | Leaves the live plans that expire last: all of them if there is room for one more, else 255. |
| Plans.Service.AddPlan | internal/management/management.go:891-904 | The new plan is in, the table has at most 256 plans, and only expired or earliest-expiring ones left. |
| Plans.Service.TakePlan | internal/management/management.go:920-934 | A plan is handed out at most once, only before it expires, and only if it survived pruning. |
| Plans.AlwaysFound | internal/management/management.go:532-551 | In every table the plugin can have, a live plan survives every way of pruning if and only if there is room or another live plan expires strictly earlier. |
| Plans.SometimesFound | internal/management/management.go:532-551 | It survives some way of pruning if and only if there is room or another live plan expires no later. |
| Plans.ChangedIndexesMeaning | internal/management/management.go:935-978 | The reported credentials are exactly those of items whose guarded mutation went through with the requested value. |
| Plans.Service.ApplyItems | internal/management/management.go:935-978 | One result per item with its exact success and error code, and the list of changed credentials. |
| Plans.Service.Apply | internal/management/management.go:912-992 | Finished exactly for a plan still there and live; all results are exact; the fallback record changes by exactly the credentials this plan changed, or not at all, and its failure is reported exactly then. |
| Credentials.SemanticEqual | internal/credentials/credentials.go:460-470 | Equality of two documents member by member, in any order. |
| Credentials.MutateTopLevel | internal/credentials/credentials.go:355-398 | Never fails on its own final check, and reports a change if and only if the field's meaning differs from what is asked for. |
| Credentials.MutationIsLocal | internal/credentials/credentials.go:355-398 | The field means what was asked for, every other member what it did, and the hash without the field is unchanged. |
| Credentials.TogglesKeepHash | internal/credentials/credentials.go:400-411 | Any sequence of disabling and enabling leaves the ownership hash alone and the flag at the last value. |
| Credentials.HashSeesOtherChanges | internal/credentials/credentials.go:400-411 | A change of any other member changes the hashed content. |
| QuotaTime.SecondsToDuration | internal/quota/quota.go:697-715 | Every accepted number of seconds fits a 64-bit duration of at most 365 days. |
| QuotaTime.ParseTime | internal/quota/quota.go:662-695 | An accepted time lies in the year after now, for every text. |
| QuotaTime.MillisGuardIsExact | internal/quota/quota.go:669-678 | The early test on milliseconds refuses nothing that is valid. |
| QuotaTime.IntegersByMagnitude | internal/quota/quota.go:667-688 | A whole number from one second to a year is a distance from now, above 10^9 a time in seconds, above 10^12 one in milliseconds; smaller or larger distances are refused. |
| QuotaTime.DatesAreRead | internal/quota/quota.go:687-695 | A text that is no whole number is a date, in RFC 3339 form if that lies within the year, else in the form of HTTP. |
| QuotaTime.NumbersAreRead | internal/quota/quota.go:662-688 | A blank text is no time; a whole number is read by magnitude. |
| QuotaTime.SecondsAreRead | internal/quota/quota.go:697-715 | A number of seconds up to a year, given as number or text, is that distance from now to the nanosecond. |
| QuotaWalk.BlockingByPath | internal/quota/quota.go:357-404 | A window at a path blocks if and only if it carries its own evidence or an object on the path says limit reached or not allowed; else it is as its object says. |
| QuotaWalk.OwnEvidence | internal/quota/quota.go:440-487 | A window's own evidence is its object's flags or a used percentage of 100 or more; its reset is absent or within a year. |
| QuotaFields.WindowIsRead | internal/quota/quota.go:440-487 | An object is a window if it says anything of one; of several names for a field the first that can be read counts, and every field of the window is what it says. |
| QuotaFields.NamedIsCandidate | internal/quota/quota.go:382-396 | An object under a key that names a window or rate limits, in any case and anywhere, is read as a window. |
| QuotaFields.OrdinaryFamilies | internal/quota/quota.go:827-841 | The windows of an ordinary response are the primary and the secondary one under either spelling. |
| QuotaFields.InventoryExactly | internal/quota/quota.go:406-438 | A response is taken for an inventory exactly if it, or its body at any depth, holds one of the families as an object or the additional ones as a list. |
| QuotaWalk.CollectWindows | internal/quota/quota.go:357-404 | In any map order, the walk with inherited flags yields exactly the windows defined by paths, each path once. |
| QuotaWalk.NamesCollected | internal/quota/quota.go:558-577 | A name of a window's absolute reset is read alike by the walk for resets if and only if it is not `resetTime` (or no value parses as a time); the names of relative resets all are. |
| QuotaResets.ResetTimeAloneIsLost | internal/quota/quota.go:515-603 | A flat object whose one reset field is `resetTime` has that reset when read as a window, and no structured reset when it is the response. |
| QuotaResets.Walk | internal/quota/quota.go:515-585 | In any map order, the walk gathers exactly the resets of fields that are not owned by a parsed non-blocking window. |
| QuotaResets.StructuredReset | internal/quota/quota.go:515-603 | The latest absolute reset if there is one, else the latest relative one, else none. |
| QuotaResets.LatestFutureReset | internal/quota/quota.go:489-500 | The latest valid reset of a blocking window, or none. |
| QuotaResets.HeaderReset | internal/quota/quota.go:605-640 | The latest Codex header reset if there is one, else the latest Retry-After. |
| QuotaFields.ResetHeaders | internal/quota/quota.go:611-632 | Which headers give a reset, and how. |
| QuotaResets.ResetForEvent | internal/quota/quota.go:502-513 | Precedence structured, windows, Codex headers, Retry-After; the latest in the winning class; none exactly if no class has one, else within a year after now. |
| QuotaHeaders.HeaderWindows | internal/quota/quota.go:240-325 | In any order of the headers: one window for each family they speak of, with the values that order gives. |
| QuotaHeaders.ExhaustedIsSaid | internal/quota/quota.go:285-325 | A header window is exhausted only if a header of its family says so; its reset is none or within a year after now. |
| QuotaHeaders.MayReadMeans | internal/quota/quota.go:251-303 | The windows that some order gives are exactly those whose fields are chosen one by one among what the family's headers say, open only where none speaks. |
| QuotaFields.HeaderWindowMeans | internal/quota/quota.go:304-325 | The same as fields of the window: each said of its family by some header or open, and it blocks exactly on its own evidence. |
| QuotaFields.HeaderSays | internal/quota/quota.go:274-303 | What a header says is its first value, trimmed: a percentage within bounds, a truth value, or a reset within the year. |
| QuotaFields.HeaderSpeaksFor | internal/quota/quota.go:252-273 | A header speaks for the family between prefix and suffix. |
| QuotaHeaders.SometimesExhausted | internal/quota/quota.go:251-325 | A family's window is exhausted in some order if and only if some header of it says so. |
| QuotaHeaders.AlwaysExhausted | internal/quota/quota.go:251-325 | It is exhausted in every order if and only if, of one kind, there are headers of the family and all of them say so. |
| QuotaClassify.FindValue | internal/quota/quota.go:734-747 | In any map order, a field of that name reached through objects is found if and only if there is one. |
| QuotaClassify.StringValues | internal/quota/quota.go:806-825 | Exactly the texts of the tree. |
| QuotaClassify.AnyFieldSays | internal/quota/quota.go:106-130 | A hit has a field of one of the names that says so; if all fields of a name say so, every order hits. |
| QuotaClassify.ExplicitQuotaEvidence | internal/quota/quota.go:131-157 | Found evidence has a witness in the tree or the windows; unanimous fields, exhausted windows and telling phrases are always found. |
| QuotaClassify.Classify | internal/quota/quota.go:39-99 | In any map order: exhaustion only for a failed Codex request of readable size with a witness of the kind the reason names (a field or phrase of the response, an exhausted window at one of its paths, a Codex header that says so, or a rate-limit signal that is opted into and, for status 429, detected), so never on Retry-After or a bare 429 alone; always when the fields of a name agree, a phrase says so, a recognised inventory of at most 32 windows has an exhausted one, or there is no inventory and the headers of a family agree. Its reset has the full precedence for the event's windows, absent exactly if no source has one; transient reasons are exact. |
| QuotaFields.EvidenceMeans | internal/quota/quota.go:131-148 | Which fields speak of exhaustion: a flag set, a denial, no credits left. |
| QuotaFields.InventoryHasResets | internal/quota/quota.go:229-236 | If the headers give a reset at all, no blocking window of an inventory is without one. |
| QuotaClassify.MergeHeaderWindows | internal/quota/quota.go:327-356 | Each window of the body is filled, field by field and only where it is open, from the header window of its family; the header windows of other families follow. |
| QuotaClassify.MergingKeepsEvidence | internal/quota/quota.go:327-356 | So header windows create no evidence that neither side carries and take none of the body's away, nor any that sanitizing would leave. |
| QuotaClassify.EventWindows | internal/quota/quota.go:50-54 | An event is judged by the windows of its inventory, or without any by those of its headers; an exhausted one has a source, and is there whenever a short inventory has one, or there is none and the headers of a family agree. |
| QuotaClassify.AllWindows | internal/quota/quota.go:209-222 | The collected list holds exactly the windows of the response's paths. |
| QuotaClassify.ParseInventory | internal/quota/quota.go:209-239 | Nothing from an unrecognised response; else the windows of its paths, filled from the headers, in this order, cut at 32 and sanitized; an exhausted one only if the response has one or a header says so, and kept among at most 32. |
| Handover.StepKeeps | main.go:211-252 | Every step of reconfigure, quiesce, shutdown, calls and the scan loop keeps the hand-over invariant. |
| Handover.OneControllerWorks | main.go:211-252 | In every reachable state work is in flight in at most one controller, and one whose store is closed has none and can admit none. |
| Handover.NoneAdmittedAfterClosing | internal/app/controller.go:116-202 | Once a controller is closing, no run admits a call to it or starts its scan loop again. |
| Handover.PublishedWorks | main.go:211-252 | In every reachable state, unless a swap or shutdown is at work, the published controller is open with its scan loop running, and a call made then gets inside it. |
| Handover.AdmittedExactly | internal/app/controller.go:157-170 | A call that holds a controller gets inside if and only if that is not closing by then, and is turned away otherwise. |
| Handover.EveryCallEnds | internal/app/controller.go:171-202 | From every reachable state each reconfigure, quiesce and shutdown can end, with the old controller's store closed and the new controller at work. |

## Left out

* Web pages, routing, content types, JSON responses, the cgo bridge and envelopes: user interface and foreign calls.
* HTTP in `internal/codexhealth` and `internal/proxy`: a probe result, a wake result and a canonical proxy URL are inputs.
* Filesystem mechanics (symbolic links, permissions, temporary files, quarantine names): a write succeeds as a whole or changes nothing.
* YAML configuration: settings are arbitrary, and positive with initial at most maximum where the constructor of the wake manager establishes that.
* SHA-256, randomness and JSON text; decoding errors of optional sub-records, which the load treats as absent.
* Strings are sequences of characters; where Go counts bytes the model counts characters, white space is what fits below U+0100, and case folding is that of ASCII.
* A used percentage is a real number; NaN passes the sanitizer but can never be committed, since JSON cannot encode it. A window length of exactly 2^63 seconds, whose conversion Go leaves to the platform, is kept as a number.
* Proxy changes and replacements of a credential appear in the protocol as outside writes; `LastProbe` and the observations are not part of the ownership record there, and the recovery clock does not saturate (`internal/recovery/recovery.go:402-413`).
* Map aliasing: `Replace` cleans the caller's maps in place, here documents are values. `UpdatedAt` of proxy profiles and loading the catalogue from disk.
* The status projection, the legacy window key beyond its use in eligibility, the quota-query worker pool and the order of a scan are left out; each is a plain computation on one value.
* That a new controller's store holds the old controller's last writes, and that a marked fallback matches the profile's current configuration: the program does not promise either.
* Goroutines and mutexes: the hand-over is a transition system over the steps between lock operations, and the protocols are transition systems that the manager classes refine; the memory model is not part of this.
- QuotaClassify.Classify: where several fields of one name, or headers of one kind, disagree, which one counts depends on the map order, so between the witness that is needed and the agreement that suffices the decision is left open, as it is in the program.
* A scan reads all records at once and then visits them. `Manager.ScanOne` reads its record when its turn comes; in the protocol a scan may have read it long before it gets the lock.
* A controller whose configuration is disabled has no scan loop; the hand-over models enabled ones.
- WakeBudget.BudgetHolds: a budget is counted while the identity and, for reset wakes, the window stay the same; alternating between two windows may send more, as the program allows.
