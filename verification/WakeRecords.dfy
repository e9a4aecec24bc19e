/** What each event of the wake machine leaves in the store, field by field: the start of a
    pass, an announcement, an outcome, and the quota the other writers report. */
module WakeRecords {
  import opened Basics
  import opened Backoff
  import opened Domain
  import opened WindowKey
  import opened WakeProtocol
  import opened WakeBudget
  import opened WakeTimely
  import S = StateStore

  // ---------------------------------------------------------------- the start of a pass

  predicate LatestOf(t: Time, windows: seq<QuotaWindow>) {
    && (exists w :: w in windows && w.blocking && w.resetAt == t)
    && (forall w :: w in windows && w.blocking && w.resetAt != ZERO_TIME ==> w.resetAt <= t)
  }

  /** The record is bound to the identity, not under review, and remembers the reset `t`: its
      own, or without one the latest of the blocking windows its last probe saw. */
  predicate Remembers(r: S.OwnershipRecord, id: string, t: Time) {
    && r.contentHash == id && r.phase != S.ManualReview && t != ZERO_TIME
    && (r.resetAt == t || (r.resetAt == ZERO_TIME && r.lastProbe.Some? && LatestOf(t, r.lastProbe.value.windows)))
  }

  /** An exhausted quota with that reset, and the windows and instant of the last probe. */
  predicate RememberedAs(r: S.OwnershipRecord, id: string, q: QuotaObservation) {
    && q.authIndex == r.authIndex && q.identityHash == id && q.status == QuotaExhausted && q.safeError == ""
    && Remembers(r, id, q.resetAt)
    && q.windows == (if r.lastProbe.Some? then SafeWindows(r.lastProbe.value.windows) else [])
    && q.checkedAt == (if r.lastProbe.Some? && r.lastProbe.value.at != ZERO_TIME then r.lastProbe.value.at else r.disabledAt)
  }

  lemma RememberedExactly(r: S.OwnershipRecord, id: string)
    ensures var q := PersistedResetQuota(r, id);
            && (q.Some? ==> RememberedAs(r, id, q.value))
            && (q.None? ==> forall t :: !Remembers(r, id, t))
  {
    if r.lastProbe.Some? {
      LatestBlockingResetIsMaximum(r.lastProbe.value.windows);
    }
  }

  /** Without a runtime answer a pass does not start. Otherwise it starts from what is stored for
      the identity, and without a stored quota from the one the ownership record remembers. */
  lemma PassStartsFrom(cfg: Cfg, s: Ledger, id: string, disabled: bool, runtimeOk: bool, ownership: Option<S.OwnershipRecord>)
    requires HashText(id) && Kept(cfg, s) && s.pc.Idle?
    ensures var t := Step(cfg, s, Load(id, disabled, runtimeOk, ownership)); var o := BoundTo(s, id);
            && t.stored == s.stored
            && (!runtimeOk ==> t.pc.Idle?)
            && (runtimeOk ==>
                && t.pc.InitialTurn? && t.pc.disabled == disabled
                && t.pc.obs == o.(authIndex := cfg.index, identityHash := id, quota := t.pc.obs.quota)
                && (o.quota.Some? || ownership.None? ==> t.pc.obs.quota == o.quota)
                && (o.quota.None? && ownership.Some? ==>
                      && (t.pc.obs.quota.Some? ==> RememberedAs(ownership.value, id, t.pc.obs.quota.value))
                      && (t.pc.obs.quota.None? ==> forall at :: !Remembers(ownership.value, id, at))))
  {
    if ownership.Some? {
      RememberedExactly(ownership.value, id);
    }
  }

  // ---------------------------------------------------------------- what a wake leaves

  /** Everything of the entry but the wake records: what was stored for the identity, and where
      nothing was, the quota the pass worked with. */
  predicate RestKept(cfg: Cfg, s: Ledger, t: Ledger, obs: CredentialObservation) {
    var o, d := BoundTo(s, obs.identityHash), BoundTo(t, obs.identityHash);
    && t.stored.Some? && d.authIndex == cfg.index && d.identityHash == obs.identityHash
    && d.lastHealthCheck == o.lastHealthCheck && d.usage == o.usage
    && d.quota == (if o.quota.Some? then o.quota else SafeQuotaOption(obs.quota, cfg.index, obs.identityHash))
  }

  predicate OtherKept(s: Ledger, t: Ledger, id: string, mode: WakeMode) {
    if mode == Initial then Bound(t, Reset, id) == Bound(s, Reset, id) else Bound(t, Initial, id) == Bound(s, Initial, id)
  }

  lemma EntryKeepsRest(cfg: Cfg, s: Ledger, obs: CredentialObservation, record: WakeupRecord, mode: WakeMode)
    requires GoodIndex(cfg) && Kept(cfg, s) && HashText(obs.identityHash) && (mode == Initial || mode == Reset)
    requires obs.usage == BoundTo(s, obs.identityHash).usage
    ensures RestKept(cfg, s, Saved(s, WakeEntry(cfg, s, obs, record, mode), true), obs)
  {
    var e := WakeEntry(cfg, s, obs, record, mode);
    var o := BoundTo(s, obs.identityHash);
    assert e.lastHealthCheck == o.lastHealthCheck && e.usage == o.usage && e.quota == if o.quota.Some? then o.quota else obs.quota;
    StoredIsClean(cfg, s, obs.identityHash);
  }

  lemma StoredIsClean(cfg: Cfg, s: Ledger, id: string)
    requires GoodIndex(cfg) && Kept(cfg, s) && HashText(id)
    ensures var o := BoundTo(s, id);
            && SafeProbeOption(o.lastHealthCheck) == o.lastHealthCheck
            && SafeQuotaOption(o.quota, cfg.index, id) == o.quota
            && SafeUsageOption(o.usage, cfg.index, id) == o.usage
  {
  }

  /** The attempts on record for a mode, whatever window they were made for. */
  function Attempts(s: Ledger, mode: WakeMode, id: string): int {
    if Bound(s, mode, id).Some? then Bound(s, mode, id).value.attemptCount else 0
  }

  /** A pending attempt made now, one more than before, for the window the pass works with. */
  predicate AnnouncedAs(cfg: Cfg, s: Ledger, wake: WakeupRecord, mode: WakeMode, obs: CredentialObservation, now: Time) {
    && wake.mode == mode && wake.identityHash == obs.identityHash && wake.status == Pending && wake.safeError == ""
    && wake.attemptedAt == now && wake.nextAttemptAt == ZERO_TIME
    && wake.attemptCount == Attempts(s, mode, obs.identityHash) + 1
    && wake.completedAt == (if Bound(s, mode, obs.identityHash).Some? then Bound(s, mode, obs.identityHash).value.completedAt else ZERO_TIME)
    && (mode == Initial ==> wake.windowKey == "")
    && (mode == Reset ==> obs.quota.Some?
                          && wake.windowKey == ResetWindowKey(cfg.enc, obs.identityHash, obs.quota.value.resetAt, obs.quota.value.windows))
  }

  /** Before a request is sent its announcement is on disk, counted and stamped with the instant
      its lease runs from; nothing else of the entry changes. */
  lemma AnnouncementIsStored(cfg: Cfg, s: Ledger, e: Event)
    requires GoodIndex(cfg) && Lawful(cfg.enc) && Inv(cfg, s) && !s.pc.Requesting? && Step(cfg, s, e).pc.Requesting?
    ensures var t := Step(cfg, s, e);
            && ((e.TryInitial? && s.pc.InitialTurn? && t.pc.mode == Initial) || (e.TryReset? && s.pc.ResetTurn? && t.pc.mode == Reset))
            && t.pc.obs == s.pc.obs && AnnouncedAs(cfg, s, t.pc.record, t.pc.mode, t.pc.obs, e.now)
            && Bound(t, t.pc.mode, s.pc.obs.identityHash)
               == Some(t.pc.record.(attemptCount := Min(MAX_WAKE_ATTEMPTS, t.pc.record.attemptCount)))
            && RestKept(cfg, s, t, s.pc.obs) && OtherKept(s, t, s.pc.obs.identityHash, t.pc.mode)
  {
    var obs := s.pc.obs;
    var mode := if e.TryInitial? then Initial else Reset;
    var key := if e.TryInitial? then "" else KeyOf(cfg.enc, obs);
    AnnouncesThen(cfg, s, e, mode, key);
    if mode == Reset {
      KeyFits(cfg.enc, obs.identityHash, obs.quota.value.resetAt, obs.quota.value.windows);
    }
    AnnouncedFields(cfg, s, obs, mode, key, e.now);
    PendingCount(cfg, s, obs, mode, key, e.now);
    PendingSaved(cfg, s, obs, mode, key, e.now);
    EntryKeepsRest(cfg, s, obs, PendingRecord(obs, mode, key, e.now), mode);
  }

  lemma AnnouncesThen(cfg: Cfg, s: Ledger, e: Event, mode: WakeMode, key: string)
    requires !s.pc.Requesting? && Step(cfg, s, e).pc.Requesting?
    requires mode == if e.TryInitial? then Initial else Reset
    requires (s.pc.InitialTurn? || s.pc.ResetTurn?) ==> key == if e.TryInitial? then "" else KeyOf(cfg.enc, s.pc.obs)
    ensures (e.TryInitial? && s.pc.InitialTurn?) || (e.TryReset? && s.pc.ResetTurn? && s.pc.obs.quota.Some?)
    ensures Step(cfg, s, e) == Announce(cfg, s, s.pc.obs, mode, key, e.now, true)
  {
  }

  lemma AnnouncedFields(cfg: Cfg, s: Ledger, obs: CredentialObservation, mode: WakeMode, key: string, now: Time)
    requires WakeOf(obs, mode) == Bound(s, mode, obs.identityHash) && (mode == Initial || mode == Reset)
    requires mode == Initial ==> key == ""
    requires mode == Reset ==> obs.quota.Some? && key == KeyOf(cfg.enc, obs)
    ensures AnnouncedAs(cfg, s, PendingRecord(obs, mode, key, now), mode, obs, now)
  {
  }

  /** A pass works with one observation from its start to its end. */
  lemma ObservationStays(cfg: Cfg, s: Ledger, e: Event)
    requires !s.pc.Idle? && !Step(cfg, s, e).pc.Idle?
    ensures Step(cfg, s, e).pc.obs == s.pc.obs
  {
  }

  /** The request went through and came back as a completed wake. */
  predicate WentWell(result: WakeResult) {
    result.completed && !result.failed && result.code == "wake_success"
  }

  /** The code of a request that did not. */
  function Trouble(result: WakeResult): string {
    if result.failed then "wake_request_failed" else if result.code == "" then "wake_manual_review" else result.code
  }

  predicate Passing(code: string) {
    code in {"timeout", "wake_request_failed", "connection_failed", "canceled"}
  }

  /** What an attempt leaves on record: when it was made, for which window, and how it ended. A
      passing failure below three attempts may be repeated after the back-off; a failure whose
      code is blank cannot be told from a success and is closed. */
  predicate EndedAs(cfg: Cfg, pending: WakeupRecord, wake: WakeupRecord, result: WakeResult, now: Time) {
    && wake.mode == pending.mode && wake.identityHash == pending.identityHash && wake.windowKey == pending.windowKey
    && wake.attemptedAt == pending.attemptedAt
    && (WentWell(result) ==>
          && wake.status == Success && wake.completedAt == now && wake.safeError == "wake_success"
          && wake.nextAttemptAt == ZERO_TIME && wake.attemptCount == Min(MAX_WAKE_ATTEMPTS, pending.attemptCount))
    && (!WentWell(result) && SafeError(Trouble(result), REVIEW) != "" ==>
          && wake.status == Failed && wake.completedAt == pending.completedAt && wake.safeError == SafeError(Trouble(result), REVIEW)
          && wake.attemptCount == Min(MAX_WAKE_ATTEMPTS, pending.attemptCount)
          && wake.nextAttemptAt == (if Passing(Trouble(result)) && pending.attemptCount < MAX_WAKE_ATTEMPTS
                                    then now + WakeDelay(cfg.initialBackoff as int, cfg.maxBackoff as int, pending.attemptCount)
                                    else ZERO_TIME))
    && (!WentWell(result) && SafeError(Trouble(result), REVIEW) == "" ==>
          wake.status == Unknown && wake.attemptCount == MAX_WAKE_ATTEMPTS && wake.nextAttemptAt == ZERO_TIME)
  }

  /** A saved outcome is on disk as it was, and nothing else of the entry changes. */
  lemma OutcomeIsStored(cfg: Cfg, s: Ledger, result: WakeResult, now: Time)
    requires GoodIndex(cfg) && Inv(cfg, s) && s.pc.Requesting?
    ensures var t := Step(cfg, Step(cfg, s, Send(result, now)), Record(true)); var obs, mode := s.pc.obs, s.pc.mode;
            && Bound(t, mode, obs.identityHash).Some?
            && EndedAs(cfg, s.pc.record, Bound(t, mode, obs.identityHash).value, result, now)
            && RestKept(cfg, s, t, obs) && OtherKept(s, t, obs.identityHash, mode)
            && t.pc == if mode == Initial then BetweenTurns(obs) else Idle
  {
    var obs, mode, record := s.pc.obs, s.pc.mode, Outcome(cfg, s.pc.record, result, now);
    SendThenRecord(cfg, s, result, now);
    OutcomeFields(cfg, s.pc.record, result, now, mode);
    WakeSave(cfg, s, obs, record, mode);
    EntryKeepsRest(cfg, s, obs, record, mode);
  }

  lemma SendThenRecord(cfg: Cfg, s: Ledger, result: WakeResult, now: Time)
    requires s.pc.Requesting?
    ensures var obs, mode, record := s.pc.obs, s.pc.mode, Outcome(cfg, s.pc.record, result, now);
            Step(cfg, Step(cfg, s, Send(result, now)), Record(true))
            == Saved(s, WakeEntry(cfg, s, obs, record, mode), true).(pc := if mode == Initial then BetweenTurns(obs) else Idle)
  {
    var mid := Ledger(s.stored, Recording(s.pc.mode, s.pc.obs, Outcome(cfg, s.pc.record, result, now)));
    assert Step(cfg, s, Send(result, now)) == mid;
    assert Step(cfg, mid, Record(true)) == RecordTurn(cfg, mid, true);
  }

  lemma OutcomeFields(cfg: Cfg, pending: WakeupRecord, result: WakeResult, now: Time, mode: WakeMode)
    requires pending.mode == mode && |pending.identityHash| <= 128 && |pending.windowKey| <= 256 && pending.attemptCount >= 1
    ensures var record := Outcome(cfg, pending, result, now);
            && record.mode == mode && record.identityHash == pending.identityHash && |record.windowKey| <= 256
            && EndedAs(cfg, pending, SafeWakeupRecord(record, mode), result, now)
  {
    if WentWell(result) {
      SuccessFields(cfg, pending, result, now, mode);
    } else {
      FailureFields(cfg, pending, result, now, mode);
    }
  }

  lemma SuccessFields(cfg: Cfg, pending: WakeupRecord, result: WakeResult, now: Time, mode: WakeMode)
    requires pending.mode == mode && |pending.identityHash| <= 128 && |pending.windowKey| <= 256 && pending.attemptCount >= 1
    requires WentWell(result)
    ensures EndedAs(cfg, pending, SafeWakeupRecord(Outcome(cfg, pending, result, now), mode), result, now)
  {
    KnownCode("wake_success");
  }

  lemma FailureFields(cfg: Cfg, pending: WakeupRecord, result: WakeResult, now: Time, mode: WakeMode)
    requires pending.mode == mode && |pending.identityHash| <= 128 && |pending.windowKey| <= 256 && pending.attemptCount >= 1
    requires !WentWell(result)
    ensures EndedAs(cfg, pending, SafeWakeupRecord(Outcome(cfg, pending, result, now), mode), result, now)
  {
  }

  // ---------------------------------------------------------------- two wakes in one pass

  /** After an initial wake the pass goes on, unless a reset wake is due and the credential, read
      once more, is no longer the one it started with. */
  lemma RefreshExactly(cfg: Cfg, s: Ledger, now: Time, reread: Option<string>)
    requires Inv(cfg, s) && s.pc.BetweenTurns? && now >= ZERO_TIME
    ensures var t := Step(cfg, s, Refresh(now, reread)); var obs := s.pc.obs;
            && t.stored == s.stored && (t.pc == ResetTurn(obs) || t.pc == Idle)
            && (t.pc.Idle? <==> cfg.resetEnabled && ResetCame(obs, now) && WindowOpen(cfg.enc, obs, now)
                                && reread != Some(obs.identityHash))
  {
    AgreedEligible(cfg, s, s.pc.obs, now);
  }

  // ---------------------------------------------------------------- the quota other writers report

  /** What a probe says of the quota: exhausted or available when it says so, else unknown, then
      never without a code if it failed. */
  predicate TellsQuota(probe: ProbeSummary, resetAt: Time, now: Time, q: QuotaObservation) {
    && (q.status == QuotaAvailable <==> probe.status == ProbeSuccess)
    && (q.status == QuotaExhausted <==> probe.status == ProbeExhausted)
    && (q.status == QuotaUnknown <==> probe.status != ProbeSuccess && probe.status != ProbeExhausted)
    && q.resetAt == resetAt && q.checkedAt == (if probe.at == ZERO_TIME then now else probe.at)
    && q.windows == SafeWindows(probe.windows)
    && q.safeError == (if SafeError(probe.safeError, "quota_unknown") == "" && (probe.status == ProbeError || probe.status == ProbeAmbiguous)
                       then "quota_unknown" else SafeError(probe.safeError, "quota_unknown"))
  }

  /** What a saved report leaves as the quota. A health check reports what is left of its probe
      after sanitizing. */
  predicate Reports(e: Event, q: QuotaObservation) {
    match e
    case QuotaDisable(_, resetAt, windows, now, _) =>
      q.status == QuotaExhausted && q.resetAt == resetAt && q.checkedAt == now && q.safeError == "quota_exhausted"
      && q.windows == SafeWindows(windows)
    case HealthCheck(_, probe, resetAt, now, _) => TellsQuota(SafeProbeSummary(probe), resetAt, now, q)
    case QuotaQuery(_, Some(probe), resetAt, now, _) => TellsQuota(probe, resetAt, now, q)
    case QuotaQuery(_, None, _, now, _) =>
      q.status == QuotaUnknown && q.resetAt == ZERO_TIME && q.checkedAt == now && q.windows == []
    case _ => false
  }

  /** A saved report is on disk as the quota of its identity, a health check as the last one, too;
      wakes and use of that identity stay. */
  lemma QuotaIsRecorded(cfg: Cfg, s: Ledger, e: Event, id: string)
    requires GoodIndex(cfg) && HashText(id) && Kept(cfg, s) && s.pc.Idle?
    requires (e.HealthCheck? || e.QuotaDisable? || e.QuotaQuery?) && Carries(e, id) && e.saved
    ensures var t := Step(cfg, s, e); var o, d := BoundTo(s, id), BoundTo(t, id);
            && t.stored.Some? && d.identityHash == id && d.quota.Some?
            && d.quota.value.authIndex == cfg.index && d.quota.value.identityHash == id && Reports(e, d.quota.value)
            && d.lastHealthCheck == (if e.HealthCheck? then Some(SafeProbeSummary(e.probe)) else o.lastHealthCheck)
            && d.initialWakeup == o.initialWakeup && d.resetWakeup == o.resetWakeup && d.usage == o.usage
  {
    var entry := WriterEntry(cfg, s, e);
    WriterEntryShape(cfg, s, e, id);
    WriterKeeps(cfg, s, entry);
    StoredIsClean(cfg, s, id);
    ReportShape(cfg, s, e, id);
    QuotaPasses(cfg, entry.quota.value, id);
    if e.HealthCheck? {
      SafeProbeSummaryIdempotent(e.probe);
    }
  }

  lemma ReportShape(cfg: Cfg, s: Ledger, e: Event, id: string)
    requires GoodIndex(cfg) && HashText(id) && Kept(cfg, s) && (e.HealthCheck? || e.QuotaDisable? || e.QuotaQuery?) && Carries(e, id)
    ensures var o := WriterEntry(cfg, s, e);
            && o.quota.Some? && o.quota.value.authIndex == cfg.index && o.quota.value.identityHash == id
            && !o.quota.value.status.OtherQuota? && o.usage == BoundTo(s, id).usage
            && o.lastHealthCheck == (if e.HealthCheck? then Some(SafeProbeSummary(e.probe)) else BoundTo(s, id).lastHealthCheck)
            && Reports(e, SafeQuotaObservation(o.quota.value))
  {
    ReportEntry(cfg, s, e, id);
    match e
    case QuotaDisable(_, resetAt, windows, now, _) =>
      DisableTells(cfg, id, resetAt, windows, now);
    case HealthCheck(_, probe, resetAt, now, _) =>
      ProbeTells(cfg.index, id, SafeProbeSummary(probe), resetAt, now);
    case QuotaQuery(_, Some(probe), resetAt, now, _) =>
      ProbeTells(cfg.index, id, probe, resetAt, now);
    case _ =>
  }

  /** The quota a report stores, before sanitizing. */
  function ReportedQuota(cfg: Cfg, e: Event, id: string): QuotaObservation
    requires e.HealthCheck? || e.QuotaDisable? || e.QuotaQuery?
  {
    match e
    case QuotaDisable(_, resetAt, windows, now, _) => ExhaustedQuota(cfg, id, resetAt, windows, now)
    case HealthCheck(_, probe, resetAt, now, _) => QuotaFromProbe(cfg.index, id, SafeProbeSummary(probe), resetAt, now)
    case QuotaQuery(_, answer, resetAt, now, _) => QueriedQuota(cfg, id, answer, resetAt, now)
  }

  lemma ReportEntry(cfg: Cfg, s: Ledger, e: Event, id: string)
    requires HashText(id) && Kept(cfg, s) && (e.HealthCheck? || e.QuotaDisable? || e.QuotaQuery?) && Carries(e, id)
    ensures var o := WriterEntry(cfg, s, e);
            && o.quota == Some(ReportedQuota(cfg, e, id)) && o.usage == BoundTo(s, id).usage
            && o.lastHealthCheck == (if e.HealthCheck? then Some(SafeProbeSummary(e.probe)) else BoundTo(s, id).lastHealthCheck)
  {
  }

  lemma DisableTells(cfg: Cfg, id: string, resetAt: Time, windows: seq<QuotaWindow>, now: Time)
    requires HashText(id)
    ensures var q := SafeQuotaObservation(ExhaustedQuota(cfg, id, resetAt, windows, now));
            && q.resetAt == resetAt && q.checkedAt == now && q.safeError == "quota_exhausted" && q.windows == SafeWindows(windows)
            && (|cfg.index| <= 256 ==> q.status == QuotaExhausted)
  {
    KnownCode("quota_exhausted");
  }

  lemma ProbeTells(index: string, id: string, probe: ProbeSummary, resetAt: Time, now: Time)
    requires HashText(id)
    ensures |index| <= 256 ==> TellsQuota(probe, resetAt, now, SafeQuotaObservation(QuotaFromProbe(index, id, probe, resetAt, now)))
  {
    SafeErrorIdempotent(probe.safeError, "quota_unknown");
    SafeWindowsIdempotent(probe.windows);
    KnownCode("quota_unknown");
  }

  lemma QuotaPasses(cfg: Cfg, q: QuotaObservation, id: string)
    requires GoodIndex(cfg) && HashText(id) && q.authIndex == cfg.index && q.identityHash == id
    ensures SafeQuotaOption(Some(q), cfg.index, id) == Some(SafeQuotaObservation(q))
  {
  }

  /** A saved use changes nothing else; where no quota was stored, the remembered one of this
      identity that it was compared with is. */
  lemma UseKeepsRest(cfg: Cfg, s: Ledger, id: string, failed: bool, generate: bool, at: Time, remembered: Option<QuotaObservation>)
    requires GoodIndex(cfg) && HashText(id) && Kept(cfg, s) && s.pc.Idle?
    ensures var o, d := BoundTo(s, id), BoundTo(Step(cfg, s, Usage(id, failed, generate, at, remembered, true)), id);
            && d.lastHealthCheck == o.lastHealthCheck
            && d.initialWakeup == o.initialWakeup && d.resetWakeup == o.resetWakeup
            && d.quota == (if o.quota.Some? then o.quota
                           else if remembered.Some? && remembered.value.identityHash == id
                           then SafeQuotaOption(remembered, cfg.index, id) else None)
  {
    StoredIsClean(cfg, s, id);
    UseEntryRest(cfg, s, id, failed, generate, at, remembered);
    UseSaved(cfg, s, id, failed, generate, at, remembered);
  }

  lemma UseSaved(cfg: Cfg, s: Ledger, id: string, failed: bool, generate: bool, at: Time, remembered: Option<QuotaObservation>)
    requires GoodIndex(cfg) && HashText(id) && Kept(cfg, s) && s.pc.Idle?
    ensures var e := UsageEntry(cfg, s, id, failed, generate, at, remembered);
            var o, d := BoundTo(s, id), BoundTo(Step(cfg, s, Usage(id, failed, generate, at, remembered, true)), id);
            && d.lastHealthCheck == SafeProbeOption(e.lastHealthCheck) && d.quota == SafeQuotaOption(e.quota, cfg.index, id)
            && d.initialWakeup == o.initialWakeup && d.resetWakeup == o.resetWakeup
  {
    UseIsRecorded(cfg, s, id, failed, generate, at, remembered);
  }

  lemma UseEntryRest(cfg: Cfg, s: Ledger, id: string, failed: bool, generate: bool, at: Time, remembered: Option<QuotaObservation>)
    requires HashText(id) && Kept(cfg, s)
    ensures var e := UsageEntry(cfg, s, id, failed, generate, at, remembered);
            && e.authIndex == cfg.index && e.identityHash == id
            && e.lastHealthCheck == BoundTo(s, id).lastHealthCheck
            && e.quota == (if BoundTo(s, id).quota.Some? then BoundTo(s, id).quota
                           else if remembered.Some? && remembered.value.identityHash == id then remembered else None)
  {
  }

  // ---------------------------------------------------------------- a remembered reset is enough

  function RememberedRun(id: string, r: S.OwnershipRecord, now: Time): seq<Event> {
    [Load(id, true, true, Some(r)), TryInitial(now, true), TryReset(now, true), Send(WakeResult(true, false, ""), now)]
  }

  /** Nothing but an ownership record may be left of a reset: once it has come, the next pass
      sends the reset wake, even while recovery keeps the credential disabled. */
  lemma RememberedResetSends(cfg: Cfg, s: Ledger, id: string, r: S.OwnershipRecord, t: Time, now: Time) returns (q: QuotaObservation)
    requires GoodIndex(cfg) && Lawful(cfg.enc) && HashText(id) && cfg.resetEnabled && Kept(cfg, s) && s.pc.Idle?
    requires BoundTo(s, id) == EmptyObservation && Remembers(r, id, t) && t <= now
    ensures RememberedAs(r, id, q) && q.resetAt == t
    ensures var b := Budget(Reset, id, ResetWindowKey(cfg.enc, id, t, q.windows));
            KeepsRun(cfg, s, RememberedRun(id, r, now), b) && Sends(cfg, s, RememberedRun(id, r, now), b) == 1
  {
    RememberedExactly(r, id);
    q := PersistedResetQuota(r, id).value;
    RememberedOnce(r, id, t, q.resetAt);
    RememberedLoads(cfg, s, id, r, q);
    var obs := EmptyObservation.(authIndex := cfg.index, identityHash := id, quota := Some(q));
    NothingElseIsEligible(cfg, obs, q, now);
    LoadedThenSent(cfg, s, r, obs, now);
  }

  lemma LoadedThenSent(cfg: Cfg, s: Ledger, r: S.OwnershipRecord, obs: CredentialObservation, now: Time)
    requires Step(cfg, s, Load(obs.identityHash, true, true, Some(r))) == s.(pc := InitialTurn(true, obs)) && !s.pc.Requesting?
    requires cfg.resetEnabled && EligibleReset(cfg.enc, obs, obs.identityHash, now)
    ensures var b, es := Budget(Reset, obs.identityHash, KeyOf(cfg.enc, obs)), RememberedRun(obs.identityHash, r, now);
            KeepsRun(cfg, s, es, b) && Sends(cfg, s, es, b) == 1
  {
    var es, s1, s2 := RememberedRun(obs.identityHash, r, now), s.(pc := InitialTurn(true, obs)), s.(pc := ResetTurn(obs));
    DisabledSkips(cfg, s1, now);
    DueAnnounces(cfg, s2, obs, now);
    FourSteps(cfg, s, s1, s2, Step(cfg, s2, TryReset(now, true)), es, Budget(Reset, obs.identityHash, KeyOf(cfg.enc, obs)));
  }

  lemma DisabledSkips(cfg: Cfg, s: Ledger, now: Time)
    requires s.pc.InitialTurn? && s.pc.disabled
    ensures Step(cfg, s, TryInitial(now, true)) == s.(pc := ResetTurn(s.pc.obs))
  {
  }

  lemma RememberedOnce(r: S.OwnershipRecord, id: string, t: Time, u: Time)
    requires Remembers(r, id, t) && Remembers(r, id, u)
    ensures t == u
  {
  }

  lemma RememberedLoads(cfg: Cfg, s: Ledger, id: string, r: S.OwnershipRecord, q: QuotaObservation)
    requires HashText(id) && Kept(cfg, s) && s.pc.Idle? && BoundTo(s, id) == EmptyObservation && PersistedResetQuota(r, id) == Some(q)
    ensures Step(cfg, s, Load(id, true, true, Some(r)))
            == s.(pc := InitialTurn(true, EmptyObservation.(authIndex := cfg.index, identityHash := id, quota := Some(q))))
  {
  }

  lemma NothingElseIsEligible(cfg: Cfg, obs: CredentialObservation, q: QuotaObservation, now: Time)
    requires obs == EmptyObservation.(authIndex := cfg.index, identityHash := q.identityHash, quota := Some(q))
    requires q.status == QuotaExhausted && q.resetAt != ZERO_TIME && q.resetAt <= now
    ensures EligibleReset(cfg.enc, obs, q.identityHash, now)
  {
  }
}
