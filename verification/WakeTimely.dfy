/** When a wake may be sent again, and that it is sent when it is due. */
module WakeTimely {
  import opened Basics
  import opened Backoff
  import opened Domain
  import opened WindowKey
  import opened WakeProtocol
  import opened WakeBudget
  import opened WakeOutcome
  import S = StateStore

  /** The code an attempt that did not succeed is recorded under. */
  function FailureCode(result: WakeResult): string {
    if ResultCode(result) == "" then "wake_manual_review" else ResultCode(result)
  }

  predicate Succeeded(result: WakeResult) {
    result.completed && ResultCode(result) == "wake_success"
  }

  lemma StoredOutcome(cfg: Cfg, record: WakeupRecord, result: WakeResult, now: Time, mode: WakeMode)
    requires record.mode == mode && |record.identityHash| <= 128 && |record.windowKey| <= 256
    ensures var stored := SafeWakeupRecord(Outcome(cfg, record, result, now), mode);
            && (Succeeded(result) ==> stored.status == Success)
            && (!Succeeded(result) ==> stored.status == Failed || stored.status == Unknown)
            && (!Succeeded(result) && stored.status == Failed ==> stored.safeError == SafeError(FailureCode(result), REVIEW))
            && (!Succeeded(result) && stored.status == Unknown ==> SafeError(FailureCode(result), REVIEW) == "")
  {
    KnownCode("wake_success");
  }

  /** A recorded attempt closes its budget exactly when it succeeded, or failed with a code
      that is not retryable once sanitized, or was the third, or (initial wake) real use of the
      credential is on record. */
  lemma OutcomeCloses(cfg: Cfg, s: Ledger, result: WakeResult, now: Time, b: Budget)
    requires Setting(cfg, b) && Inv(cfg, s) && Focus(s, b) && Flying(s, b)
    ensures var t := RecordTurn(cfg, Step(cfg, s, Send(result, now)), true);
            Closed(t, b) <==>
              || Succeeded(result) || !Retryable(SafeError(FailureCode(result), REVIEW))
              || Used(s, b) >= MAX_WAKE_ATTEMPTS || (b.mode == Initial && BoundTo(s, b.id).usage.Some?)
  {
    var record, mode := Outcome(cfg, s.pc.record, result, now), s.pc.mode;
    var mid := s.(pc := Recording(mode, s.pc.obs, record));
    FlyingKnows(s, cfg, b);
    SendStep(cfg, s, Send(result, now), b);
    assert Step(cfg, s, Send(result, now)) == mid;
    WakeSave(cfg, mid, s.pc.obs, record, mode);
    OutcomeFinal(cfg, s.pc.record, result, now, mode);
    ClosedMeans(RecordTurn(cfg, mid, true), b);
  }

  lemma FlyingKnows(s: Ledger, cfg: Cfg, b: Budget)
    requires Setting(cfg, b) && Inv(cfg, s) && Focus(s, b) && Flying(s, b)
    ensures var record := s.pc.record;
            && record.mode == s.pc.mode == b.mode && record.identityHash == b.id && |record.windowKey| <= 256
            && record.attemptCount >= 1 && Used(s, b) == Min(MAX_WAKE_ATTEMPTS, record.attemptCount)
            && s.pc.obs.usage == BoundTo(s, b.id).usage
  {
  }

  lemma ClosedMeans(t: Ledger, b: Budget)
    requires Bound(t, b.mode, b.id).Some? && b.Covers(Bound(t, b.mode, b.id).value)
    ensures Closed(t, b) <==> Final(Bound(t, b.mode, b.id).value) || (b.mode == Initial && BoundTo(t, b.id).usage.Some?)
  {
  }

  lemma OutcomeFinal(cfg: Cfg, record: WakeupRecord, result: WakeResult, now: Time, mode: WakeMode)
    requires record.mode == mode && |record.identityHash| <= 128 && |record.windowKey| <= 256 && record.attemptCount >= 1
    ensures var stored := SafeWakeupRecord(Outcome(cfg, record, result, now), mode);
            && stored.windowKey == record.windowKey
            && (Final(stored) <==> Succeeded(result) || !Retryable(SafeError(FailureCode(result), REVIEW))
                                   || record.attemptCount >= MAX_WAKE_ATTEMPTS)
  {
    StoredOutcome(cfg, record, result, now, mode);
    CountKept(cfg, record, result, now, mode);
  }

  lemma CountKept(cfg: Cfg, record: WakeupRecord, result: WakeResult, now: Time, mode: WakeMode)
    requires record.mode == mode && |record.identityHash| <= 128 && |record.windowKey| <= 256 && record.attemptCount >= 1
    ensures var stored := SafeWakeupRecord(Outcome(cfg, record, result, now), mode);
            && stored.windowKey == record.windowKey
            && (stored.status != Unknown ==> stored.attemptCount == Min(MAX_WAKE_ATTEMPTS, record.attemptCount))
  {
  }

  // ---------------------------------------------------------------- how long a retry waits

  lemma RetryableIsKnown(code: string)
    requires Retryable(code)
    ensures SafeError(code, REVIEW) == code && code != ""
  {
    KnownCode("timeout");
    KnownCode("wake_request_failed");
    KnownCode("connection_failed");
    KnownCode("canceled");
  }

  /** After a retryable failure the next attempt waits exactly for the back-off; after a crash
      that left the record pending, exactly for the lease. */
  lemma RetryTimes(cfg: Cfg, record: WakeupRecord, result: WakeResult, now: Time, mode: WakeMode)
    requires record.mode == mode && record.status == Pending && record.safeError == "" && record.nextAttemptAt == ZERO_TIME
    requires |record.identityHash| <= 128 && |record.windowKey| <= 256 && 1 <= record.attemptCount < MAX_WAKE_ATTEMPTS
    requires 0 < cfg.initialBackoff <= cfg.maxBackoff && now >= ZERO_TIME && record.attemptedAt > ZERO_TIME
    ensures forall n :: MayRetry(SafeWakeupRecord(record, mode), n) <==> n >= record.attemptedAt + PENDING_LEASE
    ensures !Succeeded(result) && Retryable(FailureCode(result)) ==>
              forall n :: MayRetry(SafeWakeupRecord(Outcome(cfg, record, result, now), mode), n)
                <==> n >= now + WakeDelay(cfg.initialBackoff as int, cfg.maxBackoff as int, record.attemptCount)
  {
    PendingSurvives(record, mode);
    if !Succeeded(result) && Retryable(FailureCode(result)) {
      WakeDelayBounds(cfg.initialBackoff as int, cfg.maxBackoff as int, record.attemptCount, record.attemptCount);
      RetryableIsKnown(FailureCode(result));
      FailureSurvives(Outcome(cfg, record, result, now), mode);
    }
  }

  lemma FailureSurvives(record: WakeupRecord, mode: WakeMode)
    requires record.mode == mode && record.status == Failed && record.safeError != ""
    requires SafeError(record.safeError, REVIEW) == record.safeError && 0 <= record.attemptCount <= MAX_WAKE_ATTEMPTS
    requires |record.identityHash| <= 128 && |record.windowKey| <= 256
    ensures SafeWakeupRecord(record, mode) == record
  {
    WakeCleanFixed(record, mode);
  }

  // ---------------------------------------------------------------- the remembered reset window

  /** An ownership record yields a reset window exactly when it is bound to the identity, not
      under review, and remembers a reset; what it yields survives the store unchanged, so its
      window key does, too. */
  lemma PersistedResetQuotaSurvives(enc: Encoding, record: S.OwnershipRecord, identity: string)
    ensures PersistedResetQuota(record, identity).Some?
            <==> record.contentHash == identity && record.phase != S.ManualReview
                 && (record.resetAt != ZERO_TIME
                     || (record.lastProbe.Some?
                         && exists w :: w in record.lastProbe.value.windows && w.blocking && w.resetAt != ZERO_TIME))
    ensures PersistedResetQuota(record, identity).Some? && |identity| <= 128 && |record.authIndex| <= 256 ==>
              var q := PersistedResetQuota(record, identity).value;
              && q.status == QuotaExhausted && q.identityHash == identity && q.resetAt != ZERO_TIME
              && SafeQuotaObservation(q) == q
  {
    if record.lastProbe.Some? {
      LatestBlockingResetIsMaximum(record.lastProbe.value.windows);
      SafeWindowsIdempotent(record.lastProbe.value.windows);
    }
    TrimSpaceClean("");
  }

  // ---------------------------------------------------------------- a due reset wake is sent

  /** An exhausted window whose reset has passed, no later use, and no wake for this window. */
  predicate ResetDue(cfg: Cfg, o: CredentialObservation, now: Time) {
    && o.quota.Some? && o.quota.value.status == QuotaExhausted && o.quota.value.resetAt != ZERO_TIME
    && now >= o.quota.value.resetAt
    && (o.usage.None? || o.usage.value.lastUsedAt < o.quota.value.resetAt)
    && (o.resetWakeup.None?
        || (o.resetWakeup.value.windowKey != KeyOf(cfg.enc, o) && o.resetWakeup.value.status != Success))
  }

  function ResetRun(id: string, now: Time): seq<Event> {
    [Load(id, true, true, None), TryInitial(now, true), TryReset(now, true), Send(WakeResult(true, false, ""), now)]
  }

  /** Even while the credential is disabled, a due reset wake is sent by the next pass, for the
      window on record. */
  lemma ResetWakeSends(cfg: Cfg, s: Ledger, id: string, now: Time)
    requires GoodIndex(cfg) && Lawful(cfg.enc) && HashText(id) && cfg.resetEnabled && Kept(cfg, s) && s.pc.Idle?
    requires s.stored.Some? && s.stored.value.identityHash == id && ResetDue(cfg, s.stored.value, now)
    ensures var b := Budget(Reset, id, KeyOf(cfg.enc, s.stored.value));
            KeepsRun(cfg, s, ResetRun(id, now), b) && Sends(cfg, s, ResetRun(id, now), b) == 1
  {
    DueMeansEligible(cfg, s.stored.value, id, now);
    EligibleSends(cfg, s, now, Budget(Reset, id, KeyOf(cfg.enc, s.stored.value)));
  }

  lemma EligibleSends(cfg: Cfg, s: Ledger, now: Time, b: Budget)
    requires HashText(b.id) && b.mode == Reset && cfg.resetEnabled && Kept(cfg, s) && s.pc.Idle?
    requires s.stored.Some? && s.stored.value.identityHash == b.id && KeyOf(cfg.enc, s.stored.value) == b.key
    requires EligibleReset(cfg.enc, s.stored.value, b.id, now)
    ensures KeepsRun(cfg, s, ResetRun(b.id, now), b) && Sends(cfg, s, ResetRun(b.id, now), b) == 1
  {
    var o := s.stored.value;
    var s2 := s.(pc := ResetTurn(o));
    LoadsAsStored(cfg, s, b.id, true);
    DueAnnounces(cfg, s2, o, now);
    FourSteps(cfg, s, s.(pc := InitialTurn(true, o)), s2, Step(cfg, s2, TryReset(now, true)), ResetRun(b.id, now), b);
  }

  lemma LoadsAsStored(cfg: Cfg, s: Ledger, id: string, disabled: bool)
    requires HashText(id) && Kept(cfg, s) && s.pc.Idle? && s.stored.Some? && s.stored.value.identityHash == id
    ensures Step(cfg, s, Load(id, disabled, true, None)) == s.(pc := InitialTurn(disabled, s.stored.value))
  {
  }

  lemma DueAnnounces(cfg: Cfg, s: Ledger, o: CredentialObservation, now: Time)
    requires s.pc == ResetTurn(o) && cfg.resetEnabled && EligibleReset(cfg.enc, o, o.identityHash, now)
    ensures var t := Step(cfg, s, TryReset(now, true));
            t.pc.Requesting? && t.pc.mode == Reset && t.pc.record.windowKey == KeyOf(cfg.enc, o)
  {
  }

  lemma FourSteps(cfg: Cfg, s: Ledger, s1: Ledger, s2: Ledger, s3: Ledger, es: seq<Event>, b: Budget)
    requires |es| == 4 && es[0].Load? && es[1].TryInitial? && es[2].TryReset? && es[3].Send? && Carries(es[0], b.id)
    requires s1 == Step(cfg, s, es[0]) && s2 == Step(cfg, s1, es[1]) && s3 == Step(cfg, s2, es[2])
    requires !s1.pc.Requesting? && !s2.pc.Requesting? && s3.pc.Requesting? && s3.pc.mode == b.mode && b.Covers(s3.pc.record)
    ensures KeepsRun(cfg, s, es, b) && Sends(cfg, s, es, b) == 1
  {
    assert es[1..][0] == es[1] && es[1..][1..] == es[2..] && es[2..][0] == es[2] && es[2..][1..] == es[3..];
    assert es[3..] == [es[3]] && [es[3]][1..] == [];
    assert SendsNow(s3, es[3], b);
    assert Sends(cfg, s3, [es[3]], b) == 1 + Sends(cfg, Step(cfg, s3, es[3]), [], b);
    assert KeepsRun(cfg, s3, [es[3]], b);
    assert KeepsRun(cfg, s2, es[2..], b) && Sends(cfg, s2, es[2..], b) == 1;
    assert KeepsRun(cfg, s1, es[1..], b) && Sends(cfg, s1, es[1..], b) == 1;
  }

  lemma DueMeansEligible(cfg: Cfg, o: CredentialObservation, id: string, now: Time)
    requires SafeCredentialObservation(o) == Some(o) && o.identityHash == id && ResetDue(cfg, o, now)
    ensures EligibleReset(cfg.enc, o, id, now)
  {
  }

  // ---------------------------------------------------------------- a reset success that was not saved

  /** The window is reported once more, and a use from before its reset. */
  function Reported(id: string, q: QuotaObservation): seq<Event> {
    [QuotaDisable(id, q.resetAt, q.windows, ZERO_TIME, true), Usage(id, false, true, q.resetAt - 1, None, true)]
  }

  lemma ReportedTwice(cfg: Cfg, s: Ledger, q: QuotaObservation, b: Budget)
    requires Setting(cfg, b) && Kept(cfg, s) && s.pc.Idle?
    ensures var es, t := Reported(b.id, q), Run(cfg, s, Reported(b.id, q));
            && KeepsRun(cfg, s, es, b) && Sends(cfg, s, es, b) == 0
            && t == Step(cfg, Step(cfg, s, es[0]), es[1]) && t.pc.Idle?
  {
    var es := Reported(b.id, q);
    var s1 := Step(cfg, s, es[0]);
    var s2 := Step(cfg, s1, es[1]);
    assert es[1..] == [es[1]] && [es[1]][1..] == [];
    assert Run(cfg, s2, []) == s2 && Sends(cfg, s2, [], b) == 0 && KeepsRun(cfg, s2, [], b);
    assert Run(cfg, s1, [es[1]]) == s2;
    assert Sends(cfg, s1, [es[1]], b) == 0;
    assert KeepsRun(cfg, s1, [es[1]], b);
  }

  lemma ReportedQuota(cfg: Cfg, s: Ledger, q: QuotaObservation, id: string)
    requires GoodIndex(cfg) && HashText(id) && Kept(cfg, s) && s.pc.Idle?
    ensures var t := Step(cfg, s, Reported(id, q)[0]);
            && Kept(cfg, t) && t.stored.Some? && t.stored.value.identityHash == id && t.pc.Idle?
            && Bound(t, Reset, id) == Bound(s, Reset, id)
            && t.stored.value.quota
               == Some(ExhaustedQuota(cfg, id, q.resetAt, SafeWindows(q.windows), ZERO_TIME))
  {
    var e := Reported(id, q)[0];
    WriterEntryShape(cfg, s, e, id);
    WriterKeeps(cfg, s, WriterEntry(cfg, s, e));
    KnownCode("quota_exhausted");
  }

  lemma ReportedUse(cfg: Cfg, s: Ledger, q: QuotaObservation, id: string)
    requires GoodIndex(cfg) && HashText(id) && Kept(cfg, s) && s.pc.Idle?
    requires s.stored.Some? && s.stored.value.identityHash == id && s.stored.value.quota.Some?
    ensures var t := Step(cfg, s, Reported(id, q)[1]);
            && Kept(cfg, t) && t.stored.Some? && t.stored.value.identityHash == id && t.pc.Idle?
            && Bound(t, Reset, id) == Bound(s, Reset, id)
            && t.stored.value.quota == s.stored.value.quota
            && (t.stored.value.usage.Some? ==> t.stored.value.usage.value.lastUsedAt == q.resetAt - 1)
  {
    var e := Reported(id, q)[1];
    WriterEntryShape(cfg, s, e, id);
    WriterKeeps(cfg, s, WriterEntry(cfg, s, e));
  }

  lemma RetryEligible(cfg: Cfg, s: Ledger, q: QuotaObservation, now: Time, b: Budget)
    requires Setting(cfg, b) && b.mode == Reset && Kept(cfg, s) && s.pc.Idle?
    requires q.resetAt != ZERO_TIME && now >= q.resetAt && b.key == ResetWindowKey(cfg.enc, b.id, q.resetAt, q.windows)
    requires var wake := Bound(s, Reset, b.id); wake.Some? && wake.value.windowKey == b.key && MayRetry(wake.value, now)
    ensures var t := Run(cfg, s, Reported(b.id, q));
            && Kept(cfg, t) && t.stored.Some? && t.stored.value.identityHash == b.id && t.pc.Idle?
            && KeyOf(cfg.enc, t.stored.value) == b.key && EligibleReset(cfg.enc, t.stored.value, b.id, now)
  {
    ReportedTwice(cfg, s, q, b);
    ReportedQuota(cfg, s, q, b.id);
    var s1 := Step(cfg, s, Reported(b.id, q)[0]);
    ReportedUse(cfg, s1, q, b.id);
    SafeWindowsIdempotent(q.windows);
    CountsStayPositive(cfg, s, b.id);
  }

  function ResetRetry(id: string, q: QuotaObservation, now: Time): seq<Event> {
    Reported(id, q) + ResetRun(id, now)
  }

  lemma ResetRetrySends(cfg: Cfg, s: Ledger, q: QuotaObservation, now: Time, b: Budget)
    requires Setting(cfg, b) && b.mode == Reset && Kept(cfg, s) && s.pc.Idle? && cfg.resetEnabled
    requires q.resetAt != ZERO_TIME && now >= q.resetAt && b.key == ResetWindowKey(cfg.enc, b.id, q.resetAt, q.windows)
    requires var wake := Bound(s, Reset, b.id); wake.Some? && wake.value.windowKey == b.key && MayRetry(wake.value, now)
    ensures KeepsRun(cfg, s, ResetRetry(b.id, q, now), b) && Sends(cfg, s, ResetRetry(b.id, q, now), b) == 1
  {
    var t := Run(cfg, s, Reported(b.id, q));
    ReportedTwice(cfg, s, q, b);
    RetryEligible(cfg, s, q, now, b);
    EligibleSends(cfg, t, now, b);
    RunsJoin(cfg, s, Reported(b.id, q), ResetRun(b.id, now), b);
  }

  /** After a successful reset wake no other is ever sent for its window, exactly when the
      success was saved or the attempt was the third. Unlike for the initial wake, use of the
      credential does not settle it: an older use and the same window may be reported again. */
  lemma ResetSuccessIsFinal(cfg: Cfg, s: Ledger, saved: bool, b: Budget)
    requires Setting(cfg, b) && Lawful(cfg.enc) && JustSucceeded(cfg, s, b) && b.mode == Reset && cfg.resetEnabled
    requires s.pc.obs.quota.value.resetAt != ZERO_TIME
    ensures (forall es :: KeepsRun(cfg, RecordTurn(cfg, s, saved), es, b) ==> Sends(cfg, RecordTurn(cfg, s, saved), es, b) == 0)
            <==> saved || Used(s, b) >= MAX_WAKE_ATTEMPTS
  {
    var t := RecordTurn(cfg, s, saved);
    RecordStep(cfg, s, saved, b);
    if saved || Used(s, b) >= MAX_WAKE_ATTEMPTS {
      if saved {
        SavedSuccessCloses(cfg, s, b);
      }
      forall es | KeepsRun(cfg, t, es, b)
        ensures Sends(cfg, t, es, b) == 0
      {
        ClosedForGood(cfg, t, es, b);
      }
    } else {
      var q, wake := s.pc.obs.quota.value, Bound(s, Reset, b.id).value;
      var later := Max(Max(wake.attemptedAt + PENDING_LEASE, wake.nextAttemptAt), q.resetAt);
      ResetRetrySends(cfg, t, q, later, b);
    }
  }

  function Max(a: int, b: int): int {
    if a < b then b else a
  }

  // ---------------------------------------------------------------- recorded use

  /** The quota observation a use is compared with: the stored one, or else the one an
      ownership record remembers. */
  function QuotaAtUse(s: Ledger, id: string, remembered: Option<QuotaObservation>): Option<QuotaObservation> {
    if BoundTo(s, id).quota.Some? then BoundTo(s, id).quota
    else if remembered.Some? && remembered.value.identityHash == id then remembered else None
  }

  function Use(cfg: Cfg, id: string, normal: bool, at: Time, quota: Option<QuotaObservation>): UsageObservation {
    UsageObservation(cfg.index, id, if normal then UsageNormal else UsageRequestFailed,
                     normal && quota.Some? && quota.value.resetAt != ZERO_TIME && quota.value.resetAt <= at, at)
  }

  /** A saved use is on disk afterwards, as it was; it counts as one after the reset when it was
      a real request at or after the reset of the quota known then. */
  lemma UseIsRecorded(cfg: Cfg, s: Ledger, id: string, failed: bool, generate: bool, at: Time, remembered: Option<QuotaObservation>)
    requires GoodIndex(cfg) && HashText(id) && Kept(cfg, s) && s.pc.Idle?
    ensures var t := Step(cfg, s, Usage(id, failed, generate, at, remembered, true));
            && t.stored.Some? && t.stored.value.identityHash == id
            && t.stored.value.usage == Some(Use(cfg, id, !failed && generate, at, QuotaAtUse(s, id, remembered)))
            && Bound(t, Initial, id) == Bound(s, Initial, id) && Bound(t, Reset, id) == Bound(s, Reset, id)
  {
    var e := Usage(id, failed, generate, at, remembered, true);
    WriterEntryShape(cfg, s, e, id);
    WriterKeeps(cfg, s, WriterEntry(cfg, s, e));
    UseEntry(cfg, s, id, failed, generate, at, remembered);
  }

  lemma UseEntry(cfg: Cfg, s: Ledger, id: string, failed: bool, generate: bool, at: Time, remembered: Option<QuotaObservation>)
    requires HashText(id) && Kept(cfg, s)
    ensures UsageEntry(cfg, s, id, failed, generate, at, remembered).usage
            == Some(Use(cfg, id, !failed && generate, at, QuotaAtUse(s, id, remembered)))
  {
    assert BoundTo(s, id).quota.Some? ==> BoundTo(s, id).quota.value.identityHash == id;
  }

  /** Once a use of the credential is saved, no run sends an initial wake for it any more. */
  lemma UseEndsInitialWakes(cfg: Cfg, s: Ledger, e: Event, es: seq<Event>, b: Budget)
    requires Setting(cfg, b) && b.mode == Initial && Lawful(cfg.enc) && Inv(cfg, s) && s.pc.Idle?
    requires e.Usage? && e.id == b.id && e.saved && KeepsRun(cfg, Step(cfg, s, e), es, b)
    ensures Sends(cfg, Step(cfg, s, e), es, b) == 0 && BoundTo(Run(cfg, Step(cfg, s, e), es), b.id).usage.Some?
  {
    var t := Step(cfg, s, e);
    UseIsRecorded(cfg, s, e.id, e.failed, e.generate, e.at, e.ownershipQuota);
    StepBudget(cfg, s, e, b);
    ClosedForGood(cfg, t, es, b);
    UseStays(cfg, t, es, b);
  }

  lemma {:induction false} UseStays(cfg: Cfg, s: Ledger, es: seq<Event>, b: Budget)
    requires Setting(cfg, b) && Lawful(cfg.enc) && Inv(cfg, s) && Focus(s, b) && KeepsRun(cfg, s, es, b)
    requires BoundTo(s, b.id).usage.Some?
    ensures BoundTo(Run(cfg, s, es), b.id).usage.Some?
    decreases es
  {
    if es != [] {
      StepBudget(cfg, s, es[0], b);
      UseSurvives(cfg, s, es[0], b);
      UseStays(cfg, Step(cfg, s, es[0]), es[1..], b);
    }
  }

  lemma UseSurvives(cfg: Cfg, s: Ledger, e: Event, b: Budget)
    requires Setting(cfg, b) && Lawful(cfg.enc) && Inv(cfg, s) && Focus(s, b) && Keeps(cfg, s, e, b)
    requires BoundTo(s, b.id).usage.Some?
    ensures BoundTo(Step(cfg, s, e), b.id).usage.Some?
  {
    if IsWriter(e) {
      WriterStep(cfg, s, e, b);
    } else if e.Record? {
      if s.pc.Recording? && e.saved {
        WakeSave(cfg, s, s.pc.obs, s.pc.record, s.pc.mode);
      }
    } else if e.TryInitial? {
      if Step(cfg, s, e).pc.Requesting? && s.pc.InitialTurn? {
        CountsStayPositive(cfg, s, b.id);
        WakeSave(cfg, s, s.pc.obs, PendingRecord(s.pc.obs, Initial, "", e.now), Initial);
      }
    } else if e.TryReset? {
      if Step(cfg, s, e).pc.Requesting? && s.pc.ResetTurn? {
        ResetUseSurvives(cfg, s, e.now, e.saved);
      }
    }
  }

  lemma ResetUseSurvives(cfg: Cfg, s: Ledger, now: Time, saved: bool)
    requires GoodIndex(cfg) && Lawful(cfg.enc) && Inv(cfg, s) && s.pc.ResetTurn?
    ensures BoundTo(Step(cfg, s, TryReset(now, saved)), s.pc.obs.identityHash).usage == BoundTo(s, s.pc.obs.identityHash).usage
  {
    var obs := s.pc.obs;
    if saved && cfg.resetEnabled && EligibleReset(cfg.enc, obs, obs.identityHash, now) {
      KeyFits(cfg.enc, obs.identityHash, obs.quota.value.resetAt, obs.quota.value.windows);
      AnnouncedUseSurvives(cfg, s, obs, KeyOf(cfg.enc, obs), now);
    }
  }

  lemma AnnouncedUseSurvives(cfg: Cfg, s: Ledger, obs: CredentialObservation, key: string, now: Time)
    requires GoodIndex(cfg) && Kept(cfg, s) && Agrees(cfg, s, obs, {Reset}) && |key| <= 256
    ensures BoundTo(Announce(cfg, s, obs, Reset, key, now, true), obs.identityHash).usage == BoundTo(s, obs.identityHash).usage
  {
    PendingCount(cfg, s, obs, Reset, key, now);
    PendingSaved(cfg, s, obs, Reset, key, now);
  }

  // ---------------------------------------------------------------- a wake is held back

  /** A recorded attempt may be followed by another: below three attempts, not before the
      recorded instant, and either still pending after its lease or failed in a passing way. */
  predicate RetryDue(wake: WakeupRecord, now: Time) {
    && wake.attemptCount < MAX_WAKE_ATTEMPTS && wake.nextAttemptAt <= now
    && ((wake.status == Pending && (wake.attemptedAt == ZERO_TIME || wake.attemptedAt + PENDING_LEASE <= now))
        || (wake.status == Failed && wake.safeError in {"timeout", "wake_request_failed", "connection_failed", "canceled"}))
  }

  /** The stored quota is exhausted, its reset has come, and no use since then is on record. */
  predicate ResetCame(o: CredentialObservation, now: Time) {
    && o.quota.Some? && o.quota.value.identityHash == o.identityHash && o.quota.value.status == QuotaExhausted
    && o.quota.value.resetAt != ZERO_TIME && o.quota.value.resetAt <= now
    && (o.usage.Some? && o.usage.value.lastUsedAt != ZERO_TIME ==> o.usage.value.lastUsedAt < o.quota.value.resetAt)
  }

  /** No wake of this window is on record that succeeded, under either form of its key, and one
      that was tried may be tried again. */
  predicate WindowOpen(enc: Encoding, o: CredentialObservation, now: Time)
    requires o.quota.Some?
  {
    o.resetWakeup.Some? ==>
      var wake := o.resetWakeup.value;
      if wake.windowKey == ResetWindowKey(enc, o.identityHash, o.quota.value.resetAt, o.quota.value.windows) then RetryDue(wake, now)
      else !(wake.status == Success && wake.windowKey == LegacyResetWindowKey(enc, o.identityHash, o.quota.value.resetAt))
  }

  /** The retry rule on a record as the store keeps it. */
  lemma RetryExactly(wake: WakeupRecord, mode: WakeMode, now: Time)
    requires WakeClean(wake, mode) && now >= ZERO_TIME
    ensures MayRetry(wake, now) <==> RetryDue(wake, now)
  {
  }

  lemma UsesAreKnown(cfg: Cfg, s: Ledger, obs: CredentialObservation)
    requires Kept(cfg, s) && obs.usage == BoundTo(s, obs.identityHash).usage
    ensures obs.usage.Some? ==> obs.usage.value.identityHash == obs.identityHash && !obs.usage.value.status.OtherUsage?
  {
  }

  lemma WakesAreClean(cfg: Cfg, s: Ledger, id: string, mode: WakeMode)
    requires Kept(cfg, s) && (mode == Initial || mode == Reset) && Bound(s, mode, id).Some?
    ensures WakeClean(Bound(s, mode, id).value, mode) && Bound(s, mode, id).value.identityHash == id
  {
    CountsStayPositive(cfg, s, id);
    WakeCleanFixed(Bound(s, mode, id).value, mode);
  }

  /** A reset wake is sent on its way exactly when its announcement is saved and: reset wakes are
      on; the quota the pass works with is exhausted and its reset has come; no use at or after
      that reset is on record; and no wake of this window stands against it. */
  lemma ResetWakeExactly(cfg: Cfg, s: Ledger, now: Time, saved: bool)
    requires Inv(cfg, s) && s.pc.ResetTurn? && now >= ZERO_TIME
    ensures Step(cfg, s, TryReset(now, saved)).pc.Requesting?
            <==> saved && cfg.resetEnabled && ResetCame(s.pc.obs, now) && WindowOpen(cfg.enc, s.pc.obs, now)
    ensures s.pc.obs.usage == BoundTo(s, s.pc.obs.identityHash).usage
            && s.pc.obs.resetWakeup == Bound(s, Reset, s.pc.obs.identityHash)
  {
    AgreedEligible(cfg, s, s.pc.obs, now);
  }

  lemma AgreedEligible(cfg: Cfg, s: Ledger, obs: CredentialObservation, now: Time)
    requires Kept(cfg, s) && Agrees(cfg, s, obs, {Reset}) && now >= ZERO_TIME
    ensures EligibleReset(cfg.enc, obs, obs.identityHash, now) <==> ResetCame(obs, now) && WindowOpen(cfg.enc, obs, now)
  {
    UsesAreKnown(cfg, s, obs);
    if obs.resetWakeup.Some? {
      WakesAreClean(cfg, s, obs.identityHash, Reset);
      RetryExactly(obs.resetWakeup.value, Reset, now);
    }
    ResetEligible(cfg, obs, now);
  }

  lemma ResetEligible(cfg: Cfg, obs: CredentialObservation, now: Time)
    requires now >= ZERO_TIME
    requires obs.usage.Some? ==> obs.usage.value.identityHash == obs.identityHash && !obs.usage.value.status.OtherUsage?
    requires obs.resetWakeup.Some? ==> obs.resetWakeup.value.identityHash == obs.identityHash
    requires obs.resetWakeup.Some? ==> (MayRetry(obs.resetWakeup.value, now) <==> RetryDue(obs.resetWakeup.value, now))
    ensures EligibleReset(cfg.enc, obs, obs.identityHash, now) <==> ResetCame(obs, now) && WindowOpen(cfg.enc, obs, now)
  {
  }

  /** An initial wake is, exactly when its announcement is saved and: initial wakes are on, the
      credential is enabled, no use of it is on record, and no attempt stands against it. */
  lemma InitialWakeExactly(cfg: Cfg, s: Ledger, now: Time, saved: bool)
    requires Inv(cfg, s) && s.pc.InitialTurn? && now >= ZERO_TIME
    ensures var id := s.pc.obs.identityHash;
            Step(cfg, s, TryInitial(now, saved)).pc.Requesting?
            <==> saved && cfg.initialEnabled && !s.pc.disabled && BoundTo(s, id).usage.None?
                 && (Bound(s, Initial, id).None? || RetryDue(Bound(s, Initial, id).value, now))
  {
    var obs := s.pc.obs;
    UsesAreKnown(cfg, s, obs);
    if obs.initialWakeup.Some? {
      WakesAreClean(cfg, s, obs.identityHash, Initial);
      RetryExactly(obs.initialWakeup.value, Initial, now);
    }
  }

  /** Over every run from an empty store: whenever the next event announces a wake, these hold. */
  lemma WakesAreHeldBack(cfg: Cfg, es: seq<Event>, e: Event, b: Budget)
    requires Setting(cfg, b) && Lawful(cfg.enc) && KeepsRun(cfg, Start, es, b)
    requires var s := Run(cfg, Start, es); !s.pc.Requesting? && Step(cfg, s, e).pc.Requesting?
    requires (e.TryInitial? || e.TryReset?) ==> e.now >= ZERO_TIME
    ensures var s := Run(cfg, Start, es);
            && (e.TryInitial? || e.TryReset?) && e.saved
            && (e.TryInitial? ==> s.pc.InitialTurn? && !s.pc.disabled && BoundTo(s, b.id).usage.None?)
            && (e.TryReset? ==> s.pc.ResetTurn? && ResetCame(s.pc.obs, e.now) && s.pc.obs.usage == BoundTo(s, b.id).usage)
  {
    var s := Run(cfg, Start, es);
    BudgetHolds(cfg, Start, es, b);
    if e.TryInitial? && s.pc.InitialTurn? {
      InitialWakeExactly(cfg, s, e.now, e.saved);
    } else if e.TryReset? && s.pc.ResetTurn? {
      ResetWakeExactly(cfg, s, e.now, e.saved);
    }
  }
}
