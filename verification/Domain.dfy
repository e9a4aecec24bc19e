/** The records that cross the persistence boundary and the sanitizers applied there.
    Both validators of the state store, the wake budget and the reset-window key rest on
    sanitizing twice being the same as sanitizing once. */
module Domain {
  import opened Basics

  type Time = int  // an instant; ZERO_TIME is Go's zero time
  const ZERO_TIME: Time := 0

  const MAX_QUOTA_WINDOWS: nat := 32
  const MAX_WAKE_ATTEMPTS: int := 3

  const KnownCodes: set<string> := {
    "codex_usage_limit_reached", "codex_quota_evidence", "codex_generic_rate_limit", "oversized_failure",
    "bare_429", "invalid_failure", "non_quota_failure", "recovery_error", "host_error",
    "unverifiable_pending_enable", "disable_revision_unavailable", "post_enable_revision_unavailable",
    "post_enable_guard_unavailable", "redisable_failed", "redisable_revision_unavailable",
    "ownership_guard_failed", "probe_unavailable", "probe_error", "missing_access_token",
    "health_client_unavailable", "proxy_setup_failed", "request_failed", "timeout", "connection_failed",
    "canceled", "empty_response", "response_read_failed", "response_too_large", "auth_failed",
    "unexpected_status", "invalid_inventory", "quota_exhausted", "save_failed", "revision_unavailable",
    "stale_preview", "post_save_mismatch", "unknown_phase", "reachable", "target_rate_limited",
    "target_challenge", "target_unexpected_status", "target_invalid", "profile_not_found",
    "quota_probe_disabled", "quota_query_failed", "quota_query_in_progress", "quota_unknown",
    "codex_credential_not_found", "wake_disabled", "wake_auth_failed", "wake_quota_exhausted",
    "wake_protocol_failed", "wake_request_failed", "wake_manual_review", "wake_success",
    "usage_confirmed", "usage_unknown", "target_reachable_non_success", "profile_in_use",
    "invalid_fallback_request", "fallback_not_configured", "fallback_not_active", "fallback_active"
  }

  datatype QuotaWindow = QuotaWindow(
    family: string, usedPercent: Option<real>, limitReached: bool, allowed: Option<bool>,
    blocking: bool, resetAt: Time, windowSeconds: int)
  {
    predicate IsExhausted() {
      limitReached || allowed == Some(false) || (usedPercent.Some? && usedPercent.value >= 100.0)
    }
  }

  datatype ProbeStatus = ProbeSuccess | ProbeExhausted | ProbeAmbiguous | ProbeError | OtherProbe(text: string)
  datatype ProbeSummary = ProbeSummary(
    at: Time, status: ProbeStatus, httpStatus: int, latencyMs: int, safeError: string, windows: seq<QuotaWindow>)

  datatype QuotaStatus = QuotaUnknown | QuotaAvailable | QuotaExhausted | OtherQuota(text: string)
  datatype QuotaObservation = QuotaObservation(
    authIndex: string, identityHash: string, status: QuotaStatus, resetAt: Time, checkedAt: Time,
    safeError: string, windows: seq<QuotaWindow>)

  /** `PlainUnknown` is the text "unknown", as opposed to "usage_unknown". */
  datatype UsageStatus = UsageNormal | UsageRequestFailed | UsageUnknown | PlainUnknown | OtherUsage(text: string)
  datatype UsageObservation = UsageObservation(
    authIndex: string, identityHash: string, status: UsageStatus, postReset: bool, lastUsedAt: Time)

  datatype WakeMode = Initial | Reset | OtherMode(text: string)
  datatype WakeStatus = Pending | Success | Failed | Unknown | OtherWake(text: string)
  datatype WakeupRecord = WakeupRecord(
    mode: WakeMode, status: WakeStatus, identityHash: string, windowKey: string,
    attemptedAt: Time, completedAt: Time, nextAttemptAt: Time, attemptCount: int, safeError: string)

  datatype CredentialObservation = CredentialObservation(
    authIndex: string, identityHash: string,
    lastHealthCheck: Option<ProbeSummary>, quota: Option<QuotaObservation>,
    initialWakeup: Option<WakeupRecord>, resetWakeup: Option<WakeupRecord>, usage: Option<UsageObservation>)

  const EmptyObservation := CredentialObservation("", "", None, None, None, None, None)

  // ---------------------------------------------------------------- codes and families

  function SafeCode(value: string): string {
    var code := TrimSpace(value);
    if code == "" then "" else if code in KnownCodes then code else "unknown"
  }

  /** SafeCode with the fallback each record type substitutes for "unknown". */
  function SafeError(value: string, fallback: string): string {
    if SafeCode(value) == "unknown" then fallback else SafeCode(value)
  }

  function SafeFamily(value: string): string {
    var family := ToLower(TrimSpace(value));
    if family == "primary" then "primary"
    else if family == "secondary" then "secondary"
    else if family == "code_review" || family == "code-review" then "code_review"
    else "additional"
  }

  lemma SafeCodeIdempotent(value: string)
    ensures SafeCode(SafeCode(value)) == SafeCode(value)
    ensures SafeCode(value) != "" ==> SafeCode(value) in KnownCodes || SafeCode(value) == "unknown"
  {
    TrimSpaceClean(value);
    TrimSpaceClean(TrimSpace(value));
    TrimSpaceClean("unknown");
  }

  /** A literal code without outer space that is on the list passes unchanged. */
  lemma KnownCode(code: string)
    requires code in KnownCodes && Trimmed(code)
    ensures SafeCode(code) == code
  {
    TrimSpaceClean(code);
  }

  lemma SafeErrorIdempotent(value: string, fallback: string)
    requires fallback in KnownCodes && Trimmed(fallback) && fallback != "unknown"
    ensures SafeError(SafeError(value, fallback), fallback) == SafeError(value, fallback)
    ensures SafeCode(SafeError(value, fallback)) == SafeError(value, fallback) != "unknown"
  {
    SafeCodeIdempotent(value);
    KnownCode(fallback);
  }

  lemma LowerFixed(s: string)
    requires forall i :: 0 <= i < |s| ==> LowerChar(s[i]) == s[i]
    ensures ToLower(s) == s
  {
  }

  lemma SafeFamilyIdempotent(value: string)
    ensures SafeFamily(value) in {"primary", "secondary", "code_review", "additional"}
    ensures SafeFamily(SafeFamily(value)) == SafeFamily(value)
    ensures value in {"primary", "secondary", "code_review", "additional"} ==> SafeFamily(value) == value
  {
    if value in {"primary", "secondary", "code_review", "additional"} {
      FamilyFixed(value);
    }
    FamilyFixed(SafeFamily(value));
  }

  lemma FamilyFixed(family: string)
    requires family in {"primary", "secondary", "code_review", "additional"}
    ensures SafeFamily(family) == family
  {
    FamilyLower(family);
    TrimSpaceClean(family);
  }

  lemma FamilyLower(family: string)
    requires family in {"primary", "secondary", "code_review", "additional"}
    ensures Trimmed(family) && ToLower(family) == family
  {
    LowerFixed(family);
  }

  // ---------------------------------------------------------------- quota windows

  function SafeWindow(w: QuotaWindow): QuotaWindow {
    var percent := if w.usedPercent.Some? && (w.usedPercent.value < 0.0 || w.usedPercent.value > 1000.0)
                   then None else w.usedPercent;
    var out := w.(family := SafeFamily(w.family), usedPercent := percent);
    out.(blocking := out.IsExhausted())
  }

  function SafeWindows(windows: seq<QuotaWindow>): (r: seq<QuotaWindow>)
    ensures |r| == (if |windows| > MAX_QUOTA_WINDOWS then MAX_QUOTA_WINDOWS else |windows|)
    ensures forall i :: 0 <= i < |r| ==> r[i] == SafeWindow(windows[i])
  {
    var n := if |windows| > MAX_QUOTA_WINDOWS then MAX_QUOTA_WINDOWS else |windows|;
    seq(n, i requires 0 <= i < n => SafeWindow(windows[i]))
  }

  method SafeQuotaWindows(windows: seq<QuotaWindow>) returns (out: seq<QuotaWindow>)
    ensures out == SafeWindows(windows)
  {
    var input := windows;
    if |input| > MAX_QUOTA_WINDOWS {
      input := input[..MAX_QUOTA_WINDOWS];
    }
    out := [];
    for i := 0 to |input|
      invariant |out| == i
      invariant forall j :: 0 <= j < i ==> out[j] == SafeWindow(input[j])
    {
      var window := input[i].(family := SafeFamily(input[i].family));
      if window.usedPercent.Some? && (window.usedPercent.value < 0.0 || window.usedPercent.value > 1000.0) {
        window := window.(usedPercent := None);
      }
      window := window.(blocking := window.IsExhausted());
      out := out + [window];
    }
  }

  lemma SafeWindowIdempotent(w: QuotaWindow)
    ensures SafeWindow(SafeWindow(w)) == SafeWindow(w)
  {
    SafeFamilyIdempotent(w.family);
  }

  /** Blocking never outlives its evidence: whatever was stored, it is recomputed. A percentage
      out of range is dropped, and everything else stays. */
  lemma SafeWindowBlocking(w: QuotaWindow)
    ensures SafeWindow(w).usedPercent == (if w.usedPercent.Some? && 0.0 <= w.usedPercent.value <= 1000.0 then w.usedPercent else None)
    ensures SafeWindow(w).limitReached == w.limitReached && SafeWindow(w).allowed == w.allowed
    ensures SafeWindow(w).resetAt == w.resetAt && SafeWindow(w).windowSeconds == w.windowSeconds
    ensures SafeWindow(w).blocking <==>
            w.limitReached || w.allowed == Some(false) || (w.usedPercent.Some? && 100.0 <= w.usedPercent.value <= 1000.0)
  {
  }

  lemma SafeWindowsIdempotent(windows: seq<QuotaWindow>)
    ensures SafeWindows(SafeWindows(windows)) == SafeWindows(windows)
  {
    var safe := SafeWindows(windows);
    forall i | 0 <= i < |safe|
      ensures SafeWindow(safe[i]) == safe[i]
    {
      SafeWindowIdempotent(windows[i]);
    }
  }

  // ---------------------------------------------------------------- probe, quota, usage

  function SafeProbeSummary(p: ProbeSummary): ProbeSummary {
    p.(status := if p.status.OtherProbe? then ProbeAmbiguous else p.status,
       safeError := SafeError(p.safeError, "probe_error"),
       windows := SafeWindows(p.windows))
  }

  lemma SafeProbeSummaryIdempotent(p: ProbeSummary)
    ensures SafeProbeSummary(SafeProbeSummary(p)) == SafeProbeSummary(p)
  {
    SafeErrorIdempotent(p.safeError, "probe_error");
    SafeWindowsIdempotent(p.windows);
  }

  function SafeQuotaObservation(q: QuotaObservation): QuotaObservation {
    var out := q.(status := if q.status.OtherQuota? then QuotaUnknown else q.status,
                  safeError := SafeError(q.safeError, "quota_unknown"),
                  windows := SafeWindows(q.windows));
    if |out.identityHash| > 128 || |out.authIndex| > 256 then out.(identityHash := "", status := QuotaUnknown) else out
  }

  lemma SafeQuotaObservationIdempotent(q: QuotaObservation)
    ensures SafeQuotaObservation(SafeQuotaObservation(q)) == SafeQuotaObservation(q)
    ensures |SafeQuotaObservation(q).identityHash| <= 128 && !SafeQuotaObservation(q).status.OtherQuota?
    ensures SafeCode(SafeQuotaObservation(q).safeError) != "unknown"
  {
    SafeErrorIdempotent(q.safeError, "quota_unknown");
    SafeWindowsIdempotent(q.windows);
  }

  function SafeUsageObservation(u: UsageObservation): UsageObservation {
    var out := u.(status := if u.status.PlainUnknown? || u.status.OtherUsage? then UsageUnknown else u.status);
    if |out.identityHash| > 128 || |out.authIndex| > 256 then out.(identityHash := "", status := PlainUnknown) else out
  }

  /** On its own the usage sanitizer is not idempotent: an overlong identity is blanked and
      the status set to the text "unknown", which the next pass rewrites to "usage_unknown".
      It settles at once in every other case. */
  lemma SafeUsageSettles(u: UsageObservation)
    ensures SafeUsageObservation(SafeUsageObservation(u)) == SafeUsageObservation(u)
            <==> !(|u.identityHash| > 128 && |u.authIndex| <= 256)
    ensures |u.identityHash| <= 128 && |u.authIndex| <= 256 && !u.status.PlainUnknown? && !u.status.OtherUsage?
            ==> SafeUsageObservation(u) == u
  {
  }

  // ---------------------------------------------------------------- wake records

  const REVIEW: string := "wake_manual_review"

  /** A visible, non-retryable marker. */
  function ForReview(wake: WakeupRecord): WakeupRecord {
    wake.(status := Unknown, safeError := REVIEW, attemptCount := MAX_WAKE_ATTEMPTS)
  }

  predicate Inconsistent(wake: WakeupRecord) {
    (wake.status == Success && wake.safeError != "wake_success") || (wake.status == Failed && wake.safeError == "")
  }

  predicate Overlong(wake: WakeupRecord) {
    |wake.identityHash| > 128 || |wake.windowKey| > 256
  }

  /** Each pass rewrites a local copy. The mode text is read trimmed. */
  function SafeWakeupRecord(wake: WakeupRecord, mode: WakeMode): WakeupRecord {
    var out := wake.(mode := mode,
                     status := if wake.status.OtherWake? then Unknown else wake.status,
                     safeError := SafeError(wake.safeError, REVIEW));
    var out := if wake.mode != mode || Inconsistent(out) then ForReview(out) else out;
    var out := if Overlong(out) then ForReview(out.(identityHash := "", windowKey := "")) else out;
    Counted(out)
  }

  function Counted(wake: WakeupRecord): WakeupRecord {
    var out := if wake.attemptCount < 0 then wake.(attemptCount := 0) else wake;
    var out := if out.attemptCount > MAX_WAKE_ATTEMPTS then out.(attemptCount := MAX_WAKE_ATTEMPTS) else out;
    if out.status == Unknown then out.(attemptCount := MAX_WAKE_ATTEMPTS, nextAttemptAt := ZERO_TIME) else out
  }

  /** The wake records the sanitizer leaves alone. */
  predicate WakeClean(wake: WakeupRecord, mode: WakeMode) {
    && wake.mode == mode && !wake.status.OtherWake? && !Inconsistent(wake) && !Overlong(wake)
    && SafeError(wake.safeError, REVIEW) == wake.safeError
    && 0 <= wake.attemptCount <= MAX_WAKE_ATTEMPTS
    && (wake.status == Unknown ==> wake.attemptCount == MAX_WAKE_ATTEMPTS && wake.nextAttemptAt == ZERO_TIME)
  }

  lemma WakeCleanFixed(wake: WakeupRecord, mode: WakeMode)
    ensures WakeClean(wake, mode) <==> SafeWakeupRecord(wake, mode) == wake
  {
    if SafeWakeupRecord(wake, mode) == wake {
      SafeWakeupRecordClean(wake, mode);
    }
  }

  lemma CountedClean(wake: WakeupRecord, mode: WakeMode)
    requires wake.mode == mode && !wake.status.OtherWake? && !Inconsistent(wake) && !Overlong(wake)
    requires SafeError(wake.safeError, REVIEW) == wake.safeError
    ensures WakeClean(Counted(wake), mode)
  {
  }

  lemma ReviewFixed()
    ensures SafeError(REVIEW, REVIEW) == REVIEW
  {
    KnownCode(REVIEW);
  }

  lemma SafeWakeupRecordClean(wake: WakeupRecord, mode: WakeMode)
    ensures WakeClean(SafeWakeupRecord(wake, mode), mode)
  {
    ReviewFixed();
    var code := SafeError(wake.safeError, REVIEW);
    assert SafeError(code, REVIEW) == code by {
      KnownCode(REVIEW);
      SafeErrorIdempotent(wake.safeError, REVIEW);
    }
    var out := wake.(mode := mode, status := if wake.status.OtherWake? then Unknown else wake.status, safeError := code);
    out := if wake.mode != mode || Inconsistent(out) then ForReview(out) else out;
    out := if Overlong(out) then ForReview(out.(identityHash := "", windowKey := "")) else out;
    CountedClean(out, mode);
  }

  lemma SafeWakeupRecordIdempotent(wake: WakeupRecord, mode: WakeMode)
    ensures SafeWakeupRecord(SafeWakeupRecord(wake, mode), mode) == SafeWakeupRecord(wake, mode)
  {
    SafeWakeupRecordClean(wake, mode);
    WakeCleanFixed(SafeWakeupRecord(wake, mode), mode);
  }

  /** Sanitizing never hands an attempt back, never turns another outcome into a success
      and never lets a record of the other mode count as one of this mode. */
  lemma SafeWakeupRecordBudget(wake: WakeupRecord, mode: WakeMode)
    ensures var safe := SafeWakeupRecord(wake, mode);
            && safe.mode == mode && 0 <= safe.attemptCount <= MAX_WAKE_ATTEMPTS
            && (wake.attemptCount <= MAX_WAKE_ATTEMPTS ==> safe.attemptCount >= wake.attemptCount)
            && (safe.status == Success ==> wake.status == Success && wake.mode == mode && safe.safeError == "wake_success")
            && (wake.mode != mode ==> safe.status == Unknown)
            && (safe.status == Unknown ==> safe.attemptCount == MAX_WAKE_ATTEMPTS)
            && (safe.identityHash == wake.identityHash || safe.identityHash == "")
  {
  }

  // ---------------------------------------------------------------- credential observations

  function SafeQuotaOption(q: Option<QuotaObservation>, authIndex: string, identity: string): Option<QuotaObservation> {
    if q.None? then None
    else
      var safe := SafeQuotaObservation(q.value);
      if safe.authIndex != authIndex || safe.identityHash != identity then None else Some(safe)
  }

  function SafeWakeOption(wake: Option<WakeupRecord>, mode: WakeMode, identity: string): Option<WakeupRecord> {
    if wake.None? then None
    else
      var safe := SafeWakeupRecord(wake.value, mode);
      if safe.identityHash != identity then None else Some(safe)
  }

  function SafeUsageOption(u: Option<UsageObservation>, authIndex: string, identity: string): Option<UsageObservation> {
    if u.None? then None
    else
      var safe := SafeUsageObservation(u.value);
      if safe.authIndex != authIndex || safe.identityHash != identity then None else Some(safe)
  }

  function SafeProbeOption(p: Option<ProbeSummary>): Option<ProbeSummary> {
    if p.None? then None else Some(SafeProbeSummary(p.value))
  }

  /** A nested record stays only when it is bound to the identity of its envelope. */
  function SafeCredentialObservation(o: CredentialObservation): Option<CredentialObservation> {
    if Blank(o.authIndex) || |o.authIndex| > 256 || Blank(o.identityHash) || |o.identityHash| > 128 then None
    else
      Some(CredentialObservation(
        o.authIndex, o.identityHash,
        SafeProbeOption(o.lastHealthCheck),
        SafeQuotaOption(o.quota, o.authIndex, o.identityHash),
        SafeWakeOption(o.initialWakeup, Initial, o.identityHash),
        SafeWakeOption(o.resetWakeup, Reset, o.identityHash),
        SafeUsageOption(o.usage, o.authIndex, o.identityHash)))
  }

  lemma SafeProbeOptionIdempotent(p: Option<ProbeSummary>)
    ensures SafeProbeOption(SafeProbeOption(p)) == SafeProbeOption(p)
  {
    if p.Some? {
      SafeProbeSummaryIdempotent(p.value);
    }
  }

  lemma SafeQuotaOptionIdempotent(q: Option<QuotaObservation>, authIndex: string, identity: string)
    ensures var safe := SafeQuotaOption(q, authIndex, identity); SafeQuotaOption(safe, authIndex, identity) == safe
  {
    if q.Some? {
      SafeQuotaObservationIdempotent(q.value);
    }
  }

  lemma SafeWakeOptionIdempotent(wake: Option<WakeupRecord>, mode: WakeMode, identity: string)
    ensures var safe := SafeWakeOption(wake, mode, identity); SafeWakeOption(safe, mode, identity) == safe
  {
    if wake.Some? {
      SafeWakeupRecordIdempotent(wake.value, mode);
    }
  }

  lemma SafeUsageOptionIdempotent(u: Option<UsageObservation>, authIndex: string, identity: string)
    requires identity != ""
    ensures var safe := SafeUsageOption(u, authIndex, identity); SafeUsageOption(safe, authIndex, identity) == safe
  {
    if u.Some? {
      SafeUsageSettles(u.value);
    }
  }

  /** As a whole the observation sanitizer is idempotent: the usage record it would not
      settle on is dropped, since a blanked identity never matches the envelope. */
  lemma SafeCredentialObservationIdempotent(o: CredentialObservation)
    ensures var safe := SafeCredentialObservation(o);
            safe.Some? ==> SafeCredentialObservation(safe.value) == safe
  {
    assert Blank("");
    SafeProbeOptionIdempotent(o.lastHealthCheck);
    SafeQuotaOptionIdempotent(o.quota, o.authIndex, o.identityHash);
    SafeWakeOptionIdempotent(o.initialWakeup, Initial, o.identityHash);
    SafeWakeOptionIdempotent(o.resetWakeup, Reset, o.identityHash);
    if o.identityHash != "" {
      SafeUsageOptionIdempotent(o.usage, o.authIndex, o.identityHash);
    }
  }

  /** A nested wake record is kept as it is exactly when it is clean and bound to its envelope. */
  lemma WakeKept(wake: WakeupRecord, mode: WakeMode, identity: string)
    ensures SafeWakeOption(Some(wake), mode, identity) == Some(wake)
            <==> WakeClean(wake, mode) && wake.identityHash == identity
  {
    WakeCleanFixed(wake, mode);
  }
}
