/** The wake machine of one auth index: at most three consuming requests per mode, counted
    through a record that is saved before each request. Five components write the same
    observation, all of them under the lock of this index; a crash may come anywhere. */
module WakeProtocol {
  import opened Basics
  import opened Backoff
  import opened Domain
  import opened WindowKey
  import S = StateStore

  const PENDING_LEASE: Time := 120_000_000_000

  datatype Cfg = Cfg(index: string, enc: Encoding, initialEnabled: bool, resetEnabled: bool,
                     initialBackoff: Duration, maxBackoff: Duration)

  datatype WakeResult = WakeResult(failed: bool, completed: bool, code: string)

  /** Where the goroutine holding the lock stands; Idle when the lock is free. */
  datatype PC =
    | Idle
    | InitialTurn(disabled: bool, obs: CredentialObservation)
    | Requesting(mode: WakeMode, obs: CredentialObservation, record: WakeupRecord)
    | Recording(mode: WakeMode, obs: CredentialObservation, record: WakeupRecord)
    | BetweenTurns(obs: CredentialObservation)
    | ResetTurn(obs: CredentialObservation)

  /** `stored` is the entry of this index among the persisted observations. */
  datatype Ledger = Ledger(stored: Option<CredentialObservation>, pc: PC)

  const Start := Ledger(None, Idle)

  datatype Event =
    | Load(id: string, disabled: bool, runtimeOk: bool, ownership: Option<S.OwnershipRecord>)
    | TryInitial(now: Time, saved: bool)
    | Send(result: WakeResult, now: Time)
    | Record(saved: bool)
    | Refresh(now: Time, reread: Option<string>)
    | TryReset(now: Time, saved: bool)
    | HealthCheck(id: string, probe: ProbeSummary, resetAt: Time, now: Time, saved: bool)
    | Usage(id: string, failed: bool, generate: bool, at: Time, ownershipQuota: Option<QuotaObservation>, saved: bool)
    | QuotaDisable(id: string, resetAt: Time, windows: seq<QuotaWindow>, now: Time, saved: bool)
    | QuotaQuery(id: string, answer: Option<ProbeSummary>, resetAt: Time, now: Time, saved: bool)
    | Crash

  // ---------------------------------------------------------------- eligibility

  predicate Retryable(code: string) {
    code == "timeout" || code == "wake_request_failed" || code == "connection_failed" || code == "canceled"
  }

  predicate MayRetry(wake: WakeupRecord, now: Time) {
    if wake.status == Success || wake.status == Unknown then false
    else if wake.status == Pending
            && (wake.attemptCount >= MAX_WAKE_ATTEMPTS
                || (wake.attemptedAt != ZERO_TIME && now < wake.attemptedAt + PENDING_LEASE)) then false
    else if wake.status == Failed && !Retryable(wake.safeError) then false
    else wake.attemptCount < MAX_WAKE_ATTEMPTS && (wake.nextAttemptAt == ZERO_TIME || now >= wake.nextAttemptAt)
  }

  predicate KnownUsage(status: UsageStatus) {
    !status.OtherUsage?
  }

  predicate EligibleInitial(obs: CredentialObservation, identity: string, now: Time) {
    if obs.identityHash != identity then false
    else if obs.usage.Some? && obs.usage.value.identityHash == identity && KnownUsage(obs.usage.value.status) then false
    else if obs.initialWakeup.None? then true
    else if obs.initialWakeup.value.identityHash != identity then true
    else MayRetry(obs.initialWakeup.value, now)
  }

  predicate EligibleReset(enc: Encoding, obs: CredentialObservation, identity: string, now: Time) {
    if obs.identityHash != identity || obs.quota.None? || obs.quota.value.identityHash != identity
       || obs.quota.value.status != QuotaExhausted || obs.quota.value.resetAt == ZERO_TIME
       || now < obs.quota.value.resetAt then false
    else if obs.usage.Some? && obs.usage.value.identityHash == identity && obs.usage.value.lastUsedAt != ZERO_TIME
            && obs.usage.value.lastUsedAt >= obs.quota.value.resetAt && KnownUsage(obs.usage.value.status) then false
    else if obs.resetWakeup.None? then true
    else
      var wake := obs.resetWakeup.value;
      if wake.identityHash != identity || wake.windowKey != KeyOf(enc, obs) then
        !(wake.status == Success && wake.identityHash == identity
          && wake.windowKey == LegacyResetWindowKey(enc, identity, obs.quota.value.resetAt))
      else MayRetry(wake, now)
  }

  function KeyOf(enc: Encoding, obs: CredentialObservation): string {
    if obs.quota.None? then ""
    else ResetWindowKey(enc, obs.identityHash, obs.quota.value.resetAt, obs.quota.value.windows)
  }

  // ---------------------------------------------------------------- quota from other records

  /** The latest reset of a blocking window; ZERO_TIME when there is none. */
  function LatestBlockingReset(windows: seq<QuotaWindow>): Time {
    if windows == [] then ZERO_TIME
    else
      var latest := LatestBlockingReset(windows[..|windows| - 1]);
      var w := windows[|windows| - 1];
      if w.blocking && w.resetAt != ZERO_TIME && (latest == ZERO_TIME || w.resetAt > latest) then w.resetAt else latest
  }

  lemma {:induction false} LatestBlockingResetIsMaximum(windows: seq<QuotaWindow>)
    ensures var latest := LatestBlockingReset(windows);
            && (latest == ZERO_TIME <==> forall w :: w in windows ==> !w.blocking || w.resetAt == ZERO_TIME)
            && (latest != ZERO_TIME ==> exists w :: w in windows && w.blocking && w.resetAt == latest)
            && (forall w :: w in windows && w.blocking && w.resetAt != ZERO_TIME ==> w.resetAt <= latest)
  {
    if windows != [] {
      var n := |windows| - 1;
      LatestBlockingResetIsMaximum(windows[..n]);
      assert windows == windows[..n] + [windows[n]];
    }
  }

  /** The reset window an ownership record still remembers for this identity. */
  function PersistedResetQuota(record: S.OwnershipRecord, identity: string): Option<QuotaObservation> {
    if record.contentHash != identity || record.phase == S.ManualReview then None
    else
      var resetAt := if record.resetAt == ZERO_TIME && record.lastProbe.Some?
                     then LatestBlockingReset(record.lastProbe.value.windows) else record.resetAt;
      if resetAt == ZERO_TIME then None
      else
        var checkedAt := if record.lastProbe.Some? && record.lastProbe.value.at != ZERO_TIME
                         then record.lastProbe.value.at else record.disabledAt;
        var windows := if record.lastProbe.Some? then SafeWindows(record.lastProbe.value.windows) else [];
        Some(QuotaObservation(record.authIndex, identity, QuotaExhausted, resetAt, checkedAt, "", windows))
  }

  /** `resetAt` is the latest future reset among the windows. */
  function QuotaFromProbe(index: string, identity: string, probe: ProbeSummary, resetAt: Time, now: Time): QuotaObservation {
    var status := match probe.status
      case ProbeSuccess => QuotaAvailable
      case ProbeExhausted => QuotaExhausted
      case _ => QuotaUnknown;
    var code := SafeError(probe.safeError, "quota_unknown");
    var safeError := if (probe.status == ProbeError || probe.status == ProbeAmbiguous) && code == "" then "quota_unknown" else code;
    QuotaObservation(index, identity, status, resetAt, if probe.at == ZERO_TIME then now else probe.at, safeError,
                     SafeWindows(probe.windows))
  }

  // ---------------------------------------------------------------- the five writers

  function Current(s: Ledger): CredentialObservation {
    if s.stored.Some? then s.stored.value else EmptyObservation
  }

  /** The entry a writer starts from: emptied when it belongs to another identity. */
  function CurrentFor(cfg: Cfg, s: Ledger, identity: string): CredentialObservation {
    var o := if Current(s).identityHash != "" && Current(s).identityHash != identity then EmptyObservation else Current(s);
    o.(authIndex := cfg.index, identityHash := identity)
  }

  /** A store update of this entry: what the save validator keeps of it, or no change. */
  function Saved(s: Ledger, o: CredentialObservation, saved: bool): Ledger {
    if saved then s.(stored := SafeCredentialObservation(o)) else s
  }

  function WithWake(o: CredentialObservation, mode: WakeMode, wake: WakeupRecord): CredentialObservation {
    if mode == Initial then o.(initialWakeup := Some(wake)) else o.(resetWakeup := Some(wake))
  }

  function WakeOf(o: CredentialObservation, mode: WakeMode): Option<WakeupRecord> {
    if mode == Initial then o.initialWakeup else o.resetWakeup
  }

  function WakeEntry(cfg: Cfg, s: Ledger, obs: CredentialObservation, record: WakeupRecord, mode: WakeMode): CredentialObservation {
    var o := CurrentFor(cfg, s, obs.identityHash);
    var o := o.(quota := if o.quota.None? then obs.quota else o.quota, usage := if o.usage.None? then obs.usage else o.usage);
    WithWake(o, mode, record)
  }

  function HealthEntry(cfg: Cfg, s: Ledger, identity: string, probe: ProbeSummary, resetAt: Time, now: Time): CredentialObservation {
    var o := if Current(s).authIndex != cfg.index || Current(s).identityHash != identity
             then EmptyObservation.(authIndex := cfg.index, identityHash := identity) else Current(s);
    var safe := SafeProbeSummary(probe);
    o.(lastHealthCheck := Some(safe), quota := Some(QuotaFromProbe(cfg.index, identity, safe, resetAt, now)))
  }

  function UsageEntry(cfg: Cfg, s: Ledger, identity: string, failed: bool, generate: bool, at: Time,
                      ownershipQuota: Option<QuotaObservation>): CredentialObservation {
    var o := CurrentFor(cfg, s, identity);
    var o := if o.quota.None? && ownershipQuota.Some? && ownershipQuota.value.identityHash == identity
             then o.(quota := ownershipQuota) else o;
    var normal := !failed && generate;
    var postReset := normal && o.quota.Some? && o.quota.value.identityHash == identity
                     && o.quota.value.resetAt != ZERO_TIME && at >= o.quota.value.resetAt;
    o.(usage := Some(UsageObservation(cfg.index, identity, if normal then UsageNormal else UsageRequestFailed, postReset, at)))
  }

  function QuotaEntry(cfg: Cfg, s: Ledger, quota: QuotaObservation): CredentialObservation {
    CurrentFor(cfg, s, quota.identityHash).(quota := Some(quota))
  }

  function ExhaustedQuota(cfg: Cfg, identity: string, resetAt: Time, windows: seq<QuotaWindow>, now: Time): QuotaObservation {
    QuotaObservation(cfg.index, identity, QuotaExhausted, resetAt, now, "quota_exhausted", windows)
  }

  function QueriedQuota(cfg: Cfg, identity: string, probe: Option<ProbeSummary>, resetAt: Time, now: Time): QuotaObservation {
    if probe.None? then QuotaObservation(cfg.index, identity, QuotaUnknown, ZERO_TIME, now, "quota_query_failed", [])
    else QuotaFromProbe(cfg.index, identity, probe.value, resetAt, now)
  }

  predicate IsWriter(e: Event) {
    e.HealthCheck? || e.Usage? || e.QuotaDisable? || e.QuotaQuery?
  }

  /** What the four writers other than the wake manager store. */
  function WriterEntry(cfg: Cfg, s: Ledger, e: Event): CredentialObservation
    requires IsWriter(e)
  {
    match e
    case HealthCheck(id, probe, resetAt, now, _) => HealthEntry(cfg, s, id, probe, resetAt, now)
    case Usage(id, failed, generate, at, ownershipQuota, _) => UsageEntry(cfg, s, id, failed, generate, at, ownershipQuota)
    case QuotaDisable(id, resetAt, windows, now, _) => QuotaEntry(cfg, s, ExhaustedQuota(cfg, id, resetAt, windows, now))
    case QuotaQuery(id, answer, resetAt, now, _) => QuotaEntry(cfg, s, QueriedQuota(cfg, id, answer, resetAt, now))
  }

  // ---------------------------------------------------------------- one wake

  function PendingRecord(obs: CredentialObservation, mode: WakeMode, windowKey: string, now: Time): WakeupRecord {
    var current := WakeOf(obs, mode);
    if current.None? then
      WakeupRecord(mode, Pending, obs.identityHash, windowKey, now, ZERO_TIME, ZERO_TIME, 1, "")
    else
      current.value.(mode := mode, status := Pending, identityHash := obs.identityHash, windowKey := windowKey,
                     attemptedAt := now, attemptCount := current.value.attemptCount + 1, safeError := "",
                     nextAttemptAt := ZERO_TIME)
  }

  function ResultCode(result: WakeResult): string {
    if result.failed then "wake_request_failed" else result.code
  }

  function Outcome(cfg: Cfg, record: WakeupRecord, result: WakeResult, now: Time): WakeupRecord {
    var code := ResultCode(result);
    if result.completed && code == "wake_success" then
      record.(status := Success, completedAt := now, safeError := "wake_success", nextAttemptAt := ZERO_TIME)
    else
      var code := if code == "" then "wake_manual_review" else code;
      record.(status := Failed, safeError := code,
              nextAttemptAt := if Retryable(code) && record.attemptCount < MAX_WAKE_ATTEMPTS
                               then now + WakeDelay(cfg.initialBackoff as int, cfg.maxBackoff as int, record.attemptCount)
                               else ZERO_TIME)
  }

  /** Saves the pending record; only then comes the request. */
  function Announce(cfg: Cfg, s: Ledger, obs: CredentialObservation, mode: WakeMode, windowKey: string, now: Time, saved: bool): Ledger {
    var record := PendingRecord(obs, mode, windowKey, now);
    if saved then Saved(s, WakeEntry(cfg, s, obs, record, mode), true).(pc := Requesting(mode, obs, record)) else s.(pc := Idle)
  }

  /** Saves the outcome; the initial wake of a scan is followed by the reset wake. */
  function RecordTurn(cfg: Cfg, s: Ledger, saved: bool): Ledger
    requires s.pc.Recording?
  {
    var next := if saved && s.pc.mode == Initial then BetweenTurns(s.pc.obs) else Idle;
    Saved(s, WakeEntry(cfg, s, s.pc.obs, s.pc.record, s.pc.mode), saved).(pc := next)
  }

  function Loaded(cfg: Cfg, s: Ledger, id: string, ownership: Option<S.OwnershipRecord>): CredentialObservation {
    var o := CurrentFor(cfg, s, id);
    if o.quota.None? && ownership.Some? then o.(quota := PersistedResetQuota(ownership.value, id)) else o
  }

  function Step(cfg: Cfg, s: Ledger, e: Event): Ledger {
    match e
    case Load(id, disabled, runtimeOk, ownership) =>
      if s.pc.Idle? && runtimeOk then s.(pc := InitialTurn(disabled, Loaded(cfg, s, id, ownership))) else s
    case TryInitial(now, saved) =>
      if !s.pc.InitialTurn? then s
      else if !s.pc.disabled && cfg.initialEnabled && EligibleInitial(s.pc.obs, s.pc.obs.identityHash, now) then
        Announce(cfg, s, s.pc.obs, Initial, "", now, saved)
      else s.(pc := ResetTurn(s.pc.obs))
    case Send(result, now) =>
      if s.pc.Requesting? then s.(pc := Recording(s.pc.mode, s.pc.obs, Outcome(cfg, s.pc.record, result, now))) else s
    case Record(saved) =>
      if s.pc.Recording? then RecordTurn(cfg, s, saved) else s
    case Refresh(now, reread) =>
      if !s.pc.BetweenTurns? then s
      else if cfg.resetEnabled && EligibleReset(cfg.enc, s.pc.obs, s.pc.obs.identityHash, now)
              && reread != Some(s.pc.obs.identityHash) then s.(pc := Idle)
      else s.(pc := ResetTurn(s.pc.obs))
    case TryReset(now, saved) =>
      if !s.pc.ResetTurn? then s
      else if cfg.resetEnabled && EligibleReset(cfg.enc, s.pc.obs, s.pc.obs.identityHash, now) then
        Announce(cfg, s, s.pc.obs, Reset, KeyOf(cfg.enc, s.pc.obs), now, saved)
      else s.(pc := Idle)
    case Crash => s.(pc := Idle)
    case _ => if s.pc.Idle? then Saved(s, WriterEntry(cfg, s, e), e.saved) else s
  }

  function Run(cfg: Cfg, s: Ledger, es: seq<Event>): Ledger
    decreases es
  {
    if es == [] then s else Run(cfg, Step(cfg, s, es[0]), es[1..])
  }

  // ---------------------------------------------------------------- naming an event by its outcome

  function TurnEvent(mode: WakeMode, now: Time, saved: bool): Event {
    if mode == Initial then TryInitial(now, saved) else TryReset(now, saved)
  }

  function WithOutcome(e: Event, saved: bool): Event
    requires IsWriter(e)
  {
    match e
    case HealthCheck(id, probe, resetAt, now, _) => HealthCheck(id, probe, resetAt, now, saved)
    case Usage(id, failed, generate, at, ownershipQuota, _) => Usage(id, failed, generate, at, ownershipQuota, saved)
    case QuotaDisable(id, resetAt, windows, now, _) => QuotaDisable(id, resetAt, windows, now, saved)
    case QuotaQuery(id, answer, resetAt, now, _) => QuotaQuery(id, answer, resetAt, now, saved)
  }

  // ---------------------------------------------------------------- budgets

  /** One budget: the initial wakes of an identity, or the reset wakes of one window of it. */
  datatype Budget = Budget(mode: WakeMode, id: string, key: string) {
    predicate Covers(record: WakeupRecord) {
      mode == Initial || record.windowKey == key
    }
  }

  predicate SendsNow(s: Ledger, e: Event, b: Budget) {
    e.Send? && s.pc.Requesting? && s.pc.mode == b.mode && b.Covers(s.pc.record)
  }

  /** Requests of this budget sent along a run. */
  function Sends(cfg: Cfg, s: Ledger, es: seq<Event>, b: Budget): nat
    decreases es
  {
    if es == [] then 0
    else (if SendsNow(s, es[0], b) then 1 else 0) + Sends(cfg, Step(cfg, s, es[0]), es[1..], b)
  }

  /** The content hash an event brings: "sha256:" and 64 digits in the source. */
  predicate HashText(id: string) {
    !Blank(id) && |id| <= 128
  }

  predicate Carries(e: Event, id: string) {
    match e
    case Load(i, _, _, _) => i == id
    case HealthCheck(i, _, _, _, _) => i == id
    case Usage(i, _, _, _, _, _) => i == id
    case QuotaDisable(i, _, _, _, _) => i == id
    case QuotaQuery(i, _, _, _, _) => i == id
    case _ => true
  }

  /** The event leaves the identity alone and announces no wake of another window. */
  predicate Keeps(cfg: Cfg, s: Ledger, e: Event, b: Budget) {
    && Carries(e, b.id)
    && var next := Step(cfg, s, e).pc;
       next.Requesting? && next.mode == b.mode ==> b.Covers(next.record)
  }

  predicate KeepsRun(cfg: Cfg, s: Ledger, es: seq<Event>, b: Budget)
    decreases es
  {
    es == [] || (Keeps(cfg, s, es[0], b) && KeepsRun(cfg, Step(cfg, s, es[0]), es[1..], b))
  }

  predicate GoodIndex(cfg: Cfg) {
    !Blank(cfg.index) && |cfg.index| <= 256
  }
}
