/** What a save or a load keeps. A sanitizer that forgot everything would be idempotent, too;
    here every record that is well-formed and bound to its credential is shown to pass
    unchanged, and to be the only kind that does. */
module StateKeeps {
  import opened Basics
  import opened Domain
  import opened StateStore

  // ---------------------------------------------------------------- well-formed records

  /** No code, or a listed one without outer space other than "unknown". */
  predicate CodeClean(code: string) {
    code == "" || (Trimmed(code) && code in KnownCodes && code != "unknown")
  }

  predicate WindowClean(w: QuotaWindow) {
    && w.family in {"primary", "secondary", "code_review", "additional"}
    && (w.usedPercent.Some? ==> 0.0 <= w.usedPercent.value <= 1000.0)
    && w.blocking == w.IsExhausted()
  }

  predicate WindowsClean(windows: seq<QuotaWindow>) {
    |windows| <= MAX_QUOTA_WINDOWS && forall i :: 0 <= i < |windows| ==> WindowClean(windows[i])
  }

  predicate ProbeClean(p: ProbeSummary) {
    !p.status.OtherProbe? && CodeClean(p.safeError) && WindowsClean(p.windows)
  }

  /** What binds a nested record to a credential: its index and content hash, short enough. */
  predicate BoundTo(index: string, identity: string, authIndex: string, hash: string) {
    index == authIndex && identity == hash && |index| <= 256 && |identity| <= 128
  }

  predicate QuotaClean(q: QuotaObservation) {
    !q.status.OtherQuota? && CodeClean(q.safeError) && WindowsClean(q.windows)
  }

  predicate UsageClean(u: UsageObservation) {
    u.status == UsageNormal || u.status == UsageRequestFailed || u.status == UsageUnknown
  }

  /** A wake record of the mode with a consistent outcome and a count within the budget. */
  predicate WakeWellFormed(wake: WakeupRecord, mode: WakeMode) {
    && wake.mode == mode && CodeClean(wake.safeError) && |wake.identityHash| <= 128 && |wake.windowKey| <= 256
    && 0 <= wake.attemptCount <= MAX_WAKE_ATTEMPTS
    && match wake.status
       case Pending => true
       case Success => wake.safeError == "wake_success"
       case Failed => wake.safeError != ""
       case Unknown => wake.attemptCount == MAX_WAKE_ATTEMPTS && wake.nextAttemptAt == ZERO_TIME
       case OtherWake(_) => false
  }

  /** An optional part that is absent, or well-formed and bound to its credential. */
  predicate ProbeFits(p: Option<ProbeSummary>) {
    p.None? || ProbeClean(p.value)
  }

  predicate QuotaFits(q: Option<QuotaObservation>, index: string, identity: string) {
    q.None? || (QuotaClean(q.value) && BoundTo(q.value.authIndex, q.value.identityHash, index, identity))
  }

  predicate WakeFits(wake: Option<WakeupRecord>, mode: WakeMode, identity: string) {
    wake.None? || (WakeWellFormed(wake.value, mode) && wake.value.identityHash == identity)
  }

  predicate UsageFits(u: Option<UsageObservation>, index: string, identity: string) {
    u.None? || (UsageClean(u.value) && BoundTo(u.value.authIndex, u.value.identityHash, index, identity))
  }

  // ---------------------------------------------------------------- each sanitizer keeps exactly those

  lemma CodeKept(code: string, fallback: string)
    requires fallback in KnownCodes && Trimmed(fallback) && fallback != "unknown"
    ensures SafeError(code, fallback) == code <==> CodeClean(code)
  {
    TrimSpaceClean(code);
  }

  lemma WindowKept(w: QuotaWindow)
    ensures SafeWindow(w) == w <==> WindowClean(w)
  {
    SafeFamilyIdempotent(w.family);
  }

  lemma WindowsKept(windows: seq<QuotaWindow>)
    ensures SafeWindows(windows) == windows <==> WindowsClean(windows)
  {
    forall i | 0 <= i < |windows|
      ensures SafeWindow(windows[i]) == windows[i] <==> WindowClean(windows[i])
    {
      WindowKept(windows[i]);
    }
    if SafeWindows(windows) == windows {
      forall i | 0 <= i < |windows|
        ensures WindowClean(windows[i])
      {
        assert SafeWindows(windows)[i] == SafeWindow(windows[i]);
      }
    }
  }

  lemma ProbeKept(p: Option<ProbeSummary>)
    ensures SafeProbeOption(p) == p <==> ProbeFits(p)
  {
    if p.Some? {
      CodeKept(p.value.safeError, "probe_error");
      WindowsKept(p.value.windows);
    }
  }

  lemma QuotaKept(q: Option<QuotaObservation>, index: string, identity: string)
    requires identity != ""
    ensures SafeQuotaOption(q, index, identity) == q <==> QuotaFits(q, index, identity)
  {
    if q.Some? {
      CodeKept(q.value.safeError, "quota_unknown");
      WindowsKept(q.value.windows);
    }
  }

  lemma WakeOptionKept(wake: Option<WakeupRecord>, mode: WakeMode, identity: string)
    ensures SafeWakeOption(wake, mode, identity) == wake <==> WakeFits(wake, mode, identity)
  {
    if wake.Some? {
      CodeKept(wake.value.safeError, REVIEW);
      WakeKept(wake.value, mode, identity);
    }
  }

  lemma UsageKept(u: Option<UsageObservation>, index: string, identity: string)
    requires identity != ""
    ensures SafeUsageOption(u, index, identity) == u <==> UsageFits(u, index, identity)
  {
  }

  // ---------------------------------------------------------------- and of the rest it keeps what it can

  /** A code without outer space and on the list passes; a blank one is none; any other becomes
      the fallback. */
  predicate CodeBecomes(code: string, fallback: string, r: string) {
    var text := TrimSpace(code);
    r == if text == "" then "" else if text in KnownCodes && text != "unknown" then text else fallback
  }

  predicate WindowsBecome(windows: seq<QuotaWindow>, r: seq<QuotaWindow>) {
    && |r| == (if |windows| > 32 then 32 else |windows|)
    && forall i :: 0 <= i < |r| ==>
         && r[i].limitReached == windows[i].limitReached && r[i].allowed == windows[i].allowed
         && r[i].resetAt == windows[i].resetAt && r[i].windowSeconds == windows[i].windowSeconds
         && (r[i].usedPercent == windows[i].usedPercent || (r[i].usedPercent.None? && !(0.0 <= windows[i].usedPercent.value <= 1000.0)))
         && WindowClean(r[i])
  }

  /** An unknown status is ambiguous; instants and numbers stay. */
  lemma ProbeSanitized(p: ProbeSummary)
    ensures var r := SafeProbeSummary(p);
            && r.at == p.at && r.httpStatus == p.httpStatus && r.latencyMs == p.latencyMs
            && r.status == (if p.status.OtherProbe? then ProbeAmbiguous else p.status)
            && CodeBecomes(p.safeError, "probe_error", r.safeError) && WindowsBecome(p.windows, r.windows)
  {
    WindowsSanitized(p.windows);
  }

  lemma WindowsSanitized(windows: seq<QuotaWindow>)
    ensures WindowsBecome(windows, SafeWindows(windows))
  {
    var r := SafeWindows(windows);
    forall i | 0 <= i < |r|
      ensures WindowClean(r[i])
    {
      SafeFamilyIdempotent(windows[i].family);
    }
  }

  /** A quota bound to its credential keeps its reset and its instant whatever else is cleaned;
      one of another credential is dropped. */
  lemma QuotaSanitized(q: QuotaObservation, index: string, identity: string)
    requires identity != ""
    ensures var r := SafeQuotaOption(Some(q), index, identity);
            && (r.Some? <==> BoundTo(q.authIndex, q.identityHash, index, identity))
            && (r.Some? ==>
                  && r.value.authIndex == index && r.value.identityHash == identity
                  && r.value.resetAt == q.resetAt && r.value.checkedAt == q.checkedAt
                  && r.value.status == (if q.status.OtherQuota? then QuotaUnknown else q.status)
                  && CodeBecomes(q.safeError, "quota_unknown", r.value.safeError) && WindowsBecome(q.windows, r.value.windows))
  {
    WindowsSanitized(q.windows);
  }

  /** A use bound to its credential is never dropped, only its status made one of the known. */
  lemma UsageSanitized(u: UsageObservation, index: string, identity: string)
    requires identity != ""
    ensures var r := SafeUsageOption(Some(u), index, identity);
            && (r.Some? <==> BoundTo(u.authIndex, u.identityHash, index, identity))
            && (r.Some? ==> r.value == u.(status := r.value.status) && UsageClean(r.value)
                            && (UsageClean(u) ==> r.value == u))
  {
  }

  /** A wake record bound to its credential is never dropped, and keeps its instants; whatever is
      not consistent becomes an attempt that nobody may repeat. */
  lemma WakeSanitized(wake: WakeupRecord, mode: WakeMode, identity: string)
    requires identity != ""
    ensures var r := SafeWakeOption(Some(wake), mode, identity);
            && (r.Some? <==> wake.identityHash == identity && |identity| <= 128 && |wake.windowKey| <= 256)
            && (r.Some? ==>
                  && r.value.windowKey == wake.windowKey && r.value.attemptedAt == wake.attemptedAt && r.value.completedAt == wake.completedAt
                  && (r.value.status == wake.status || (r.value.status == Unknown && r.value.attemptCount == MAX_WAKE_ATTEMPTS))
                  && (r.value.status != Unknown ==> r.value.nextAttemptAt == wake.nextAttemptAt
                                                    && CodeBecomes(wake.safeError, REVIEW, r.value.safeError)))
  {
  }

  // ---------------------------------------------------------------- whole documents

  predicate Fits(index: string, identity: string) {
    !Blank(index) && |index| <= 256 && !Blank(identity) && |identity| <= 128
  }

  /** Each nested record of `o` is in `d` unchanged if and only if it is well-formed and bound
      to the credential. */
  ghost predicate KeepsObservation(o: CredentialObservation, d: CredentialObservation) {
    && d.authIndex == o.authIndex && d.identityHash == o.identityHash
    && (d.lastHealthCheck == o.lastHealthCheck <==> ProbeFits(o.lastHealthCheck))
    && (d.quota == o.quota <==> QuotaFits(o.quota, o.authIndex, o.identityHash))
    && (d.initialWakeup == o.initialWakeup <==> WakeFits(o.initialWakeup, Initial, o.identityHash))
    && (d.resetWakeup == o.resetWakeup <==> WakeFits(o.resetWakeup, Reset, o.identityHash))
    && (d.usage == o.usage <==> UsageFits(o.usage, o.authIndex, o.identityHash))
  }

  /** Of the observations of a document exactly those are kept that stand under their own key
      with an index and identity that fit, and of each its well-formed, bound parts. */
  lemma ObservationsKept(s: State, key: string)
    requires key in s.observations
    ensures var o := s.observations[key];
            && (key in Cleaned(s).observations <==> key == "codex:" + o.authIndex && Fits(o.authIndex, o.identityHash))
            && (key in Cleaned(s).observations ==> KeepsObservation(o, Cleaned(s).observations[key]))
  {
    var o := s.observations[key];
    if SafeEntry(key, o).Some? {
      assert Blank("");
      ProbeKept(o.lastHealthCheck);
      QuotaKept(o.quota, o.authIndex, o.identityHash);
      WakeOptionKept(o.initialWakeup, Initial, o.identityHash);
      WakeOptionKept(o.resetWakeup, Reset, o.identityHash);
      UsageKept(o.usage, o.authIndex, o.identityHash);
    }
  }

  ghost predicate KeepsRecord(r: OwnershipRecord, d: OwnershipRecord) {
    && d == r.(lastProbe := d.lastProbe, quota := d.quota, initialWakeup := d.initialWakeup, resetWakeup := d.resetWakeup)
    && (d.lastProbe == r.lastProbe <==> ProbeFits(r.lastProbe))
    && (d.quota == r.quota <==> QuotaFits(r.quota, r.authIndex, r.contentHash))
    && (d.initialWakeup == r.initialWakeup <==> WakeFits(r.initialWakeup, Initial, r.contentHash))
    && (d.resetWakeup == r.resetWakeup <==> WakeFits(r.resetWakeup, Reset, r.contentHash))
  }

  /** An accepted document keeps every ownership record, and of each everything but optional
      parts that are not well-formed or belong to another credential. */
  lemma RecordsKept(s: State, key: string)
    requires key in s.credentials && AllAccepted(s.credentials, false)
    ensures key in Cleaned(s).credentials && KeepsRecord(s.credentials[key], Cleaned(s).credentials[key])
  {
    var r := s.credentials[key];
    assert Accepted(key, r, false);
    assert Blank("");
    ProbeKept(r.lastProbe);
    QuotaKept(r.quota, r.authIndex, r.contentHash);
    WakeOptionKept(r.initialWakeup, Initial, r.contentHash);
    WakeOptionKept(r.resetWakeup, Reset, r.contentHash);
  }

  /** So a document of well-formed, bound records under their own keys is committed as it is. */
  ghost predicate WellFormed(s: State) {
    && (forall key :: key in s.observations ==> ObservationFits(key, s.observations[key]))
    && (forall key :: key in s.credentials ==> RecordFits(s.credentials[key]))
  }

  predicate ObservationFits(key: string, o: CredentialObservation) {
    && key == "codex:" + o.authIndex && Fits(o.authIndex, o.identityHash)
    && ProbeFits(o.lastHealthCheck) && QuotaFits(o.quota, o.authIndex, o.identityHash)
    && WakeFits(o.initialWakeup, Initial, o.identityHash) && WakeFits(o.resetWakeup, Reset, o.identityHash)
    && UsageFits(o.usage, o.authIndex, o.identityHash)
  }

  predicate RecordFits(r: OwnershipRecord) {
    && ProbeFits(r.lastProbe) && QuotaFits(r.quota, r.authIndex, r.contentHash)
    && WakeFits(r.initialWakeup, Initial, r.contentHash) && WakeFits(r.resetWakeup, Reset, r.contentHash)
  }

  lemma WellFormedIsKept(s: State)
    requires WellFormed(s) && AllAccepted(s.credentials, false)
    ensures Cleaned(s) == s.(schemaVersion := SCHEMA_VERSION)
  {
    ObservationsStay(s);
    RecordsStay(s);
  }

  lemma ObservationsStay(s: State)
    requires forall key :: key in s.observations ==> ObservationFits(key, s.observations[key])
    ensures Cleaned(s).observations == s.observations
  {
    forall key | key in s.observations
      ensures key in Cleaned(s).observations && Cleaned(s).observations[key] == s.observations[key]
    {
      assert ObservationFits(key, s.observations[key]);
      ObservationStays(s, key);
    }
  }

  lemma ObservationStays(s: State, key: string)
    requires key in s.observations && ObservationFits(key, s.observations[key])
    ensures key in Cleaned(s).observations && Cleaned(s).observations[key] == s.observations[key]
  {
    ObservationsKept(s, key);
  }

  lemma RecordsStay(s: State)
    requires AllAccepted(s.credentials, false) && forall key :: key in s.credentials ==> RecordFits(s.credentials[key])
    ensures Cleaned(s).credentials == s.credentials
  {
    forall key | key in s.credentials
      ensures key in Cleaned(s).credentials && Cleaned(s).credentials[key] == s.credentials[key]
    {
      assert RecordFits(s.credentials[key]);
      RecordsKept(s, key);
    }
  }
}
