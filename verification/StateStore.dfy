/** The durable state document: what a save accepts, what a load accepts, and a store that
    must find after a restart exactly what it committed. */
module StateStore {
  import opened Basics
  import opened Domain

  const SCHEMA_VERSION: int := 1
  const MAX_STATE_RECORDS: nat := 4096
  const MAX_BACKOFF_LEVEL: int := 32

  datatype Phase = OwnedDisabled | RestorePending | ProbePending | ManualReview | OtherPhase(text: string)

  datatype OwnershipRecord = OwnershipRecord(
    authIndex: string, authId: string, fileName: string, disabledAt: Time, wasEnabled: bool,
    contentHash: string, saveRevision: string, phase: Phase, attemptId: string,
    postEnableHash: string, postEnableRevision: string, resetAt: Time, nextCheckAt: Time,
    backoffLevel: int, lastReason: string, lastProbe: Option<ProbeSummary>, quota: Option<QuotaObservation>,
    initialWakeup: Option<WakeupRecord>, resetWakeup: Option<WakeupRecord>)

  datatype State = State(
    schemaVersion: int, updatedAt: Time,
    credentials: map<string, OwnershipRecord>, observations: map<string, CredentialObservation>)

  function EmptyState(now: Time): State {
    State(SCHEMA_VERSION, now, map[], map[])
  }

  // ---------------------------------------------------------------- one record

  /** Optional sub-records are sanitized, then dropped unless bound to the record's identity. */
  function CleanRecord(r: OwnershipRecord): OwnershipRecord {
    r.(lastProbe := SafeProbeOption(r.lastProbe),
       quota := SafeQuotaOption(r.quota, r.authIndex, r.contentHash),
       initialWakeup := SafeWakeOption(r.initialWakeup, Initial, r.contentHash),
       resetWakeup := SafeWakeOption(r.resetWakeup, Reset, r.contentHash))
  }

  /** What both validators demand of a record. */
  predicate Acceptable(key: string, r: OwnershipRecord) {
    && key == "codex:" + r.authIndex
    && !Blank(r.authIndex) && !Blank(r.fileName) && !Blank(r.attemptId) && !Blank(r.contentHash)
    && !r.phase.OtherPhase?
    && 0 <= r.backoffLevel <= MAX_BACKOFF_LEVEL
    && (r.lastReason == "" || SafeCode(r.lastReason) != "unknown")
  }

  /** A save asks for a post-enable guard that is not empty; a load, for one that is not blank. */
  predicate SavesGuard(r: OwnershipRecord) {
    r.phase.ProbePending? ==> r.postEnableHash != "" && r.postEnableRevision != ""
  }

  predicate LoadsGuard(r: OwnershipRecord) {
    r.phase.ProbePending? ==> !Blank(r.postEnableHash) && !Blank(r.postEnableRevision)
  }

  function SaveRecord(key: string, record: OwnershipRecord): Result<OwnershipRecord> {
    var r := record.(
      quota := SafeQuotaOption(record.quota, record.authIndex, record.contentHash),
      initialWakeup := SafeWakeOption(record.initialWakeup, Initial, record.contentHash),
      resetWakeup := SafeWakeOption(record.resetWakeup, Reset, record.contentHash));
    if key != "codex:" + r.authIndex || Blank(key) || Blank(r.authIndex) || Blank(r.fileName) || Blank(r.attemptId) then
      Err("ownership record is incomplete")
    else if Blank(r.contentHash) then Err("ownership hash is required")
    else if r.phase.OtherPhase? then Err("unknown ownership phase")
    else if r.phase.ProbePending? && (r.postEnableRevision == "" || r.postEnableHash == "") then
      Err("pending recovery guard is incomplete")
    else if r.backoffLevel < 0 || r.backoffLevel > MAX_BACKOFF_LEVEL then Err("backoff level is out of range")
    else if r.lastReason != "" && SafeCode(r.lastReason) == "unknown" then Err("ownership reason is not safe")
    else Ok(r.(lastProbe := SafeProbeOption(r.lastProbe)))
  }

  function SafeQuota(q: Option<QuotaObservation>): Option<QuotaObservation> {
    if q.None? then None else Some(SafeQuotaObservation(q.value))
  }

  function SafeWake(wake: Option<WakeupRecord>, mode: WakeMode): Option<WakeupRecord> {
    if wake.None? then None else Some(SafeWakeupRecord(wake.value, mode))
  }

  function LoadRecord(key: string, record: OwnershipRecord): Result<OwnershipRecord> {
    var r := record.(
      lastProbe := SafeProbeOption(record.lastProbe),
      quota := SafeQuota(record.quota),
      initialWakeup := SafeWake(record.initialWakeup, Initial),
      resetWakeup := SafeWake(record.resetWakeup, Reset));
    if key != "codex:" + r.authIndex || Blank(key) || Blank(r.authIndex) || Blank(r.fileName) || Blank(r.attemptId) then
      Err("state contains incomplete ownership record")
    else if r.phase.OtherPhase? then Err("unknown ownership phase")
    else if r.phase.ProbePending? && (Blank(r.postEnableHash) || Blank(r.postEnableRevision)) then
      Err("pending recovery lacks post-enable guard")
    else if Blank(r.contentHash) then Err("ownership hash is required")
    else if r.backoffLevel < 0 || r.backoffLevel > MAX_BACKOFF_LEVEL then Err("backoff level is out of range")
    else if r.lastReason != "" && SafeCode(r.lastReason) == "unknown" then Err("ownership reason is not safe")
    else if r.quota.Some? && r.quota.value.status.OtherQuota? then Err("quota status is invalid")
    else if r.quota.Some? && (|r.quota.value.identityHash| > 128
            || (r.quota.value.safeError != "" && SafeCode(r.quota.value.safeError) == "unknown")) then
      Err("quota observation is not safe")
    else
      Ok(r.(quota := if r.quota.Some? && (r.quota.value.authIndex != r.authIndex || r.quota.value.identityHash != r.contentHash)
                     then None else r.quota,
            initialWakeup := if r.initialWakeup.Some? && r.initialWakeup.value.identityHash != r.contentHash
                             then None else r.initialWakeup,
            resetWakeup := if r.resetWakeup.Some? && r.resetWakeup.value.identityHash != r.contentHash
                           then None else r.resetWakeup))
  }

  lemma CodexKeyNotBlank(index: string)
    ensures !Blank("codex:" + index)
  {
    var key := "codex:" + index;
    assert key[0] == 'c' && TrimLeft(key) == key;
    TrimRightKeepsFirst(key);
  }

  lemma {:induction false} TrimRightKeepsFirst(s: string)
    requires s != "" && !IsSpace(s[0])
    ensures TrimRight(s) != ""
    decreases |s|
  {
    if IsSpace(s[|s| - 1]) {
      TrimRightKeepsFirst(s[..|s| - 1]);
    }
  }

  /** A save accepts a record exactly when it is acceptable with a non-empty guard, and keeps
      everything but the optional sub-records. */
  lemma SaveRecordMeaning(key: string, r: OwnershipRecord)
    ensures SaveRecord(key, r).Ok? <==> Acceptable(key, r) && SavesGuard(r)
    ensures SaveRecord(key, r).Ok? ==> SaveRecord(key, r).value == CleanRecord(r)
  {
    CodexKeyNotBlank(r.authIndex);
  }

  /** A load accepts exactly the acceptable records with a non-blank guard: its two checks
      on the quota observation never fire once it has been sanitized. */
  lemma LoadRecordMeaning(key: string, r: OwnershipRecord)
    ensures LoadRecord(key, r).Ok? <==> Acceptable(key, r) && LoadsGuard(r)
    ensures LoadRecord(key, r).Ok? ==> LoadRecord(key, r).value == CleanRecord(r)
  {
    LoadAccepts(key, r);
    LoadCleans(key, r);
  }

  lemma LoadAccepts(key: string, r: OwnershipRecord)
    ensures LoadRecord(key, r).Ok? <==> Acceptable(key, r) && LoadsGuard(r)
  {
    CodexKeyNotBlank(r.authIndex);
    if r.quota.Some? {
      SafeQuotaObservationIdempotent(r.quota.value);
    }
  }

  lemma LoadCleans(key: string, r: OwnershipRecord)
    ensures LoadRecord(key, r).Ok? ==> LoadRecord(key, r).value == CleanRecord(r)
  {
  }

  lemma CleanRecordIdempotent(r: OwnershipRecord)
    ensures CleanRecord(CleanRecord(r)) == CleanRecord(r)
  {
    SafeProbeOptionIdempotent(r.lastProbe);
    SafeQuotaOptionIdempotent(r.quota, r.authIndex, r.contentHash);
    SafeWakeOptionIdempotent(r.initialWakeup, Initial, r.contentHash);
    SafeWakeOptionIdempotent(r.resetWakeup, Reset, r.contentHash);
  }

  // ---------------------------------------------------------------- observations

  function SafeEntry(key: string, o: CredentialObservation): Option<CredentialObservation> {
    if key != "codex:" + o.authIndex then None else SafeCredentialObservation(o)
  }

  function CleanObservations(observations: map<string, CredentialObservation>): map<string, CredentialObservation> {
    map key | key in observations && SafeEntry(key, observations[key]).Some? :: SafeEntry(key, observations[key]).value
  }

  method CollectObservations(observations: map<string, CredentialObservation>)
    returns (clean: map<string, CredentialObservation>)
    ensures clean == CleanObservations(observations)
  {
    clean := map[];
    var todo := observations.Keys;
    while todo != {}
      invariant todo <= observations.Keys
      invariant clean.Keys == set k | k in observations && k !in todo && SafeEntry(k, observations[k]).Some?
      invariant forall k :: k in clean ==> clean[k] == SafeEntry(k, observations[k]).value
    {
      var key :| key in todo;
      todo := todo - {key};
      if key == "codex:" + observations[key].authIndex {
        var safe := SafeCredentialObservation(observations[key]);
        if safe.Some? {
          clean := clean[key := safe.value];
        }
      }
    }
  }

  lemma CleanObservationsIdempotent(observations: map<string, CredentialObservation>)
    ensures CleanObservations(CleanObservations(observations)) == CleanObservations(observations)
  {
    var clean := CleanObservations(observations);
    forall key | key in clean
      ensures SafeEntry(key, clean[key]) == Some(clean[key])
    {
      SafeCredentialObservationIdempotent(observations[key]);
    }
    assert CleanObservations(clean).Keys == clean.Keys;
  }

  lemma SubmapSize(a: map<string, CredentialObservation>, b: map<string, CredentialObservation>)
    requires a.Keys <= b.Keys
    ensures |a| <= |b|
  {
    assert |a.Keys| == |a| && |b.Keys| == |b|;
    SubsetSize(a.Keys, b.Keys);
  }

  // ---------------------------------------------------------------- whole documents

  function CleanCredentials(credentials: map<string, OwnershipRecord>): map<string, OwnershipRecord> {
    map key | key in credentials :: CleanRecord(credentials[key])
  }

  function Schema(version: int): int {
    if version == 0 then SCHEMA_VERSION else version
  }

  /** Every record is acceptable, with the guard the direction asks for. */
  ghost predicate AllAccepted(credentials: map<string, OwnershipRecord>, loading: bool) {
    forall key :: key in credentials ==> Accepted(key, credentials[key], loading)
  }

  predicate Accepted(key: string, r: OwnershipRecord, loading: bool) {
    Acceptable(key, r) && if loading then LoadsGuard(r) else SavesGuard(r)
  }

  /** The documents a save accepts. */
  ghost predicate Saves(s: State) {
    && Schema(s.schemaVersion) == SCHEMA_VERSION
    && |s.observations| <= MAX_STATE_RECORDS && |s.credentials| <= MAX_STATE_RECORDS
    && AllAccepted(s.credentials, false)
  }

  /** The documents a load accepts; observations it cannot use do not count. */
  ghost predicate Loads(s: State) {
    && s.schemaVersion == SCHEMA_VERSION && s.updatedAt != ZERO_TIME
    && |CleanObservations(s.observations)| <= MAX_STATE_RECORDS && |s.credentials| <= MAX_STATE_RECORDS
    && AllAccepted(s.credentials, true)
  }

  function Cleaned(s: State): State {
    State(SCHEMA_VERSION, s.updatedAt, CleanCredentials(s.credentials), CleanObservations(s.observations))
  }

  /** One turn of either loop. */
  method CheckRecord(key: string, r: OwnershipRecord, loading: bool) returns (checked: Result<OwnershipRecord>)
    ensures checked.Ok? <==> Accepted(key, r, loading)
    ensures checked.Ok? ==> checked.value == CleanRecord(r)
  {
    if loading {
      LoadRecordMeaning(key, r);
      checked := LoadRecord(key, r);
    } else {
      SaveRecordMeaning(key, r);
      checked := SaveRecord(key, r);
    }
  }

  /** The records outside `todo` are accepted and rewritten; the others are untouched. */
  ghost predicate Rewritten(records: map<string, OwnershipRecord>, credentials: map<string, OwnershipRecord>,
                            todo: set<string>, loading: bool) {
    CleanedSoFar(records, credentials, todo) && AcceptedOf(records, records.Keys - todo, loading)
  }

  ghost predicate CleanedSoFar(records: map<string, OwnershipRecord>, credentials: map<string, OwnershipRecord>, todo: set<string>) {
    && todo <= records.Keys == credentials.Keys
    && (forall k :: k in todo ==> credentials[k] == records[k])
    && (forall k :: k in records.Keys - todo ==> credentials[k] == CleanRecord(records[k]))
  }

  lemma CleanOneMore(records: map<string, OwnershipRecord>, credentials: map<string, OwnershipRecord>, todo: set<string>,
                     key: string, clean: OwnershipRecord)
    requires CleanedSoFar(records, credentials, todo) && key in todo && clean == CleanRecord(records[key])
    ensures CleanedSoFar(records, credentials[key := clean], todo - {key})
  {
  }

  ghost predicate AcceptedOf(records: map<string, OwnershipRecord>, keys: set<string>, loading: bool) {
    forall k :: k in keys && k in records ==> Accepted(k, records[k], loading)
  }

  lemma AcceptedOneMore(records: map<string, OwnershipRecord>, keys: set<string>, key: string, loading: bool)
    requires AcceptedOf(records, keys, loading) && key in records && Accepted(key, records[key], loading)
    ensures AcceptedOf(records, keys + {key}, loading)
  {
  }

  lemma RewriteOne(records: map<string, OwnershipRecord>, credentials: map<string, OwnershipRecord>,
                   todo: set<string>, key: string, loading: bool)
    requires Rewritten(records, credentials, todo, loading) && key in todo && Accepted(key, records[key], loading)
    ensures Rewritten(records, credentials[key := CleanRecord(records[key])], todo - {key}, loading)
  {
    CleanOneMore(records, credentials, todo, key, CleanRecord(records[key]));
    AcceptedOneMore(records, records.Keys - todo, key, loading);
    assert records.Keys - (todo - {key}) == records.Keys - todo + {key};
  }

  lemma RewriteEnds(records: map<string, OwnershipRecord>, credentials: map<string, OwnershipRecord>, loading: bool)
    requires Rewritten(records, credentials, {}, loading)
    ensures AllAccepted(records, loading) && credentials == CleanCredentials(records)
  {
    assert records.Keys - {} == records.Keys;
    AcceptedAll(records, loading);
    CleanedAll(records, credentials);
  }

  lemma CleanedAll(records: map<string, OwnershipRecord>, credentials: map<string, OwnershipRecord>)
    requires records.Keys == credentials.Keys && forall k :: k in records.Keys ==> credentials[k] == CleanRecord(records[k])
    ensures credentials == CleanCredentials(records)
  {
  }

  lemma AcceptedAll(records: map<string, OwnershipRecord>, loading: bool)
    requires AcceptedOf(records, records.Keys, loading)
    ensures AllAccepted(records, loading)
  {
  }

  /** The loop of both validators: records are rewritten in place, in whatever order the map
      yields them, and the first bad one ends it. */
  method ValidateRecords(records: map<string, OwnershipRecord>, loading: bool)
    returns (r: Result<map<string, OwnershipRecord>>)
    ensures r.Ok? <==> AllAccepted(records, loading)
    ensures r.Ok? ==> r.value == CleanCredentials(records)
  {
    var credentials := records;
    var todo := records.Keys;
    while todo != {}
      invariant Rewritten(records, credentials, todo, loading)
    {
      var key :| key in todo;
      var record := CheckRecord(key, credentials[key], loading);
      if record.Err? {
        return Err(record.error);
      }
      RewriteOne(records, credentials, todo, key, loading);
      credentials := credentials[key := record.value];
      todo := todo - {key};
    }
    RewriteEnds(records, credentials, loading);
    return Ok(credentials);
  }

  /** validateStateForSave */
  method ValidateStateForSave(s: State) returns (r: Result<State>)
    ensures r.Ok? <==> Saves(s)
    ensures r.Ok? ==> r.value == Cleaned(s)
  {
    var version := s.schemaVersion;
    if version == 0 {
      version := SCHEMA_VERSION;
    }
    if version != SCHEMA_VERSION {
      return Err("unsupported state schema");
    }
    if |s.observations| > MAX_STATE_RECORDS {
      return Err("state contains too many credential observations");
    }
    var clean := CollectObservations(s.observations);
    if |s.credentials| > MAX_STATE_RECORDS {
      return Err("state contains too many ownership records");
    }
    var credentials := ValidateRecords(s.credentials, false);
    if credentials.Err? {
      return Err(credentials.error);
    }
    return Ok(State(version, s.updatedAt, credentials.value, clean));
  }

  /** decodeAndValidate after the JSON text has been read. */
  method DecodeAndValidate(s: State) returns (r: Result<State>)
    ensures r.Ok? <==> Loads(s)
    ensures r.Ok? ==> r.value == Cleaned(s)
  {
    var decoded := CollectObservations(s.observations);
    if s.schemaVersion != SCHEMA_VERSION {
      return Err("unsupported state schema");
    }
    if s.updatedAt == ZERO_TIME {
      return Err("state updated_at is required");
    }
    if |decoded| > MAX_STATE_RECORDS {
      return Err("state contains too many credential observations");
    }
    var clean := CollectObservations(decoded);
    CleanObservationsIdempotent(s.observations);
    if |s.credentials| > MAX_STATE_RECORDS {
      return Err("state contains too many ownership records");
    }
    var credentials := ValidateRecords(s.credentials, true);
    if credentials.Err? {
      return Err(credentials.error);
    }
    return Ok(State(s.schemaVersion, s.updatedAt, credentials.value, clean));
  }

  // ---------------------------------------------------------------- load undoes save

  ghost predicate GuardsReadable(s: State) {
    forall key :: key in s.credentials ==> LoadsGuard(s.credentials[key])
  }

  lemma CleanedFixed(s: State, now: Time)
    ensures var t := Cleaned(s).(updatedAt := now); Cleaned(t) == t
  {
    CleanObservationsIdempotent(s.observations);
    var credentials := CleanCredentials(s.credentials);
    forall key | key in credentials
      ensures CleanRecord(credentials[key]) == credentials[key]
    {
      CleanRecordIdempotent(s.credentials[key]);
    }
    assert CleanCredentials(credentials) == credentials;
  }

  /** Cleaning neither adds a record nor changes whether one is accepted. */
  lemma CleaningKeepsRecords(credentials: map<string, OwnershipRecord>, loading: bool)
    ensures |CleanCredentials(credentials)| == |credentials|
    ensures AllAccepted(CleanCredentials(credentials), loading) <==> AllAccepted(credentials, loading)
  {
    var clean := CleanCredentials(credentials);
    assert clean.Keys == credentials.Keys;
    assert |clean.Keys| == |clean| && |credentials.Keys| == |credentials|;
    forall key | key in credentials
      ensures Accepted(key, clean[key], loading) <==> Accepted(key, credentials[key], loading)
    {
    }
    if AllAccepted(clean, loading) {
      forall key | key in credentials
        ensures Accepted(key, credentials[key], loading)
      {
        assert Accepted(key, clean[key], loading);
      }
    }
  }

  /** What a save accepts and stamps, a load accepts, and unchanged, exactly when the stamp
      is a real time and no pending probe has a blank guard. */
  lemma LoadUndoesSave(s: State, now: Time)
    requires Saves(s)
    ensures var t := Cleaned(s).(updatedAt := now);
            && (Loads(t) <==> now != ZERO_TIME && GuardsReadable(s))
            && Cleaned(t) == t
  {
    CleanedFixed(s, now);
    CleanObservationsIdempotent(s.observations);
    SubmapSize(CleanObservations(s.observations), s.observations);
    CleaningKeepsRecords(s.credentials, true);
    GuardsDecide(s);
  }

  lemma GuardsDecide(s: State)
    requires Saves(s)
    ensures AllAccepted(s.credentials, true) <==> GuardsReadable(s)
  {
    forall key | key in s.credentials
      ensures Accepted(key, s.credentials[key], true) <==> LoadsGuard(s.credentials[key])
    {
      assert Accepted(key, s.credentials[key], false);
    }
  }

  /** The two validators really disagree: one blank revision, accepted on save, makes the
      whole document unreadable on the next start. */
  lemma BlankGuardIsLost(now: Time)
    ensures var r := OwnershipRecord("1", "", "a.json", 5, true, "h", "r", ProbePending, "t", "h", " ",
                                     ZERO_TIME, ZERO_TIME, 0, "", None, None, None, None);
            var s := State(1, 5, map["codex:1" := r], map[]);
            Saves(s) && !Loads(Cleaned(s).(updatedAt := now))
  {
    var r := OwnershipRecord("1", "", "a.json", 5, true, "h", "r", ProbePending, "t", "h", " ",
                             ZERO_TIME, ZERO_TIME, 0, "", None, None, None, None);
    var s := State(1, 5, map["codex:1" := r], map[]);
    TrimSpaceClean("1");
    TrimSpaceClean("a.json");
    TrimSpaceClean("t");
    TrimSpaceClean("h");
    assert Accepted("codex:1", r, false);
    LoadUndoesSave(s, now);
    assert " "[1..] == "";
    assert !LoadsGuard(s.credentials["codex:1"]);
  }

  // ---------------------------------------------------------------- the store

  /** `state` is the snapshot in memory, `disk` the committed document. An atomic write
      either replaces the document or changes nothing. */
  class Store {
    var state: State
    var disk: Option<State>

    /** Memory and disk agree, and the document would survive a restart if its guards do. */
    ghost predicate Valid()
      reads this
    {
      && Cleaned(state) == state
      && (disk.Some? ==> disk == Some(state) && Saves(state))
      && (disk.None? ==> state.credentials == map[] && state.observations == map[])
    }

    constructor (now: Time)
      ensures Valid() && disk == None && state == EmptyState(now)
    {
      state := EmptyState(now);
      disk := None;
      new;
      assert CleanObservations(map[]) == map[];
      assert CleanCredentials(map[]) == map[];
    }

    method Commit(next: State, now: Time, written: bool) returns (r: Result<()>)
      requires Valid()
      modifies this
      ensures Valid()
      ensures r.Ok? <==> Saves(next) && written
      ensures r.Ok? ==> state == Cleaned(next).(updatedAt := now) && disk == Some(state)
      ensures r.Err? ==> state == old(state) && disk == old(disk)
    {
      var checked := ValidateStateForSave(next);
      if checked.Err? {
        return Err(checked.error);
      }
      if !written {
        return Err("atomic write failed");
      }
      state := checked.value.(updatedAt := now);
      disk := Some(state);
      CleanedFixed(next, now);
      CommittedSaves(next, now);
      return Ok(());
    }

    /** Update: the callback works on a private copy, so its failure changes nothing. */
    method Update(callback: State -> Result<State>, now: Time, written: bool) returns (r: Result<()>)
      requires Valid()
      modifies this
      ensures Valid()
      ensures r.Ok? <==> callback(old(state)).Ok? && Saves(callback(old(state)).value) && written
      ensures r.Ok? ==> state == Cleaned(callback(old(state)).value).(updatedAt := now) && disk == Some(state)
      ensures r.Err? ==> state == old(state) && disk == old(disk)
    {
      var next := callback(state);
      if next.Err? {
        return Err(next.error);
      }
      r := Commit(next.value, now, written);
    }

    /** A restart: the committed document is read back, or set aside as corrupt and replaced
        in memory by an empty one. */
    method Restart(now: Time) returns (quarantined: bool)
      requires Valid()
      modifies this
      ensures Valid()
      ensures quarantined <==> old(disk).Some? && !(old(state).updatedAt != ZERO_TIME && GuardsReadable(old(state)))
      ensures if quarantined then state == EmptyState(now) && disk == None
              else if old(disk).Some? then state == old(state) && disk == old(disk)
              else state == EmptyState(now) && disk == None
    {
      assert CleanObservations(map[]) == map[];
      assert CleanCredentials(map[]) == map[];
      quarantined := false;
      if disk.None? {
        state := EmptyState(now);
        return;
      }
      LoadUndoesSave(state, state.updatedAt);
      var loaded := DecodeAndValidate(disk.value);
      if loaded.Ok? {
        state := loaded.value;
      } else {
        quarantined := true;
        state := EmptyState(now);
        disk := None;
      }
    }
  }

  lemma CommittedSaves(s: State, now: Time)
    requires Saves(s)
    ensures Saves(Cleaned(s).(updatedAt := now))
  {
    SubmapSize(CleanObservations(s.observations), s.observations);
    CleaningKeepsRecords(s.credentials, false);
  }
}
