/** The wake budget over every run: at most three requests while the identity (and, for
    reset wakes, the window) stays the same, and none after an outcome that closes it. */
module WakeBudget {
  import opened Basics
  import opened Domain
  import opened WindowKey
  import opened WakeProtocol

  // ---------------------------------------------------------------- what is on record

  function BoundTo(s: Ledger, id: string): CredentialObservation {
    if s.stored.Some? && s.stored.value.identityHash == id then s.stored.value else EmptyObservation
  }

  function Bound(s: Ledger, mode: WakeMode, id: string): Option<WakeupRecord> {
    WakeOf(BoundTo(s, id), mode)
  }

  /** Attempts on record for a budget. */
  function Used(s: Ledger, b: Budget): int {
    var wake := Bound(s, b.mode, b.id);
    if wake.Some? && b.Covers(wake.value) then wake.value.attemptCount else 0
  }

  /** The pending record is saved, its request not yet sent. */
  predicate Flying(s: Ledger, b: Budget) {
    s.pc.Requesting? && s.pc.mode == b.mode && b.Covers(s.pc.record)
  }

  function Spent(s: Ledger, b: Budget): int {
    Used(s, b) - if Flying(s, b) then 1 else 0
  }

  // ---------------------------------------------------------------- invariant

  predicate Kept(cfg: Cfg, s: Ledger) {
    s.stored.Some? ==> SafeCredentialObservation(s.stored.value) == s.stored && s.stored.value.authIndex == cfg.index
  }

  /** The copy a goroutine works on still agrees with the store about the wakes to come. */
  predicate Agrees(cfg: Cfg, s: Ledger, obs: CredentialObservation, modes: set<WakeMode>) {
    && obs.authIndex == cfg.index && HashText(obs.identityHash)
    && obs.usage == BoundTo(s, obs.identityHash).usage
    && (Initial in modes ==> obs.initialWakeup == Bound(s, Initial, obs.identityHash))
    && (Reset in modes ==> obs.resetWakeup == Bound(s, Reset, obs.identityHash))
  }

  predicate Announced(s: Ledger, mode: WakeMode, obs: CredentialObservation, record: WakeupRecord) {
    var wake := Bound(s, mode, obs.identityHash);
    && record.mode == mode && record.identityHash == obs.identityHash && |record.windowKey| <= 256
    && record.attemptCount >= 1
    && wake.Some? && wake.value.status == Pending && wake.value.windowKey == record.windowKey
    && wake.value.attemptCount == Min(MAX_WAKE_ATTEMPTS, record.attemptCount)
  }

  predicate InFlight(cfg: Cfg, s: Ledger, mode: WakeMode, obs: CredentialObservation, record: WakeupRecord) {
    && (mode == Initial || mode == Reset)
    && Agrees(cfg, s, obs, if mode == Initial then {Reset} else {})
    && Announced(s, mode, obs, record)
  }

  predicate Inv(cfg: Cfg, s: Ledger) {
    && Kept(cfg, s)
    && match s.pc
       case Idle => true
       case InitialTurn(_, obs) => Agrees(cfg, s, obs, {Initial, Reset})
       case Requesting(mode, obs, record) => InFlight(cfg, s, mode, obs, record) && record.status == Pending && record.safeError == ""
       case Recording(mode, obs, record) => InFlight(cfg, s, mode, obs, record)
                                            && (record.status == Success || record.status == Failed)
       case BetweenTurns(obs) => Agrees(cfg, s, obs, {Reset})
       case ResetTurn(obs) => Agrees(cfg, s, obs, {Reset})
  }

  /** Whoever holds the lock works for the identity of the budget. */
  predicate Focus(s: Ledger, b: Budget) {
    !s.pc.Idle? ==> s.pc.obs.identityHash == b.id
  }

  predicate Setting(cfg: Cfg, b: Budget) {
    GoodIndex(cfg) && HashText(b.id) && (b.mode == Initial || b.mode == Reset)
  }

  // ---------------------------------------------------------------- saving

  /** A writer that leaves the wake records alone leaves them as they were on disk. */
  lemma WriterKeeps(cfg: Cfg, s: Ledger, o: CredentialObservation)
    requires GoodIndex(cfg) && Kept(cfg, s)
    requires o.authIndex == cfg.index && HashText(o.identityHash)
    requires o.initialWakeup == Bound(s, Initial, o.identityHash) && o.resetWakeup == Bound(s, Reset, o.identityHash)
    ensures var t := Saved(s, o, true);
            && Kept(cfg, t) && t.stored.Some? && t.stored.value.identityHash == o.identityHash
            && Bound(t, Initial, o.identityHash) == Bound(s, Initial, o.identityHash)
            && Bound(t, Reset, o.identityHash) == Bound(s, Reset, o.identityHash)
            && t.stored.value.usage == SafeUsageOption(o.usage, o.authIndex, o.identityHash)
  {
    SafeCredentialObservationIdempotent(o);
  }

  /** Saving a wake record of one mode changes that record only. */
  lemma WakeSave(cfg: Cfg, s: Ledger, obs: CredentialObservation, record: WakeupRecord, mode: WakeMode)
    requires GoodIndex(cfg) && Kept(cfg, s) && HashText(obs.identityHash) && (mode == Initial || mode == Reset)
    requires record.mode == mode && record.identityHash == obs.identityHash && |record.windowKey| <= 256
    ensures var t := Saved(s, WakeEntry(cfg, s, obs, record, mode), true);
            var id := obs.identityHash;
            && Kept(cfg, t) && t.stored.Some? && t.stored.value.identityHash == id
            && Bound(t, mode, id) == Some(SafeWakeupRecord(record, mode))
            && (mode == Initial ==> Bound(t, Reset, id) == Bound(s, Reset, id))
            && (mode == Reset ==> Bound(t, Initial, id) == Bound(s, Initial, id))
            && (BoundTo(s, id).usage.Some? || obs.usage.None? ==> BoundTo(t, id).usage == BoundTo(s, id).usage)
  {
    SafeCredentialObservationIdempotent(WakeEntry(cfg, s, obs, record, mode));
    KeepsIdentity(record, mode);
  }

  lemma KeepsIdentity(record: WakeupRecord, mode: WakeMode)
    requires |record.identityHash| <= 128 && |record.windowKey| <= 256
    ensures SafeWakeupRecord(record, mode).identityHash == record.identityHash
    ensures SafeWakeupRecord(record, mode).windowKey == record.windowKey
  {
  }

  /** A pending record survives sanitizing but for the clamped count. */
  lemma PendingSurvives(record: WakeupRecord, mode: WakeMode)
    requires record.mode == mode && record.status == Pending && record.safeError == ""
    requires |record.identityHash| <= 128 && |record.windowKey| <= 256 && record.attemptCount >= 0
    ensures SafeWakeupRecord(record, mode) == record.(attemptCount := Min(MAX_WAKE_ATTEMPTS, record.attemptCount))
  {
    TrimSpaceClean("");
  }

  // ---------------------------------------------------------------- one event

  lemma AnnounceKeeps(cfg: Cfg, s: Ledger, obs: CredentialObservation, mode: WakeMode, key: string, now: Time, b: Budget)
    requires Setting(cfg, b) && Kept(cfg, s) && (mode == Initial || mode == Reset) && |key| <= 256
    requires Agrees(cfg, s, obs, if mode == Initial then {Initial, Reset} else {Reset}) && obs.identityHash == b.id
    requires WakeOf(obs, mode).Some? && WakeOf(obs, mode).value.windowKey == key ==> WakeOf(obs, mode).value.attemptCount < MAX_WAKE_ATTEMPTS
    requires mode == Initial && WakeOf(obs, mode).Some? ==> WakeOf(obs, mode).value.attemptCount < MAX_WAKE_ATTEMPTS
    requires mode == b.mode ==> b.Covers(PendingRecord(obs, mode, key, now))
    ensures Inv(cfg, Announce(cfg, s, obs, mode, key, now, true))
    ensures Spent(s, b) <= Spent(Announce(cfg, s, obs, mode, key, now, true), b)
  {
    PendingCount(cfg, s, obs, mode, key, now);
    PendingSaved(cfg, s, obs, mode, key, now);
    AnnouncedInv(cfg, s, obs, mode, key, now);
    AnnouncedSpent(cfg, s, obs, mode, key, now, b);
  }

  /** The record of an announcement counts one more attempt than the one before it. */
  lemma PendingCount(cfg: Cfg, s: Ledger, obs: CredentialObservation, mode: WakeMode, key: string, now: Time)
    requires Kept(cfg, s) && (mode == Initial || mode == Reset) && WakeOf(obs, mode) == Bound(s, mode, obs.identityHash)
    ensures PendingShape(obs, mode, key, PendingRecord(obs, mode, key, now))
  {
    CountsStayPositive(cfg, s, obs.identityHash);
  }

  predicate PendingShape(obs: CredentialObservation, mode: WakeMode, key: string, record: WakeupRecord) {
    && record.mode == mode && record.status == Pending && record.safeError == "" && record.windowKey == key
    && record.identityHash == obs.identityHash && record.attemptCount >= 1
    && record.attemptCount == (if WakeOf(obs, mode).Some? then WakeOf(obs, mode).value.attemptCount else 0) + 1
  }

  /** What the save of an announcement leaves. */
  predicate PendingStored(cfg: Cfg, s: Ledger, t: Ledger, obs: CredentialObservation, mode: WakeMode, record: WakeupRecord) {
    var id := obs.identityHash;
    && Kept(cfg, t) && t.stored.Some? && t.stored.value.identityHash == id
    && Bound(t, mode, id) == Some(record.(attemptCount := Min(MAX_WAKE_ATTEMPTS, record.attemptCount)))
    && (mode == Initial ==> Bound(t, Reset, id) == Bound(s, Reset, id))
    && (mode == Reset ==> Bound(t, Initial, id) == Bound(s, Initial, id))
    && BoundTo(t, id).usage == BoundTo(s, id).usage
  }

  lemma PendingSaved(cfg: Cfg, s: Ledger, obs: CredentialObservation, mode: WakeMode, key: string, now: Time)
    requires GoodIndex(cfg) && Kept(cfg, s) && HashText(obs.identityHash) && (mode == Initial || mode == Reset) && |key| <= 256
    requires PendingShape(obs, mode, key, PendingRecord(obs, mode, key, now)) && obs.usage == BoundTo(s, obs.identityHash).usage
    ensures PendingStored(cfg, s, Announce(cfg, s, obs, mode, key, now, true), obs, mode, PendingRecord(obs, mode, key, now))
  {
    var record := PendingRecord(obs, mode, key, now);
    WakeSave(cfg, s, obs, record, mode);
    PendingSurvives(record, mode);
  }

  lemma AnnouncedInv(cfg: Cfg, s: Ledger, obs: CredentialObservation, mode: WakeMode, key: string, now: Time)
    requires (mode == Initial || mode == Reset) && |key| <= 256
    requires Agrees(cfg, s, obs, if mode == Initial then {Initial, Reset} else {Reset})
    requires PendingShape(obs, mode, key, PendingRecord(obs, mode, key, now))
    requires PendingStored(cfg, s, Announce(cfg, s, obs, mode, key, now, true), obs, mode, PendingRecord(obs, mode, key, now))
    ensures Inv(cfg, Announce(cfg, s, obs, mode, key, now, true))
  {
  }

  lemma AnnouncedSpent(cfg: Cfg, s: Ledger, obs: CredentialObservation, mode: WakeMode, key: string, now: Time, b: Budget)
    requires (mode == Initial || mode == Reset) && (b.mode == Initial || b.mode == Reset) && obs.identityHash == b.id
    requires WakeOf(obs, mode) == Bound(s, mode, b.id)
    requires WakeOf(obs, mode).Some? && (mode == Initial || WakeOf(obs, mode).value.windowKey == key)
             ==> WakeOf(obs, mode).value.attemptCount < MAX_WAKE_ATTEMPTS
    requires PendingShape(obs, mode, key, PendingRecord(obs, mode, key, now))
    requires mode == b.mode ==> b.Covers(PendingRecord(obs, mode, key, now))
    requires PendingStored(cfg, s, Announce(cfg, s, obs, mode, key, now, true), obs, mode, PendingRecord(obs, mode, key, now))
    ensures Spent(s, b) <= Spent(Announce(cfg, s, obs, mode, key, now, true), b)
  {
  }

  /** Recorded counts lie between zero and three. */
  lemma CountsStayPositive(cfg: Cfg, s: Ledger, id: string)
    requires Kept(cfg, s)
    ensures forall mode :: (mode == Initial || mode == Reset) && Bound(s, mode, id).Some? ==>
              var wake := Bound(s, mode, id).value;
              && wake == SafeWakeupRecord(wake, mode)
              && 0 <= wake.attemptCount <= MAX_WAKE_ATTEMPTS && wake.identityHash == id
  {
    forall mode | (mode == Initial || mode == Reset) && Bound(s, mode, id).Some?
      ensures var wake := Bound(s, mode, id).value;
              && wake == SafeWakeupRecord(wake, mode)
              && 0 <= wake.attemptCount <= MAX_WAKE_ATTEMPTS && wake.identityHash == id
    {
      var wake := Bound(s, mode, id).value;
      assert SafeWakeOption(Some(wake), mode, id) == Some(wake);
      SafeWakeupRecordBudget(wake, mode);
    }
  }

  lemma RecordSaveKeeps(cfg: Cfg, s: Ledger, obs: CredentialObservation, record: WakeupRecord, mode: WakeMode, b: Budget)
    requires Setting(cfg, b) && Kept(cfg, s) && InFlight(cfg, s, mode, obs, record) && obs.identityHash == b.id
    ensures var t := Saved(s, WakeEntry(cfg, s, obs, record, mode), true);
            && Kept(cfg, t) && Used(s, b) <= Used(t, b)
            && (mode == Initial ==> Bound(t, Reset, b.id) == Bound(s, Reset, b.id))
            && BoundTo(t, b.id).usage == BoundTo(s, b.id).usage
  {
    WakeSave(cfg, s, obs, record, mode);
    KeepsIdentity(record, mode);
    CountSurvives(record, mode);
  }

  lemma CountSurvives(record: WakeupRecord, mode: WakeMode)
    ensures SafeWakeupRecord(record, mode).attemptCount >= Min(MAX_WAKE_ATTEMPTS, record.attemptCount)
  {
  }

  lemma TurnAfterRecord(cfg: Cfg, s: Ledger, t: Ledger, b: Budget)
    requires Inv(cfg, s) && s.pc.Recording? && s.pc.obs.identityHash == b.id && Kept(cfg, t)
    requires s.pc.mode == Initial ==> Bound(t, Reset, b.id) == Bound(s, Reset, b.id)
    requires BoundTo(t, b.id).usage == BoundTo(s, b.id).usage
    ensures Inv(cfg, t.(pc := Idle))
    ensures s.pc.mode == Initial ==> Inv(cfg, t.(pc := BetweenTurns(s.pc.obs)))
  {
  }

  lemma RecordStep(cfg: Cfg, s: Ledger, saved: bool, b: Budget)
    requires Setting(cfg, b) && Inv(cfg, s) && Focus(s, b) && s.pc.Recording?
    ensures Inv(cfg, RecordTurn(cfg, s, saved))
    ensures Used(s, b) <= Used(RecordTurn(cfg, s, saved), b)
  {
    if saved {
      RecordSaveKeeps(cfg, s, s.pc.obs, s.pc.record, s.pc.mode, b);
      TurnAfterRecord(cfg, s, Saved(s, WakeEntry(cfg, s, s.pc.obs, s.pc.record, s.pc.mode), true), b);
    } else {
      TurnAfterRecord(cfg, s, s, b);
      assert RecordTurn(cfg, s, false) == s.(pc := Idle);
    }
  }

  lemma WriterEntryShape(cfg: Cfg, s: Ledger, e: Event, id: string)
    requires Kept(cfg, s) && IsWriter(e) && Carries(e, id)
    ensures var o := WriterEntry(cfg, s, e);
            && o.authIndex == cfg.index && o.identityHash == id
            && o.initialWakeup == Bound(s, Initial, id) && o.resetWakeup == Bound(s, Reset, id)
            && (o.usage == BoundTo(s, id).usage
                || (o.usage.Some? && o.usage.value.authIndex == cfg.index && o.usage.value.identityHash == id))
  {
  }

  lemma WriterStep(cfg: Cfg, s: Ledger, e: Event, b: Budget)
    requires Setting(cfg, b) && Kept(cfg, s) && IsWriter(e) && Carries(e, b.id)
    ensures var t := Saved(s, WriterEntry(cfg, s, e), e.saved);
            && Kept(cfg, t) && Bound(t, b.mode, b.id) == Bound(s, b.mode, b.id)
            && (BoundTo(s, b.id).usage.Some? ==> BoundTo(t, b.id).usage.Some?)
  {
    if e.saved {
      WriterEntryShape(cfg, s, e, b.id);
      WriterKeeps(cfg, s, WriterEntry(cfg, s, e));
    }
  }

  lemma TryInitialStep(cfg: Cfg, s: Ledger, now: Time, saved: bool, b: Budget)
    requires Setting(cfg, b) && Inv(cfg, s) && Focus(s, b) && s.pc.InitialTurn?
    requires Keeps(cfg, s, TryInitial(now, saved), b)
    ensures var t := Step(cfg, s, TryInitial(now, saved)); Inv(cfg, t) && Focus(t, b) && Spent(s, b) <= Spent(t, b)
  {
    CountsStayPositive(cfg, s, b.id);
    if Step(cfg, s, TryInitial(now, saved)).pc.Requesting? {
      AnnounceKeeps(cfg, s, s.pc.obs, Initial, "", now, b);
    }
  }

  lemma TryResetStep(cfg: Cfg, s: Ledger, now: Time, saved: bool, b: Budget)
    requires Setting(cfg, b) && Lawful(cfg.enc) && Inv(cfg, s) && Focus(s, b) && s.pc.ResetTurn?
    requires Keeps(cfg, s, TryReset(now, saved), b)
    ensures var t := Step(cfg, s, TryReset(now, saved)); Inv(cfg, t) && Focus(t, b) && Spent(s, b) <= Spent(t, b)
  {
    CountsStayPositive(cfg, s, b.id);
    if Step(cfg, s, TryReset(now, saved)).pc.Requesting? {
      KeyFits(cfg.enc, b.id, s.pc.obs.quota.value.resetAt, s.pc.obs.quota.value.windows);
      AnnounceKeeps(cfg, s, s.pc.obs, Reset, KeyOf(cfg.enc, s.pc.obs), now, b);
    }
  }

  lemma LoadStep(cfg: Cfg, s: Ledger, e: Event, b: Budget)
    requires Setting(cfg, b) && Inv(cfg, s) && s.pc.Idle? && e.Load? && Carries(e, b.id)
    ensures var t := Step(cfg, s, e);
            Inv(cfg, t) && Focus(t, b) && t.stored == s.stored && !t.pc.Requesting?
  {
  }

  lemma SendStep(cfg: Cfg, s: Ledger, e: Event, b: Budget)
    requires Setting(cfg, b) && Inv(cfg, s) && Focus(s, b) && s.pc.Requesting? && e.Send?
    ensures var t := Step(cfg, s, e);
            Inv(cfg, t) && Focus(t, b) && t.stored == s.stored && !t.pc.Requesting?
  {
  }

  /** Events that only move the holder of the lock. */
  lemma MoveStep(cfg: Cfg, s: Ledger, e: Event, b: Budget)
    requires Setting(cfg, b) && Inv(cfg, s) && Focus(s, b)
    requires e.Refresh? || e.Crash?
    ensures var t := Step(cfg, s, e);
            && Inv(cfg, t) && Focus(t, b) && t.stored == s.stored
            && (t.pc.Requesting? ==> t.pc == s.pc)
  {
  }

  /** Every event pays for the request it sends with an attempt already on disk. */
  lemma StepBudget(cfg: Cfg, s: Ledger, e: Event, b: Budget)
    requires Setting(cfg, b) && Lawful(cfg.enc) && Inv(cfg, s) && Focus(s, b) && Keeps(cfg, s, e, b)
    ensures Inv(cfg, Step(cfg, s, e)) && Focus(Step(cfg, s, e), b)
    ensures (if SendsNow(s, e, b) then 1 else 0) + Spent(s, b) <= Spent(Step(cfg, s, e), b)
  {
    if e.TryInitial? {
      if s.pc.InitialTurn? {
        TryInitialStep(cfg, s, e.now, e.saved, b);
      }
    } else if e.TryReset? {
      if s.pc.ResetTurn? {
        TryResetStep(cfg, s, e.now, e.saved, b);
      }
    } else if e.Record? {
      if s.pc.Recording? {
        RecordStep(cfg, s, e.saved, b);
      }
    } else {
      OtherBudget(cfg, s, e, b);
    }
  }

  lemma OtherBudget(cfg: Cfg, s: Ledger, e: Event, b: Budget)
    requires Setting(cfg, b) && Lawful(cfg.enc) && Inv(cfg, s) && Focus(s, b) && Keeps(cfg, s, e, b)
    requires !e.TryInitial? && !e.TryReset? && !e.Record?
    ensures Inv(cfg, Step(cfg, s, e)) && Focus(Step(cfg, s, e), b)
    ensures (if SendsNow(s, e, b) then 1 else 0) + Spent(s, b) <= Spent(Step(cfg, s, e), b)
  {
    if IsWriter(e) {
      WriterStep(cfg, s, e, b);
    } else if e.Load? {
      if s.pc.Idle? {
        LoadStep(cfg, s, e, b);
      }
    } else if e.Send? {
      if s.pc.Requesting? {
        SendStep(cfg, s, e, b);
      }
    } else {
      MoveStep(cfg, s, e, b);
    }
  }

  // ---------------------------------------------------------------- every run

  /** Requests sent never exceed the attempts on disk, which never exceed three. */
  lemma {:induction false} BudgetHolds(cfg: Cfg, s: Ledger, es: seq<Event>, b: Budget)
    requires Setting(cfg, b) && Lawful(cfg.enc) && Inv(cfg, s) && Focus(s, b) && KeepsRun(cfg, s, es, b)
    ensures Inv(cfg, Run(cfg, s, es)) && Focus(Run(cfg, s, es), b)
    ensures Sends(cfg, s, es, b) + Spent(s, b) <= Spent(Run(cfg, s, es), b)
    ensures Used(Run(cfg, s, es), b) <= MAX_WAKE_ATTEMPTS
    decreases es
  {
    if es == [] {
      CountsStayPositive(cfg, s, b.id);
    } else {
      StepBudget(cfg, s, es[0], b);
      BudgetHolds(cfg, Step(cfg, s, es[0]), es[1..], b);
    }
  }

  /** From an empty store: at most three requests, whatever crashes and failed saves occur. */
  lemma ThreeRequests(cfg: Cfg, es: seq<Event>, b: Budget)
    requires Setting(cfg, b) && Lawful(cfg.enc) && KeepsRun(cfg, Start, es, b)
    ensures Sends(cfg, Start, es, b) <= Used(Run(cfg, Start, es), b) <= MAX_WAKE_ATTEMPTS
  {
    BudgetHolds(cfg, Start, es, b);
  }
}
