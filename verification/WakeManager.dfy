/** The wake manager in the shape the plugin runs it: one locked pass over an auth index that
    saves, asks, and saves again, and may be cut off by a crash or a failed save at any point.
    What it does is a run of the wake protocol. */
module WakeManager {
  import opened Basics
  import opened Backoff
  import opened Domain
  import opened WindowKey
  import opened WakeProtocol
  import opened WakeBudget
  import S = StateStore

  datatype Snapshot = SnapFailed | Snap(id: string, disabled: bool, runtimeOk: bool)

  lemma RunAppend(cfg: Cfg, s: Ledger, es: seq<Event>, e: Event)
    ensures Run(cfg, s, es + [e]) == Step(cfg, Run(cfg, s, es), e)
    decreases es
  {
    if es == [] {
      assert es + [e] == [e];
      assert [e][1..] == [];
    } else {
      assert (es + [e])[0] == es[0] && (es + [e])[1..] == es[1..] + [e];
      RunAppend(cfg, Step(cfg, s, es[0]), es[1..], e);
    }
  }

  // ---------------------------------------------------------------- what a pass does

  predicate Begins(e: Event) {
    e.Load? || IsWriter(e)
  }

  /** The events that can come next. While a pass holds the lock that is one, but for a crash;
      the process can die with the announcement saved or with the request sent, since anywhere
      else that is a pass that was never made or had ended. */
  predicate Expected(pc: PC, e: Event) {
    match pc
    case Idle => Begins(e)
    case InitialTurn(_, _) => e.TryInitial?
    case Requesting(_, _, _) => e.Send? || e.Crash?
    case Recording(_, _, _) => e.Record? || e.Crash?
    case BetweenTurns(_) => e.Refresh?
    case ResetTurn(_) => e.TryReset?
  }

  predicate Orderly(cfg: Cfg, s: Ledger, es: seq<Event>)
    decreases es
  {
    es == [] || (Expected(s.pc, es[0]) && Orderly(cfg, Step(cfg, s, es[0]), es[1..]))
  }

  lemma {:induction false} StaysOrderly(cfg: Cfg, s: Ledger, es: seq<Event>, e: Event)
    requires Orderly(cfg, s, es) && Expected(Run(cfg, s, es).pc, e)
    ensures Orderly(cfg, s, es + [e])
    decreases es
  {
    if es == [] {
      assert es + [e] == [e] && [e][1..] == [];
    } else {
      assert (es + [e])[0] == es[0] && (es + [e])[1..] == es[1..] + [e];
      StaysOrderly(cfg, Step(cfg, s, es[0]), es[1..], e);
    }
  }

  /** `b` goes on from `a` without another pass or writer. */
  predicate GoesOn(a: seq<Event>, b: seq<Event>) {
    a <= b && forall i :: |a| <= i < |b| ==> !Begins(b[i])
  }

  /** The loop of persistedResetQuota. */
  method LatestReset(windows: seq<QuotaWindow>) returns (resetAt: Time)
    ensures resetAt == LatestBlockingReset(windows)
  {
    resetAt := ZERO_TIME;
    for i := 0 to |windows|
      invariant resetAt == LatestBlockingReset(windows[..i])
    {
      var window := windows[i];
      assert windows[..i + 1][..i] == windows[..i] && windows[..i + 1][i] == window;
      if window.blocking && window.resetAt != ZERO_TIME && (resetAt == ZERO_TIME || window.resetAt > resetAt) {
        resetAt := window.resetAt;
      }
    }
    assert windows[..|windows|] == windows;
  }

  lemma ResetTurnAnnounces(cfg: Cfg, s: Ledger, obs: CredentialObservation, now: Time, saved: bool)
    requires s.pc == ResetTurn(obs) && cfg.resetEnabled && EligibleReset(cfg.enc, obs, obs.identityHash, now)
    ensures Step(cfg, s, TryReset(now, saved)) == Announce(cfg, s, obs, Reset, KeyOf(cfg.enc, obs), now, saved)
  {
  }

  class Manager {
    const cfg: Cfg
    /** Observations["codex:" + index] of the state store. */
    var stored: Option<CredentialObservation>
    ghost var s: Ledger
    ghost var trace: seq<Event>

    ghost predicate Valid()
      reads this
    {
      && s.stored == stored && s == Run(cfg, Start, trace) && Orderly(cfg, Start, trace)
      && 0 < cfg.initialBackoff <= cfg.maxBackoff
    }

    constructor (cfg: Cfg)
      requires 0 < cfg.initialBackoff <= cfg.maxBackoff
      ensures Valid() && this.cfg == cfg && trace == [] && stored == None
    {
      this.cfg := cfg;
      stored := None;
      s := Start;
      trace := [];
    }

    /** Accounts for an event; a store commit has just been made by the caller, if any. */
    ghost method Note(e: Event)
      requires s == Run(cfg, Start, trace) && Orderly(cfg, Start, trace) && 0 < cfg.initialBackoff <= cfg.maxBackoff
      requires Step(cfg, s, e).stored == stored && Expected(s.pc, e)
      modifies this`s, this`trace
      ensures Valid() && s == Step(cfg, old(s), e) && trace == old(trace) + [e]
    {
      RunAppend(cfg, Start, trace, e);
      StaysOrderly(cfg, Start, trace, e);
      s := Step(cfg, s, e);
      trace := trace + [e];
    }

    method Now() returns (now: Time) {
      now := *;
    }

    /** store.Update on this entry: a commit keeps what the validator keeps. */
    method StoreUpdate(o: CredentialObservation) returns (ok: bool)
      modifies this`stored
      ensures stored == if ok then SafeCredentialObservation(o) else old(stored)
    {
      ok := *;
      if ok {
        stored := SafeCredentialObservation(o);
      }
    }

    method SaveWakeObservation(obs: CredentialObservation, record: WakeupRecord, mode: WakeMode) returns (ok: bool)
      requires Valid() && (mode == Initial || mode == Reset)
      modifies this`stored
      ensures stored == Saved(s, WakeEntry(cfg, s, obs, record, mode), ok).stored
    {
      var current := if stored.Some? then stored.value else EmptyObservation;
      if current.identityHash != "" && current.identityHash != obs.identityHash {
        current := EmptyObservation;
      }
      current := current.(authIndex := cfg.index, identityHash := obs.identityHash);
      if current.quota.None? {
        current := current.(quota := obs.quota);
      }
      if current.usage.None? {
        current := current.(usage := obs.usage);
      }
      if mode == Initial {
        current := current.(initialWakeup := Some(record));
      } else {
        current := current.(resetWakeup := Some(record));
      }
      ok := StoreUpdate(current);
    }

    method NewPending(obs: CredentialObservation, mode: WakeMode, windowKey: string, now: Time) returns (record: WakeupRecord)
      ensures record == PendingRecord(obs, mode, windowKey, now)
    {
      var current := if mode == Initial then obs.initialWakeup else obs.resetWakeup;
      record := WakeupRecord(mode, Pending, obs.identityHash, windowKey, now, ZERO_TIME, ZERO_TIME, 1, "");
      if current.Some? {
        record := current.value.(mode := mode, status := Pending, identityHash := obs.identityHash, windowKey := windowKey,
                                 attemptedAt := now, attemptCount := current.value.attemptCount + 1, safeError := "",
                                 nextAttemptAt := ZERO_TIME);
      }
    }

    /** Announce, send, record. `done` is false when a save failed or the process died. */
    method RunWakeLocked(obs: CredentialObservation, mode: WakeMode, windowKey: string, now: Time) returns (done: bool)
      requires Valid() && (mode == Initial || mode == Reset)
      requires Expected(s.pc, TurnEvent(mode, now, true))
      requires forall saved :: Step(cfg, s, TurnEvent(mode, now, saved)) == Announce(cfg, s, obs, mode, windowKey, now, saved)
      modifies this
      ensures Valid() && GoesOn(old(trace), trace)
      ensures done ==> s.pc == (if mode == Initial then BetweenTurns(obs) else Idle)
      ensures !done ==> s.pc.Idle?
    {
      var record := NewPending(obs, mode, windowKey, now);
      var ok := SaveWakeObservation(obs, record, mode);
      Note(TurnEvent(mode, now, ok));
      if !ok {
        return false;
      }
      done := RequestAndRecord(obs, mode, record);
    }

    /** The second half: the process may die before the request and before the outcome is saved. */
    method RequestAndRecord(obs: CredentialObservation, mode: WakeMode, pending: WakeupRecord) returns (done: bool)
      requires Valid() && s.pc == Requesting(mode, obs, pending) && (mode == Initial || mode == Reset)
      modifies this
      ensures Valid() && GoesOn(old(trace), trace)
      ensures done ==> s.pc == (if mode == Initial then BetweenTurns(obs) else Idle)
      ensures !done ==> s.pc.Idle?
    {
      var died: bool := *;
      if died {
        Note(Crash);
        return false;
      }
      var result: WakeResult := *;
      var now := Now();
      Note(Send(result, now));
      var record := Finish(pending, result, now);
      died := *;
      if died {
        Note(Crash);
        return false;
      }
      done := SaveWakeObservation(obs, record, mode);
      Note(Record(done));
    }

    method Finish(pending: WakeupRecord, result: WakeResult, now: Time) returns (record: WakeupRecord)
      requires Valid()
      ensures record == Outcome(cfg, pending, result, now)
    {
      var code := result.code;
      if result.failed {
        code := "wake_request_failed";
      }
      if result.completed && code == "wake_success" {
        return pending.(status := Success, completedAt := now, safeError := "wake_success", nextAttemptAt := ZERO_TIME);
      }
      if code == "" {
        code := "wake_manual_review";
      }
      record := pending.(status := Failed, safeError := code);
      if Retryable(code) && record.attemptCount < MAX_WAKE_ATTEMPTS {
        var delay := WakeBackoff(cfg.initialBackoff, cfg.maxBackoff, record.attemptCount);
        record := record.(nextAttemptAt := now + delay as int);
      } else {
        record := record.(nextAttemptAt := ZERO_TIME);
      }
    }

    method ReadObservation(id: string, ownership: Option<S.OwnershipRecord>) returns (obs: CredentialObservation)
      requires Valid() && id != ""
      ensures obs == Loaded(cfg, s, id, ownership)
    {
      obs := if stored.Some? then stored.value else EmptyObservation;
      if obs.identityHash != "" && obs.identityHash != id {
        obs := EmptyObservation;
      }
      obs := obs.(authIndex := cfg.index, identityHash := id);
      if obs.quota.None? && ownership.Some? {
        obs := obs.(quota := PersistedResetQuota(ownership.value, id));
      }
    }

    /** processLocked on a snapshot of the Host's credential: without a usable one nothing, else
        one whole pass, begun with this snapshot and followed to its end. */
    method ProcessLocked(snap: Snapshot, ownership: Option<S.OwnershipRecord>)
      requires Valid() && s.pc.Idle?
      modifies this
      ensures Valid() && s.pc.Idle?
      ensures if snap.Snap? && snap.runtimeOk && snap.id != ""
              then GoesOn(old(trace) + [Load(snap.id, snap.disabled, true, ownership)], trace) else trace == old(trace)
    {
      if snap.SnapFailed? || !snap.runtimeOk || snap.id == "" {
        return;
      }
      var obs := ReadObservation(snap.id, ownership);
      Note(Load(snap.id, snap.disabled, true, ownership));
      var go := InitialPass(obs, snap.disabled);
      if go {
        ResetPass(obs);
      }
    }

    method InitialPass(obs: CredentialObservation, disabled: bool) returns (go: bool)
      requires Valid() && s.pc == InitialTurn(disabled, obs)
      modifies this
      ensures Valid() && GoesOn(old(trace), trace)
      ensures s.pc == if go then ResetTurn(obs) else Idle
    {
      var now := Now();
      if disabled || !cfg.initialEnabled || !EligibleInitial(obs, obs.identityHash, now) {
        Note(TryInitial(now, true));
        return true;
      }
      var done := RunWakeLocked(obs, Initial, "", now);
      if !done {
        return false;
      }
      now := Now();
      var reread: Snapshot := *;
      var id := if reread.Snap? && reread.runtimeOk then Some(reread.id) else None;
      Note(Refresh(now, id));
      go := !(cfg.resetEnabled && EligibleReset(cfg.enc, obs, obs.identityHash, now)) || id == Some(obs.identityHash);
    }

    method ResetPass(obs: CredentialObservation)
      requires Valid() && s.pc == ResetTurn(obs)
      modifies this
      ensures Valid() && s.pc.Idle? && GoesOn(old(trace), trace)
    {
      var now := Now();
      if cfg.resetEnabled && EligibleReset(cfg.enc, obs, obs.identityHash, now) {
        var windowKey := ResetWindowKey(cfg.enc, obs.identityHash, obs.quota.value.resetAt, obs.quota.value.windows);
        forall saved
          ensures Step(cfg, s, TurnEvent(Reset, now, saved)) == Announce(cfg, s, obs, Reset, windowKey, now, saved)
        {
          ResetTurnAnnounces(cfg, s, obs, now, saved);
        }
        var done := RunWakeLocked(obs, Reset, windowKey, now);
      } else {
        Note(TryReset(now, true));
      }
    }

    /** Any of the four other writers, which take the same lock. */
    method OtherWriter(e: Event) returns (ok: bool)
      requires Valid() && s.pc.Idle? && IsWriter(e)
      modifies this
      ensures Valid() && s.pc.Idle? && trace == old(trace) + [WithOutcome(e, ok)]
    {
      ok := StoreUpdate(WriterEntry(cfg, Ledger(stored, Idle), e));
      Note(WithOutcome(e, ok));
    }
  }

  /** Whatever passes, writers and crashes a manager has been through since it was created,
      a budget whose identity (and window) did not change has seen at most three requests. */
  lemma ManagerKeepsBudget(m: Manager, b: Budget)
    requires m.Valid() && Setting(m.cfg, b) && Lawful(m.cfg.enc) && KeepsRun(m.cfg, Start, m.trace, b)
    ensures Sends(m.cfg, Start, m.trace, b) <= Used(m.s, b) <= MAX_WAKE_ATTEMPTS
  {
    ThreeRequests(m.cfg, m.trace, b);
  }
}
