/** What ends a wake budget early, and the two places where the machine can spend more than
    its outcome warrants: a success it could not save, and an index too long to be stored. */
module WakeOutcome {
  import opened Basics
  import opened Domain
  import opened WindowKey
  import opened WakeProtocol
  import opened WakeBudget

  predicate Final(wake: WakeupRecord) {
    || wake.status == Success || wake.status == Unknown
    || (wake.status == Failed && !Retryable(wake.safeError))
    || wake.attemptCount >= MAX_WAKE_ATTEMPTS
  }

  /** On disk, this budget is used up: its record is final, or (for the initial wake) real
      use of the credential is on record. */
  predicate Closed(s: Ledger, b: Budget) {
    var wake := Bound(s, b.mode, b.id);
    || (wake.Some? && b.Covers(wake.value) && Final(wake.value))
    || (b.mode == Initial && BoundTo(s, b.id).usage.Some?)
  }

  lemma UsageKnown(cfg: Cfg, s: Ledger, id: string)
    requires Kept(cfg, s)
    ensures BoundTo(s, id).usage.Some? ==>
              BoundTo(s, id).usage.value.identityHash == id && KnownUsage(BoundTo(s, id).usage.value.status)
  {
  }

  lemma ClosedTryInitial(cfg: Cfg, s: Ledger, now: Time, saved: bool, b: Budget)
    requires Setting(cfg, b) && Inv(cfg, s) && Focus(s, b) && s.pc.InitialTurn? && Closed(s, b)
    ensures var t := Step(cfg, s, TryInitial(now, saved)); Closed(t, b) && !Flying(t, b)
  {
    CountsStayPositive(cfg, s, b.id);
    UsageKnown(cfg, s, b.id);
    if Step(cfg, s, TryInitial(now, saved)).pc.Requesting? {
      WakeSave(cfg, s, s.pc.obs, PendingRecord(s.pc.obs, Initial, "", now), Initial);
    }
  }

  lemma ClosedTryReset(cfg: Cfg, s: Ledger, now: Time, saved: bool, b: Budget)
    requires Setting(cfg, b) && Lawful(cfg.enc) && Inv(cfg, s) && Focus(s, b) && s.pc.ResetTurn? && Closed(s, b)
    requires Keeps(cfg, s, TryReset(now, saved), b)
    ensures var t := Step(cfg, s, TryReset(now, saved)); Closed(t, b) && !Flying(t, b)
  {
    CountsStayPositive(cfg, s, b.id);
    var t := Step(cfg, s, TryReset(now, saved));
    if t.pc.Requesting? {
      var obs := s.pc.obs;
      KeyFits(cfg.enc, b.id, obs.quota.value.resetAt, obs.quota.value.windows);
      ClosedAnnounceReset(cfg, s, obs, now, b);
    }
  }

  /** Only a wake of another budget can be announced. */
  lemma ClosedAnnounceReset(cfg: Cfg, s: Ledger, obs: CredentialObservation, now: Time, b: Budget)
    requires Setting(cfg, b) && Kept(cfg, s) && Agrees(cfg, s, obs, {Reset}) && obs.identityHash == b.id && Closed(s, b)
    requires EligibleReset(cfg.enc, obs, b.id, now) && |KeyOf(cfg.enc, obs)| <= 256
    requires b.mode == Reset ==> b.key == KeyOf(cfg.enc, obs)
    ensures var t := Announce(cfg, s, obs, Reset, KeyOf(cfg.enc, obs), now, true); Closed(t, b) && !Flying(t, b)
  {
    if b.mode == Reset {
      ClosedIsNotEligible(cfg, s, obs, now, b);
      assert false;
    }
    PendingCount(cfg, s, obs, Reset, KeyOf(cfg.enc, obs), now);
    PendingSaved(cfg, s, obs, Reset, KeyOf(cfg.enc, obs), now);
  }

  lemma ClosedIsNotEligible(cfg: Cfg, s: Ledger, obs: CredentialObservation, now: Time, b: Budget)
    requires Setting(cfg, b) && b.mode == Reset && Kept(cfg, s) && Agrees(cfg, s, obs, {Reset}) && obs.identityHash == b.id
    requires Closed(s, b) && b.key == KeyOf(cfg.enc, obs)
    ensures !EligibleReset(cfg.enc, obs, b.id, now)
  {
    CountsStayPositive(cfg, s, b.id);
  }

  lemma ClosedRecord(cfg: Cfg, s: Ledger, saved: bool, b: Budget)
    requires Setting(cfg, b) && Inv(cfg, s) && Focus(s, b) && s.pc.Recording? && Closed(s, b)
    ensures Closed(RecordTurn(cfg, s, saved), b)
  {
    if saved {
      var record, mode := s.pc.record, s.pc.mode;
      WakeSave(cfg, s, s.pc.obs, record, mode);
      KeepsIdentity(record, mode);
      CountSurvives(record, mode);
    }
  }

  lemma ClosedStep(cfg: Cfg, s: Ledger, e: Event, b: Budget)
    requires Setting(cfg, b) && Lawful(cfg.enc) && Inv(cfg, s) && Focus(s, b) && Keeps(cfg, s, e, b)
    requires Closed(s, b) && !Flying(s, b)
    ensures Closed(Step(cfg, s, e), b) && !Flying(Step(cfg, s, e), b)
  {
    if e.TryInitial? {
      if s.pc.InitialTurn? {
        ClosedTryInitial(cfg, s, e.now, e.saved, b);
      }
    } else if e.TryReset? {
      if s.pc.ResetTurn? {
        ClosedTryReset(cfg, s, e.now, e.saved, b);
      }
    } else if e.Record? {
      if s.pc.Recording? {
        ClosedRecord(cfg, s, e.saved, b);
      }
    } else if IsWriter(e) {
      WriterStep(cfg, s, e, b);
    } else if e.Load? {
      if s.pc.Idle? {
        LoadStep(cfg, s, e, b);
      }
    } else if e.Send? {
      if s.pc.Requesting? {
        SendStep(cfg, s, e, b);
      }
    } else {
      MoveStep(cfg, s, e, b);
    }
  }

  /** Once closed on disk, no run sends another request of this budget. */
  lemma {:induction false} ClosedForGood(cfg: Cfg, s: Ledger, es: seq<Event>, b: Budget)
    requires Setting(cfg, b) && Lawful(cfg.enc) && Inv(cfg, s) && Focus(s, b) && KeepsRun(cfg, s, es, b)
    requires Closed(s, b) && !Flying(s, b)
    ensures Sends(cfg, s, es, b) == 0 && Closed(Run(cfg, s, es), b)
    decreases es
  {
    if es != [] {
      StepBudget(cfg, s, es[0], b);
      ClosedStep(cfg, s, es[0], b);
      ClosedForGood(cfg, Step(cfg, s, es[0]), es[1..], b);
    }
  }

  // ---------------------------------------------------------------- a success that was not saved

  /** An attempt that ended in success, at the moment its record is to be saved; a reset wake
      announced the window it works on. */
  predicate JustSucceeded(cfg: Cfg, s: Ledger, b: Budget) {
    && Inv(cfg, s) && Focus(s, b) && s.pc.Recording? && s.pc.mode == b.mode
    && s.pc.record.status == Success && s.pc.record.safeError == "wake_success"
    && (b.mode == Reset ==> s.pc.obs.quota.Some? && s.pc.record.windowKey == b.key == KeyOf(cfg.enc, s.pc.obs))
  }

  lemma SavedSuccessCloses(cfg: Cfg, s: Ledger, b: Budget)
    requires Setting(cfg, b) && JustSucceeded(cfg, s, b)
    ensures Closed(RecordTurn(cfg, s, true), b)
  {
    var record := s.pc.record;
    var t := Saved(s, WakeEntry(cfg, s, s.pc.obs, record, b.mode), true);
    WakeSave(cfg, s, s.pc.obs, record, b.mode);
    SuccessSurvives(record, b.mode);
    FinalCloses(t, RecordTurn(cfg, s, true), b);
  }

  lemma FinalCloses(s: Ledger, t: Ledger, b: Budget)
    requires t.stored == s.stored && Bound(s, b.mode, b.id).Some?
    requires b.Covers(Bound(s, b.mode, b.id).value) && Final(Bound(s, b.mode, b.id).value)
    ensures Closed(t, b)
  {
  }

  lemma SuccessSurvives(record: WakeupRecord, mode: WakeMode)
    requires record.mode == mode && record.status == Success && record.safeError == "wake_success"
    requires |record.identityHash| <= 128 && |record.windowKey| <= 256
    ensures SafeWakeupRecord(record, mode).status == Success && SafeWakeupRecord(record, mode).windowKey == record.windowKey
  {
    KnownCode("wake_success");
  }

  /** Three events after which a request that was pending is sent again. */
  function RetryRun(id: string, wake: WakeupRecord): seq<Event> {
    var later := wake.attemptedAt + PENDING_LEASE;
    var now := if wake.nextAttemptAt > later then wake.nextAttemptAt else later;
    [Load(id, false, true, None), TryInitial(now, true), Send(WakeResult(true, false, ""), now)]
  }

  lemma RetrySends(cfg: Cfg, s: Ledger, b: Budget)
    requires Setting(cfg, b) && b.mode == Initial && cfg.initialEnabled && Kept(cfg, s) && s.pc.Idle?
    requires BoundTo(s, b.id).usage.None?
    requires var wake := Bound(s, Initial, b.id); wake.Some? && wake.value.status == Pending && wake.value.attemptCount < MAX_WAKE_ATTEMPTS
    ensures var es := RetryRun(b.id, Bound(s, Initial, b.id).value);
            KeepsRun(cfg, s, es, b) && Sends(cfg, s, es, b) == 1
  {
    var wake := Bound(s, Initial, b.id).value;
    var es := RetryRun(b.id, wake);
    var s1 := Step(cfg, s, es[0]);
    assert s1.pc.InitialTurn? && s1.pc.obs.initialWakeup == Some(wake) && s1.pc.obs.usage == None && s1.pc.obs.identityHash == b.id;
    assert MayRetry(wake, es[1].now);
    var s2 := Step(cfg, s1, es[1]);
    assert s2.pc.Requesting? && s2.pc.mode == Initial;
    ThreeSteps(cfg, s, s1, s2, es, b);
  }

  /** A load, a turn that announces, and the request. */
  lemma ThreeSteps(cfg: Cfg, s: Ledger, s1: Ledger, s2: Ledger, es: seq<Event>, b: Budget)
    requires |es| == 3 && es[0].Load? && Carries(es[0], b.id) && es[1].TryInitial? && es[2].Send? && b.mode == Initial
    requires s1 == Step(cfg, s, es[0]) && s2 == Step(cfg, s1, es[1])
    requires !s1.pc.Requesting? && s2.pc.Requesting? && s2.pc.mode == Initial
    ensures KeepsRun(cfg, s, es, b) && Sends(cfg, s, es, b) == 1
  {
    assert es[1..] == [es[1], es[2]] && es[1..][1..] == [es[2]] && [es[2]][1..] == [];
    assert Sends(cfg, s2, [es[2]], b) == 1 + Sends(cfg, Step(cfg, s2, es[2]), [], b);
    assert Sends(cfg, s1, es[1..], b) == Sends(cfg, s2, [es[2]], b);
    assert KeepsRun(cfg, s2, [es[2]], b);
    assert KeepsRun(cfg, s1, es[1..], b);
  }

  /** After a success no further initial wake is ever sent, exactly when the success was
      saved, or the attempt was the third, or other use of the credential is on record. */
  lemma SuccessIsFinal(cfg: Cfg, s: Ledger, saved: bool, b: Budget)
    requires Setting(cfg, b) && Lawful(cfg.enc) && JustSucceeded(cfg, s, b) && b.mode == Initial && cfg.initialEnabled
    ensures (forall es :: KeepsRun(cfg, RecordTurn(cfg, s, saved), es, b) ==> Sends(cfg, RecordTurn(cfg, s, saved), es, b) == 0)
            <==> saved || Used(s, b) >= MAX_WAKE_ATTEMPTS || BoundTo(s, b.id).usage.Some?
  {
    var t := RecordTurn(cfg, s, saved);
    RecordStep(cfg, s, saved, b);
    if saved || Used(s, b) >= MAX_WAKE_ATTEMPTS || BoundTo(s, b.id).usage.Some? {
      if saved {
        SavedSuccessCloses(cfg, s, b);
      }
      forall es | KeepsRun(cfg, t, es, b)
        ensures Sends(cfg, t, es, b) == 0
      {
        ClosedForGood(cfg, t, es, b);
      }
    } else {
      RetrySends(cfg, t, b);
    }
  }

  // ---------------------------------------------------------------- an index too long to be stored

  /** One undisturbed scan of a credential nothing is known about. */
  function OneScan(id: string): seq<Event> {
    [Load(id, false, true, None), TryInitial(0, true), Send(WakeResult(false, true, "wake_success"), 0),
     Record(true), Refresh(0, None), TryReset(0, true)]
  }

  /** Every save drops the observation of an overlong index, so every scan sends a wake. */
  lemma OverlongScan(cfg: Cfg, b: Budget)
    requires |cfg.index| > 256 && HashText(b.id) && b.mode == Initial && cfg.initialEnabled
    ensures var es := OneScan(b.id);
            KeepsRun(cfg, Start, es, b) && Sends(cfg, Start, es, b) == 1 && Run(cfg, Start, es) == Start
  {
    var es := OneScan(b.id);
    var s1 := Step(cfg, Start, es[0]);
    var obs := CredentialObservation(cfg.index, b.id, None, None, None, None, None);
    assert s1 == Ledger(None, InitialTurn(false, obs));
    var s2 := Step(cfg, s1, es[1]);
    assert s2 == Ledger(None, Requesting(Initial, obs, PendingRecord(obs, Initial, "", 0)));
    var s3 := Step(cfg, s2, es[2]);
    assert s3.stored == None && s3.pc.Recording? && s3.pc.mode == Initial && s3.pc.obs == obs;
    var s4 := Step(cfg, s3, es[3]);
    assert s4 == Ledger(None, BetweenTurns(obs));
    var s5 := Step(cfg, s4, es[4]);
    assert s5 == Ledger(None, ResetTurn(obs));
    var s6 := Step(cfg, s5, es[5]);
    assert s6 == Start;
    TailFacts(cfg, s3, s4, s5, es, b);
    assert es[1..][0] == es[1] && es[1..][1..] == es[2..] && es[2..][0] == es[2] && es[2..][1..] == es[3..];
    HeadFacts(cfg, s1, s2, s3, es, b);
  }

  lemma TailFacts(cfg: Cfg, s3: Ledger, s4: Ledger, s5: Ledger, es: seq<Event>, b: Budget)
    requires |es| == 6 && es[3].Record? && es[4].Refresh? && es[5].TryReset?
    requires s4 == Step(cfg, s3, es[3]) && s5 == Step(cfg, s4, es[4]) && Start == Step(cfg, s5, es[5])
    requires s4.pc.BetweenTurns? && s5.pc.ResetTurn?
    ensures KeepsRun(cfg, s3, es[3..], b) && Sends(cfg, s3, es[3..], b) == 0 && Run(cfg, s3, es[3..]) == Start
  {
    assert es[3..][0] == es[3] && es[3..][1..] == es[4..] && es[4..][0] == es[4] && es[4..][1..] == es[5..];
    assert es[5..][0] == es[5] && es[5..][1..] == [];
    assert KeepsRun(cfg, s5, es[5..], b) && Sends(cfg, s5, es[5..], b) == 0 && Run(cfg, s5, es[5..]) == Start;
    assert KeepsRun(cfg, s4, es[4..], b) && Sends(cfg, s4, es[4..], b) == 0 && Run(cfg, s4, es[4..]) == Start;
  }

  lemma HeadFacts(cfg: Cfg, s1: Ledger, s2: Ledger, s3: Ledger, es: seq<Event>, b: Budget)
    requires |es| == 6 && es[0].Load? && Carries(es[0], b.id) && es[1].TryInitial? && es[2].Send? && b.mode == Initial
    requires s1 == Step(cfg, Start, es[0]) && s2 == Step(cfg, s1, es[1]) && s3 == Step(cfg, s2, es[2])
    requires s1.pc.InitialTurn? && s2.pc.Requesting? && s2.pc.mode == Initial && s3.pc.Recording?
    requires KeepsRun(cfg, s3, es[3..], b) && Sends(cfg, s3, es[3..], b) == 0 && Run(cfg, s3, es[3..]) == Start
    ensures KeepsRun(cfg, Start, es, b) && Sends(cfg, Start, es, b) == 1 && Run(cfg, Start, es) == Start
  {
    assert es[2..][0] == es[2] && es[2..][1..] == es[3..];
    assert es[1..][0] == es[1] && es[1..][1..] == es[2..];
    assert KeepsRun(cfg, s2, es[2..], b) && Sends(cfg, s2, es[2..], b) == 1 && Run(cfg, s2, es[2..]) == Start;
    assert KeepsRun(cfg, s1, es[1..], b) && Sends(cfg, s1, es[1..], b) == 1 && Run(cfg, s1, es[1..]) == Start;
  }

  function Scans(id: string, n: nat): seq<Event> {
    if n == 0 then [] else OneScan(id) + Scans(id, n - 1)
  }

  lemma {:induction false} RunsJoin(cfg: Cfg, s: Ledger, es: seq<Event>, fs: seq<Event>, b: Budget)
    ensures Run(cfg, s, es + fs) == Run(cfg, Run(cfg, s, es), fs)
    ensures Sends(cfg, s, es + fs, b) == Sends(cfg, s, es, b) + Sends(cfg, Run(cfg, s, es), fs, b)
    ensures KeepsRun(cfg, s, es + fs, b) <==> KeepsRun(cfg, s, es, b) && KeepsRun(cfg, Run(cfg, s, es), fs, b)
    decreases es
  {
    if es == [] {
      assert es + fs == fs;
    } else {
      assert (es + fs)[0] == es[0] && (es + fs)[1..] == es[1..] + fs;
      RunsJoin(cfg, Step(cfg, s, es[0]), es[1..], fs, b);
    }
  }

  lemma {:induction false} OverlongScans(cfg: Cfg, b: Budget, n: nat)
    requires |cfg.index| > 256 && HashText(b.id) && b.mode == Initial && cfg.initialEnabled
    ensures KeepsRun(cfg, Start, Scans(b.id, n), b) && Sends(cfg, Start, Scans(b.id, n), b) == n
  {
    if n > 0 {
      OverlongScan(cfg, b);
      OverlongScans(cfg, b, n - 1);
      RunsJoin(cfg, Start, OneScan(b.id), Scans(b.id, n - 1), b);
    }
  }

  /** The budget of three holds over every run exactly when the index is short enough for
      its observation to be stored. */
  lemma BudgetNeedsShortIndex(cfg: Cfg, b: Budget)
    requires Lawful(cfg.enc) && HashText(b.id) && b.mode == Initial && cfg.initialEnabled && !Blank(cfg.index)
    ensures (forall es :: KeepsRun(cfg, Start, es, b) ==> Sends(cfg, Start, es, b) <= MAX_WAKE_ATTEMPTS)
            <==> |cfg.index| <= 256
  {
    if |cfg.index| <= 256 {
      forall es | KeepsRun(cfg, Start, es, b)
        ensures Sends(cfg, Start, es, b) <= MAX_WAKE_ATTEMPTS
      {
        ThreeRequests(cfg, es, b);
      }
    } else {
      OverlongScans(cfg, b, 4);
    }
  }
}
