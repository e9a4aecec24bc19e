/** Every action of the protocol keeps the invariant, hence both safety results hold in
    every reachable state. */
module OwnershipSafety {
  import opened Basics
  import opened Protocol
  import opened OwnershipInvariant

  lemma GoesTo(c: Cell, t: Tid, pc: PC)
    requires Inv(c) && Holds(c, t) && !Unlocked(pc) && HolderOk(c, c.threads[t].(pc := pc))
    ensures Inv(Goto(c, t, pc))
  {
    Moves(c, Goto(c, t, pc), t);
  }

  lemma Leaves(c: Cell, t: Tid, exit: Exit)
    requires Inv(c) && Holds(c, t)
    ensures Inv(Leave(c, t, exit))
  {
    assert ThreadOk(c, t);
    GoesTo(c, t, Leaving(exit));
  }

  lemma Reviews(c: Cell, t: Tid, reason: Reason)
    requires Inv(c) && Holds(c, t)
    ensures Inv(Goto(c, t, Reviewing(reason)))
  {
    assert ThreadOk(c, t);
    GoesTo(c, t, Reviewing(reason));
  }

  lemma Retires(c: Cell, t: Tid)
    requires Inv(c) && Holds(c, t) && !Unconfirmed(c)
    ensures Inv(Goto(c, t, Retiring))
  {
    assert ThreadOk(c, t);
    GoesTo(c, t, Retiring);
  }

  lemma BackedOk(c: Cell, rec: Rec, now: Time, reason: Reason)
    requires VersionOk(c, rec)
    ensures VersionOk(c, Backed(c.cfg, rec, now, reason))
    ensures Twin(c, rec) ==> Twin(c, Backed(c.cfg, rec, now, reason))
  {
  }

  lemma MutFailedInv(c: Cell, t: Tid, m: Mutation, err: MutErr, now: Time)
    requires Inv(c) && Holds(c, t)
    requires m.EnableMut? ==> c.record == Some(m.pending)
    ensures Inv(MutFailed(c, t, m, err, now))
  {
    assert ThreadOk(c, t);
    match m
    case EnableMut(_, pending) =>
      if err == OtherError {
        BackedOk(c, pending, now, RecoveryError);
        GoesTo(c, t, Backing(Backed(c.cfg, pending, now, RecoveryError)));
      } else if err == ContextCanceled {
        Leaves(c, t, Canceled);
      } else {
        Reviews(c, t, OwnershipGuardFailed);
      }
    case RedisableMut(_, _) => Reviews(c, t, RedisableFailed);
    case DisableMut(_, _) => Leaves(c, t, Failed);
  }

  lemma SawRevision(c: Cell, rev: Rev)
    requires OriginOk(c) && c.Host().Some? && c.Host().value.rev == rev
    ensures rev in c.origin && c.origin[rev] == LastWrite(c)
  {
  }

  lemma BeforeReadyInv(c: Cell, t: Tid, m: Mutation, s: Snap, now: Time)
    requires Inv(c) && Holds(c, t) && MutOk(c, c.threads[t].job, m) && SnapIsHost(c, s)
    ensures Inv(BeforeReady(c, t, m, s, now))
  {
    assert ThreadOk(c, t);
    if !s.HasRev() {
      MutFailedInv(c, t, m, RevisionUnavailable, now);
    } else if !m.Guard(s) {
      MutFailedInv(c, t, m, RevisionMismatch, now);
    } else if s.flag == Bool(m.Target()) {
      // With fresh revisions the guard pins the plugin's own write, whose value differs.
      SawRevision(c, s.Rev());
      if m.DisableMut? {
        Leaves(c, t, Done);
      }
    } else {
      GoesTo(c, t, Saving(m, s));
    }
  }

  lemma AfterReadyInv(c: Cell, t: Tid, m: Mutation, before: Snap, s: Snap, now: Time)
    requires Inv(c) && Holds(c, t) && SavedOk(c, c.threads[t].job, m, before) && SnapIsHost(c, s)
    ensures Inv(AfterReady(c, t, m, before, s, now))
  {
    assert ThreadOk(c, t);
    if !s.HasRev() || s.Rev() == before.Rev() || s.flag.Disabled() != m.Target() {
      MutFailedInv(c, t, m, OtherError, now);
    } else {
      SawRevision(c, s.Rev());
      match m
      case EnableMut(_, pending) => GoesTo(c, t, SetProbePending(pending, s));
      case RedisableMut(rec, reason) =>
        var level := NextLevel(rec.level);
        GoesTo(c, t, FinishDisabled(s, level, now + Delay(c.cfg, level), reason));
      case DisableMut(_, _) => QuotaDoneInv(c, t, before, s, now);
    }
  }

  lemma NewAttemptExclusive(c: Cell)
    requires Inv(c)
    ensures Exclusive(c.threads, c.nextAttempt)
  {
    forall u ensures CannotWrite(c.threads, u, c.nextAttempt) {
      assert ThreadOk(c, u);
    }
  }

  lemma QuotaDoneInv(c: Cell, t: Tid, before: Snap, s: Snap, now: Time)
    requires Inv(c) && Holds(c, t) && c.record.None? && c.threads[t].job.QuotaJob?
    requires s.HasRev() && SnapIsHost(c, s) && LastWrite(c).kind.PluginDisable? && before.body == s.body
    ensures Inv(MutDone(c, t, DisableMut(0, 0), before, s, true, now))
  {
    assert ThreadOk(c, t);
    SawRevision(c, s.Rev());
    var rec := QuotaRec(c, c.threads[t].job, before, s, now);
    var d := Goto(c.(nextAttempt := c.nextAttempt + 1), t, QuotaRecord(rec));
    NewAttemptExclusive(c);
    Moves(c, d, t);
  }

  lemma UnconfirmedIsEnabled(c: Cell)
    requires Inv(c) && Unconfirmed(c)
    ensures c.Host().Some? && c.Host().value.flag == Bool(false)
    ensures c.record.Some? && Guarding(c, c.record.value)
  {
    assert EntryOk(c.log, |c.log| - 1);
  }

  lemma StartRecoveryInv(c: Cell, t: Tid, rec: Rec, s: Snap)
    requires Inv(c) && Holds(c, t) && VersionOk(c, rec) && SessionRec(c, rec)
    requires !Unconfirmed(c)
    requires s.HasRev() ==> c.Host().Some? && s.Rev() == c.Host().value.rev && s.Id() == c.Host().value.id && s.name == c.Host().value.name
    requires rec.authId == "" || s.Id() == "" || s.Id() == rec.authId
    requires rec.authId != "" && s.runtime.Some? ==> s.Id() != ""
    requires rec.fileName == "" || s.name == rec.fileName
    ensures Inv(StartRecovery(c, t, rec, s))
  {
    assert ThreadOk(c, t);
    if !s.flag.Disabled() {
      Retires(c, t);
    } else if rec.saveRev.None? || !s.HasRev() {
      Reviews(c, t, DisableRevisionUnavailable);
    } else if s.body != rec.hash || s.Rev() != rec.saveRev.value {
      Retires(c, t);
    } else {
      GoesTo(c, t, WriteAhead(rec));
    }
  }

  lemma ProcessReadyInv(c: Cell, t: Tid, rec: Rec, s: Snap)
    requires Inv(c) && Holds(c, t) && VersionOk(c, rec) && SessionRec(c, rec) && rec.phase != ManualReview
    requires Unconfirmed(c) ==> SawHost(c, s.flag, s.body, s.name)
    requires s.runtime.Some? ==> c.Host().Some? && s.name == c.Host().value.name && s.Id() == c.Host().value.id
    requires s.HasRev() ==> s.Rev() == c.Host().value.rev
    ensures Inv(ProcessReady(c, t, rec, s))
  {
    assert ThreadOk(c, t);
    if Unconfirmed(c) {
      UnconfirmedIsEnabled(c);
    }
    if (rec.authId != "" && s.Id() != "" && s.Id() != rec.authId) || (rec.fileName != "" && s.name != rec.fileName) {
      Retires(c, t);
    } else if rec.authId != "" && s.runtime.Some? && s.Id() == "" {
      Reviews(c, t, OwnershipGuardFailed);
    } else {
      match rec.phase
      case OwnedDisabled => StartRecoveryInv(c, t, rec, s);
      case RestorePending =>
        if s.flag.Disabled() {
          StartRecoveryInv(c, t, rec, s);
        } else {
          Reviews(c, t, UnverifiablePendingEnable);
        }
      case ProbePending =>
        if !s.HasRev() {
          Reviews(c, t, PostEnableGuardUnavailable);
        } else {
          if Unconfirmed(c) {
            SawRevision(c, s.Rev());
          }
          if s.flag.Disabled() || !GuardMatchesPostEnable(s, rec) {
            Retires(c, t);
          } else {
            GoesTo(c, t, Probing(rec, s));
          }
        }
      case ManualReview =>
    }
  }

  lemma GuardedRereadInv(c: Cell, t: Tid, rec: Rec, s: Snap, next: PC)
    requires Inv(c) && Holds(c, t) && ProbeRec(c, rec)
    requires Unconfirmed(c) ==> SnapIsHost(c, s)
    ensures var d := GuardedReread(c, t, rec, s, next);
            if GuardMatchesPostEnable(s, rec) then d == Goto(c, t, next) else Inv(d) && d.threads[t].pc in {Retiring, Reviewing(PostEnableGuardUnavailable)}
  {
    if Unconfirmed(c) {
      UnconfirmedIsEnabled(c);
      if s.HasRev() {
        SawRevision(c, s.Rev());
      }
    }
    if !s.HasRev() {
      Reviews(c, t, PostEnableGuardUnavailable);
    } else if s.flag.Disabled() || !GuardMatchesPostEnable(s, rec) {
      Retires(c, t);
    }
  }

  lemma ConfirmInv(c: Cell, t: Tid, rec: Rec)
    requires Inv(c) && Holds(c, t) && ProbeRec(c, rec)
    ensures Inv(Goto(c, t, RecordHealth).(confirmed := c.confirmed + {rec.attempt}))
  {
    assert ThreadOk(c, t);
    Moves(c, Goto(c, t, RecordHealth).(confirmed := c.confirmed + {rec.attempt}), t);
  }

  lemma QuotaReadyInv(c: Cell, t: Tid, s: Snap)
    requires Inv(c) && Holds(c, t) && c.threads[t].job.QuotaJob? && (s.HasRev() ==> s.Rev() in c.origin)
    ensures Inv(QuotaReady(c, t, s))
  {
    assert ThreadOk(c, t);
    var usageId := c.threads[t].job.usageId;
    if (usageId != "" && (s.Id() == "" || TrimSpace(usageId) != TrimSpace(s.Id()))) || s.flag.Disabled() {
      Leaves(c, t, Done);
    } else if !s.HasRev() {
      Leaves(c, t, Failed);
    } else {
      GoesTo(c, t, QuotaLoad(s));
    }
  }

  lemma SnapReadyInv(c: Cell, t: Tid, k: Cont, s: Snap, now: Time)
    requires Inv(c) && Holds(c, t) && ContOk(c, c.threads[t].job, k)
    requires k.Before? || k.After? || Unconfirmed(c) ==> SawHost(c, s.flag, s.body, s.name)
    requires s.runtime.Some? ==> c.Host().Some? && s.name == c.Host().value.name && s.Id() == c.Host().value.id
    requires s.HasRev() ==> s.Rev() == c.Host().value.rev
    ensures Inv(SnapReady(c, t, k, s, now))
  {
    match k
    case ProcessSnap(rec) => ProcessReadyInv(c, t, rec, s);
    case ProbeOk(rec) =>
      GuardedRereadInv(c, t, rec, s, RecordHealth);
      ConfirmInv(c, t, rec);
    case FailSnap(rec, reason) =>
      var next := ReadJSON(Before(RedisableMut(rec, reason)));
      GuardedRereadInv(c, t, rec, s, next);
      if GuardMatchesPostEnable(s, rec) {
        assert ThreadOk(c, t);
        GoesTo(c, t, next);
      }
    case QuotaSnap => QuotaReadyInv(c, t, s);
    case Before(m) => BeforeReadyInv(c, t, m, s, now);
    case After(m, before) => AfterReadyInv(c, t, m, before, s, now);
  }

  lemma SnapFailedInv(c: Cell, t: Tid, k: Cont, canceled: bool, now: Time)
    requires Inv(c) && Holds(c, t) && ContOk(c, c.threads[t].job, k)
    ensures Inv(SnapFailed(c, t, k, canceled, now))
  {
    match k
    case Before(m) => MutFailedInv(c, t, m, if canceled then ContextCanceled else OtherError, now);
    case After(m, _) => MutFailedInv(c, t, m, OtherError, now);
    case _ => Leaves(c, t, if canceled then Canceled else Failed);
  }

  lemma GetInv(c: Cell, t: Tid, now: Time, res: Exit)
    requires Inv(c) && t in c.threads && c.threads[t].pc.ReadJSON?
    ensures Inv(GetStep(c, t, now, res))
  {
    assert ThreadOk(c, t);
    var k := c.threads[t].pc.k;
    if res != Done || c.Host().None? {
      SnapFailedInv(c, t, k, res == Canceled, now);
    } else {
      var h := c.Host().value;
      GoesTo(c, t, ReadRuntime(k, h.flag, h.body, h.name));
    }
  }

  lemma GetRuntimeInv(c: Cell, t: Tid, now: Time, answer: RuntimeAnswer)
    requires Inv(c) && t in c.threads && c.threads[t].pc.ReadRuntime?
    ensures Inv(GetRuntimeStep(c, t, now, answer))
  {
    assert ThreadOk(c, t);
    var pc := c.threads[t].pc;
    if answer == RuntimeFails || c.Host().None? {
      SnapReadyInv(c, t, pc.k, Snap(pc.flag, pc.body, pc.name, None), now);
    } else {
      var h := c.Host().value;
      if h.name != pc.name {
        SnapFailedInv(c, t, pc.k, false, now);
      } else {
        var rev := if answer == RuntimeOk then Some(h.rev) else None;
        SnapReadyInv(c, t, pc.k, Snap(pc.flag, pc.body, pc.name, Some(Runtime(h.id, rev))), now);
      }
    }
  }

  lemma ProbeInv(c: Cell, t: Tid, available: bool, success: bool, reason: Reason)
    requires Inv(c) && t in c.threads && c.threads[t].pc.Probing?
    ensures Inv(ProbeStep(c, t, available, success, reason))
  {
    assert ThreadOk(c, t);
    var rec, s := c.threads[t].pc.rec, c.threads[t].pc.snap;
    if !available {
      GoesTo(c, t, ReadJSON(FailSnap(rec, ProbeUnavailable)));
    } else {
      ProbedInv(c, t, rec, s, if success then ReadJSON(ProbeOk(rec)) else ReadJSON(FailSnap(rec, reason)));
    }
  }

  lemma ProbedInv(c: Cell, t: Tid, rec: Rec, s: Snap, next: PC)
    requires Inv(c) && t in c.threads && c.threads[t].pc == Probing(rec, s)
    requires next == ReadJSON(ProbeOk(rec)) || (next.ReadJSON? && next.k.FailSnap? && next.k.rec == rec)
    ensures Inv(GuardedReread(c, t, rec, s, next))
  {
    assert ThreadOk(c, t);
    GuardedRereadInv(c, t, rec, s, next);
    if GuardMatchesPostEnable(s, rec) {
      GoesTo(c, t, next);
    }
  }

  // ------------------------------------------------- actions outside the lock

  /** A goroutine outside the lock appears, moves or ends; the stores stay. */
  lemma UnlockedMoves(c: Cell, d: Cell, t: Tid)
    requires Inv(c) && !Holds(c, t) && OthersKept(c, d, t)
    requires d == c.(threads := d.threads)
    requires t in d.threads ==> Unlocked(d.threads[t].pc) && Loose(d, d.threads[t])
    requires StillExclusive(c, d.threads)
    ensures Inv(d)
  {
    forall u ensures Holds(d, u) ==> Holds(c, u) {
      assert u == t || Kept(c, d, u);
    }
    forall u ensures ThreadOk(d, u) {
      if u != t && u in d.threads {
        assert Kept(c, d, u) && ThreadOk(c, u);
        if Unlocked(c.threads[u].pc) {
          LooseFrame(c, d, c.threads[u]);
        } else {
          HolderOkThreads(c, d.threads, c.threads[u]);
        }
      }
    }
  }

  lemma ExclusiveWithout(c: Cell, t: Tid)
    ensures StillExclusive(c, Remove(c, t).threads)
  {
    forall a, u | Exclusive(c.threads, a) ensures CannotWrite(Remove(c, t).threads, u, a) {
      assert CannotWrite(c.threads, u, a);
    }
  }

  lemma KeptWithout(c: Cell, t: Tid)
    ensures OthersKept(c, Remove(c, t), t)
  {
    forall u | u != t ensures Kept(c, Remove(c, t), u) {
    }
  }

  lemma EndsInv(c: Cell, t: Tid)
    requires Inv(c) && !Holds(c, t)
    ensures Inv(Remove(c, t))
  {
    ExclusiveWithout(c, t);
    KeptWithout(c, t);
    UnlockedMoves(c, Remove(c, t), t);
  }

  lemma BeginInv(c: Cell, t: Tid, job: Job, now: Time)
    requires Inv(c) && MayBegin(c, t, job, now)
    ensures Inv(c.(threads := c.threads[t := Thread(job, WantLock)]))
  {
    var d := c.(threads := c.threads[t := Thread(job, WantLock)]);
    forall u | u != t ensures Kept(c, d, u) {
    }
    forall a, u | Exclusive(c.threads, a) ensures CannotWrite(d.threads, u, a) {
      assert CannotWrite(c.threads, u, a);
    }
    UnlockedMoves(c, d, t);
  }

  lemma ErrLoadInv(c: Cell, t: Tid, now: Time)
    requires Inv(c) && t in c.threads && c.threads[t].pc.ErrLoad?
    ensures Inv(LoadStep(c, t, now))
  {
    assert ThreadOk(c, t);
    var d := LoadStep(c, t, now);
    if t !in d.threads {
      EndsInv(c, t);
    } else {
      BackedOk(c, c.record.value, now, HostError);
      forall u | u != t ensures Kept(c, d, u) {
      }
      forall a, u | Exclusive(c.threads, a) ensures CannotWrite(d.threads, u, a) {
        assert CannotWrite(c.threads, u, a) && CannotWrite(c.threads, t, a);
      }
      UnlockedMoves(c, d, t);
    }
  }

  lemma LockInv(c: Cell, t: Tid)
    requires Inv(c) && t in c.threads
    ensures Inv(LockStep(c, t))
  {
    var d := LockStep(c, t);
    if d != c {
      assert ThreadOk(c, t);
      forall u ensures ThreadOk(d, u) {
        if u != t && u in d.threads {
          assert !Holds(c, u) && ThreadOk(c, u);
          LooseFrame(c, d, c.threads[u]);
        }
      }
      forall u | Holds(d, u) ensures u == t {
        assert u == t || Holds(c, u);
      }
    }
  }

  lemma UnlockInv(c: Cell, t: Tid)
    requires Inv(c) && t in c.threads && c.threads[t].pc.Leaving?
    ensures Inv(UnlockStep(c, t))
  {
    var d := UnlockStep(c, t);
    assert ThreadOk(c, t) && Holds(c, t);
    if c.record.Some? {
      VersionFrame(c, d, c.record.value);
    }
    LeaverOk(c, t);
    forall u ensures ThreadOk(d, u) && !Holds(d, u) {
      if u != t && u in d.threads {
        OtherUnlocked(c, d, t, u);
      }
    }
  }

  lemma LeaverOk(c: Cell, t: Tid)
    requires Holds(c, t) && ThreadOk(c, t) && c.threads[t].pc.Leaving?
    ensures ThreadOk(UnlockStep(c, t), t) && !Holds(UnlockStep(c, t), t)
  {
  }

  lemma OtherUnlocked(c: Cell, d: Cell, t: Tid, u: Tid)
    requires LockOk(c) && Holds(c, t) && u != t && ThreadOk(c, u) && u in c.threads && u in d.threads
    requires d.threads[u] == c.threads[u] && d == c.(threads := d.threads, token := d.token)
    ensures ThreadOk(d, u) && !Holds(d, u)
  {
    assert !Holds(c, u);
    LooseFrame(c, d, c.threads[u]);
  }

  // ------------------------------------------------- reads of the state store

  lemma LoadInv(c: Cell, t: Tid, now: Time)
    requires Inv(c) && t in c.threads
    ensures Inv(LoadStep(c, t, now))
  {
    assert ThreadOk(c, t);
    match c.threads[t].pc
    case Loading => FirstLoadInv(c, t, now);
    case LoadPending(rec) => GoesTo(c, t, ReadJSON(Before(EnableMut(rec, c.record.value))));
    case LoadProbe(after) => GoesTo(c, t, Probing(c.record.value, after));
    case QuotaLoad(snap) => QuotaLoadInv(c, t, now);
    case ErrLoad => ErrLoadInv(c, t, now);
    case _ =>
  }

  lemma FirstLoadInv(c: Cell, t: Tid, now: Time)
    requires Inv(c) && t in c.threads && c.threads[t].pc.Loading?
    ensures Inv(LoadStep(c, t, now))
  {
    assert ThreadOk(c, t);
    if c.record.None? || !Due(c.record.value, now) || c.record.value.phase == ManualReview || !c.record.value.wasEnabled {
      Leaves(c, t, Done);
    } else {
      GoesTo(c, t, ReadJSON(ProcessSnap(c.record.value)));
    }
  }

  lemma QuotaLoadInv(c: Cell, t: Tid, now: Time)
    requires Inv(c) && t in c.threads && c.threads[t].pc.QuotaLoad?
    ensures Inv(LoadStep(c, t, now))
  {
    assert ThreadOk(c, t);
    var snap := c.threads[t].pc.snap;
    if c.record.Some? || !snap.HasRev() {
      Leaves(c, t, Done);
    } else {
      GoesTo(c, t, ReadJSON(Before(DisableMut(snap.body, snap.Rev()))));
    }
  }

  // ------------------------------------------------- commits of the state store

  /** The holder commits a record and leaves; everyone else's versions stay valid. */
  lemma Commits(c: Cell, d: Cell, t: Tid)
    requires Inv(c) && Holds(c, t)
    requires d.log == c.log && d.origin == c.origin && d.token == c.token
    requires c.nextAttempt <= d.nextAttempt && c.confirmed == d.confirmed
    requires t in d.threads && d.threads == c.threads[t := d.threads[t]]
    requires !Unlocked(d.threads[t].pc) && HolderOk(d, d.threads[t])
    requires StoreOk(d) && forall u :: TwinsOk(d, u)
    ensures Inv(d)
  {
    forall u | u != t ensures Kept(c, d, u) {
    }
    HolderMoves(c, d, t);
  }

  /** Keeping the ids of the current record, or writing none, keeps every twin. */
  lemma TwinsAfter(c: Cell, d: Cell, t: Tid)
    requires Inv(c) && Holds(c, t) && t in d.threads && d.threads == c.threads[t := d.threads[t]] && !Unlocked(d.threads[t].pc)
    requires d.record.Some? ==>
      Exclusive(c.threads, d.record.value.attempt) ||
      (c.record.Some? && c.record.value.attempt == d.record.value.attempt
        && c.record.value.authId == d.record.value.authId && c.record.value.fileName == d.record.value.fileName)
    ensures forall u :: TwinsOk(d, u)
  {
    forall u ensures TwinsOk(d, u) {
      assert ThreadOk(c, u);
      if d.record.Some? && Exclusive(c.threads, d.record.value.attempt) {
        assert CannotWrite(c.threads, u, d.record.value.attempt);
      }
    }
  }

  /** Another version of the current record goes in, and the holder is done. */
  lemma Replaces(c: Cell, t: Tid, v: Rec)
    requires Inv(c) && Holds(c, t) && c.record.Some? && VersionOk(c, v)
    requires v.attempt == c.record.value.attempt && v.authId == c.record.value.authId && v.fileName == c.record.value.fileName
    ensures Inv(Leave(c.(record := Some(v)), t, Done))
  {
    assert ThreadOk(c, t);
    var d := Leave(c.(record := Some(v)), t, Done);
    TwinsAfter(c, d, t);
    VersionFrame(c, d, v);
    Commits(c, d, t);
  }

  /** A new attempt is announced. */
  lemma AnnouncementInv(c: Cell, t: Tid, rec: Rec, pending: Rec)
    requires Inv(c) && Holds(c, t) && c.threads[t].pc == WriteAhead(rec) && c.record.Some?
    requires pending == c.record.value.(phase := RestorePending, attempt := c.nextAttempt, reason := rec.reason)
    ensures Inv(Goto(c.(nextAttempt := c.nextAttempt + 1, record := Some(pending)), t, LoadPending(rec)))
  {
    assert ThreadOk(c, t);
    var d := Goto(c.(nextAttempt := c.nextAttempt + 1, record := Some(pending)), t, LoadPending(rec));
    NewAttemptExclusive(c);
    forall u ensures CannotWrite(d.threads, u, c.nextAttempt) {
      assert CannotWrite(c.threads, u, c.nextAttempt);
    }
    TwinsAfter(c, d, t);
    Commits(c, d, t);
  }

  lemma AttemptDrawn(c: Cell, t: Tid)
    requires Inv(c) && Holds(c, t)
    ensures Inv(Leave(c.(nextAttempt := c.nextAttempt + 1), t, Failed))
  {
    assert ThreadOk(c, t);
    Moves(c, Leave(c.(nextAttempt := c.nextAttempt + 1), t, Failed), t);
  }

  lemma WriteAheadInv(c: Cell, t: Tid, ok: bool)
    requires Inv(c) && t in c.threads && c.threads[t].pc.WriteAhead?
    ensures Inv(CommitStep(c, t, ok))
  {
    assert ThreadOk(c, t);
    var rec := c.threads[t].pc.rec;
    if !ok {
      AttemptDrawn(c, t);
    } else {
      AnnouncementInv(c, t, rec, c.record.value.(phase := RestorePending, attempt := c.nextAttempt, reason := rec.reason));
    }
  }

  lemma ProbePendingInv(c: Cell, t: Tid, ok: bool)
    requires Inv(c) && t in c.threads && c.threads[t].pc.SetProbePending?
    ensures Inv(CommitStep(c, t, ok))
  {
    assert ThreadOk(c, t);
    var d := CommitStep(c, t, ok);
    if !ok {
      Leaves(c, t, Failed);
    } else {
      forall u ensures CannotWrite(d.threads, u, c.record.value.attempt) {
        assert CannotWrite(c.threads, u, c.record.value.attempt);
      }
      TwinsAfter(c, d, t);
      Commits(c, d, t);
    }
  }

  lemma RetireInv(c: Cell, t: Tid, ok: bool)
    requires Inv(c) && t in c.threads && c.threads[t].pc.Retiring?
    ensures Inv(CommitStep(c, t, ok))
  {
    assert ThreadOk(c, t);
    var d := CommitStep(c, t, ok);
    if !ok {
      Leaves(c, t, Failed);
    } else {
      TwinsAfter(c, d, t);
      Commits(c, d, t);
    }
  }

  lemma ReviewInv(c: Cell, t: Tid, ok: bool)
    requires Inv(c) && t in c.threads && c.threads[t].pc.Reviewing?
    ensures Inv(CommitStep(c, t, ok))
  {
    assert ThreadOk(c, t);
    if !ok || c.record.None? {
      Leaves(c, t, if ok then Done else Failed);
    } else {
      Replaces(c, t, c.record.value.(phase := ManualReview, reason := c.threads[t].pc.reason));
    }
  }

  lemma BackingInv(c: Cell, t: Tid, ok: bool)
    requires Inv(c) && t in c.threads && c.threads[t].pc.Backing?
    ensures Inv(CommitStep(c, t, ok))
  {
    assert ThreadOk(c, t);
    if !ok {
      Leaves(c, t, Failed);
    } else {
      Replaces(c, t, c.threads[t].pc.rec);
    }
  }

  lemma FinishInv(c: Cell, t: Tid, ok: bool)
    requires Inv(c) && t in c.threads && c.threads[t].pc.FinishDisabled?
    ensures Inv(CommitStep(c, t, ok))
  {
    assert ThreadOk(c, t);
    if !ok || c.record.None? {
      Leaves(c, t, if ok then Done else Failed);
    } else {
      FinishedOk(c, t);
      Replaces(c, t, Finished(c.record.value, c.threads[t].pc));
    }
  }

  function Finished(rec: Rec, pc: PC): Rec
    requires pc.FinishDisabled? && pc.after.HasRev()
  {
    rec.(phase := OwnedDisabled, level := pc.level, nextCheck := Some(pc.nextCheck), reason := pc.reason,
         hash := pc.after.body, saveRev := Some(pc.after.Rev()), postHash := None, postRev := None)
  }

  lemma FinishedOk(c: Cell, t: Tid)
    requires Inv(c) && Holds(c, t) && c.threads[t].pc.FinishDisabled? && c.record.Some?
    ensures c.threads[t].pc.after.HasRev() && VersionOk(c, Finished(c.record.value, c.threads[t].pc))
  {
    assert ThreadOk(c, t);
  }

  lemma QuotaRecordInv(c: Cell, t: Tid, ok: bool)
    requires Inv(c) && t in c.threads && c.threads[t].pc.QuotaRecord?
    ensures Inv(CommitStep(c, t, ok))
  {
    assert ThreadOk(c, t);
    var d := CommitStep(c, t, ok);
    if !ok {
      Leaves(c, t, Failed);
    } else {
      TwinsAfter(c, d, t);
      Commits(c, d, t);
    }
  }

  lemma HealthInv(c: Cell, t: Tid, ok: bool)
    requires Inv(c) && t in c.threads && c.threads[t].pc.RecordHealth?
    ensures Inv(CommitStep(c, t, ok))
  {
    assert ThreadOk(c, t);
    if ok {
      GoesTo(c, t, Retiring);
    } else {
      Leaves(c, t, Failed);
    }
  }

  /** A late recordSafeError replaces the record by another version of the same attempt:
      whatever the lock holder relies on survives. */
  lemma HolderOkReplaced(c: Cell, d: Cell, th: Thread)
    requires HolderOk(c, th)
    requires d == c.(record := d.record)
    requires c.record.Some? && d.record.Some? && d.record.value.attempt == c.record.value.attempt
    requires d.record.value.authId == c.record.value.authId && d.record.value.fileName == c.record.value.fileName
    requires !Exclusive(c.threads, c.record.value.attempt)
    ensures HolderOk(d, th)
  {
    assert forall v :: VersionOk(c, v) ==> VersionOk(d, v);
    assert forall v :: Twin(c, v) ==> Twin(d, v);
  }

  lemma ErrSaveInv(c: Cell, t: Tid, ok: bool)
    requires Inv(c) && t in c.threads && c.threads[t].pc.ErrSave?
    ensures Inv(CommitStep(c, t, ok))
  {
    assert ThreadOk(c, t);
    var rec := c.threads[t].pc.rec;
    if ok && c.record.Some? && c.record.value.attempt == rec.attempt {
      var d := c.(record := Some(rec));
      ErrorRecordInv(c, t, rec);
      EndsInv(d, t);
    } else {
      EndsInv(c, t);
    }
  }

  lemma ErrorRecordInv(c: Cell, t: Tid, rec: Rec)
    requires Inv(c) && t in c.threads && c.threads[t].pc == ErrSave(rec) && c.record.Some? && c.record.value.attempt == rec.attempt
    ensures Inv(c.(record := Some(rec)))
  {
    var d := c.(record := Some(rec));
    assert ThreadOk(c, t) && !CannotWrite(c.threads, t, rec.attempt);
    forall u ensures ThreadOk(d, u) {
      ThreadReplaced(c, d, u);
    }
    VersionFrame(c, d, rec);
    forall u ensures Holds(d, u) <==> Holds(c, u) {
    }
  }

  lemma ThreadReplaced(c: Cell, d: Cell, u: Tid)
    requires ThreadOk(c, u) && d == c.(record := d.record)
    requires c.record.Some? && d.record.Some? && d.record.value.attempt == c.record.value.attempt
    requires d.record.value.authId == c.record.value.authId && d.record.value.fileName == c.record.value.fileName
    requires !Exclusive(c.threads, c.record.value.attempt)
    ensures ThreadOk(d, u)
  {
    if u in c.threads {
      if Unlocked(c.threads[u].pc) {
        LooseFrame(c, d, c.threads[u]);
      } else {
        HolderOkReplaced(c, d, c.threads[u]);
      }
    }
  }

  lemma CommitInv(c: Cell, t: Tid, ok: bool)
    requires Inv(c) && t in c.threads
    ensures Inv(CommitStep(c, t, ok))
  {
    match c.threads[t].pc
    case Retiring => RetireInv(c, t, ok);
    case Reviewing(_) => ReviewInv(c, t, ok);
    case WriteAhead(_) => WriteAheadInv(c, t, ok);
    case SetProbePending(_, _) => ProbePendingInv(c, t, ok);
    case Backing(_) => BackingInv(c, t, ok);
    case FinishDisabled(_, _, _, _) => FinishInv(c, t, ok);
    case RecordHealth => HealthInv(c, t, ok);
    case QuotaRecord(_) => QuotaRecordInv(c, t, ok);
    case ErrSave(_) => ErrSaveInv(c, t, ok);
    case _ =>
  }

  // ------------------------------------------------- Host writes

  lemma VersionAppended(c: Cell, d: Cell, v: Rec)
    requires VersionOk(c, v)
    requires forall r :: r in c.origin ==> r in d.origin && d.origin[r] == c.origin[r]
    requires d.nextAttempt == c.nextAttempt
    requires Unconfirmed(d) && EnableAttempt(d) == v.attempt ==> Guarding(d, v)
    ensures VersionOk(d, v)
  {
  }

  lemma LogAppended(log: seq<Write>, w: Write)
    requires LogOk(log) && EntryOk(log + [w], |log|)
    ensures LogOk(log + [w])
  {
    forall k: nat | k < |log + [w]| ensures EntryOk(log + [w], k) {
      if k < |log| {
        assert EntryOk(log, k);
      }
    }
  }

  /** A write of kind `kind` by whoever; goroutine conditions are handled by the callers. */
  lemma AppendStores(c: Cell, kind: Kind, cred: Option<Cred>)
    requires Inv(c)
    requires cred.Some? ==> cred.value.rev !in c.origin
    requires EntryOk(c.log + [Write(kind, c.Host(), cred)], |c.log|)
    ensures var d := AppendWrite(c, kind, cred);
            && LogOk(d.log) && OriginOk(d) && d.Host() == cred && LastWrite(d).kind == kind
            && (forall r :: r in c.origin ==> r in d.origin && d.origin[r] == c.origin[r])
  {
    LogAppended(c.log, Write(kind, c.Host(), cred));
  }

  lemma LooseAppended(c: Cell, d: Cell, u: Tid)
    requires ThreadOk(c, u) && u in c.threads && Unlocked(c.threads[u].pc)
    requires forall r :: r in c.origin ==> r in d.origin && d.origin[r] == c.origin[r]
    requires d.nextAttempt == c.nextAttempt && d.record == c.record
    requires c.threads[u].pc.ErrSave? && Unconfirmed(d) ==> EnableAttempt(d) != c.threads[u].pc.rec.attempt
    ensures Loose(d, c.threads[u])
  {
    if c.threads[u].pc.ErrSave? {
      VersionAppended(c, d, c.threads[u].pc.rec);
    }
  }

  // ------------------------------------------------- outside writes

  lemma ContOutside(c: Cell, d: Cell, job: Job, k: Cont)
    requires ContOk(c, job, k) && !k.After? && !Unconfirmed(d)
    requires d == c.(log := d.log, origin := d.origin)
    requires forall r :: r in c.origin ==> r in d.origin && d.origin[r] == c.origin[r]
    ensures ContOk(d, job, k)
  {
    match k
    case ProcessSnap(rec) => VersionAppended(c, d, rec);
    case ProbeOk(rec) => VersionAppended(c, d, rec);
    case FailSnap(rec, _) => VersionAppended(c, d, rec);
    case QuotaSnap =>
    case Before(m) => if m.RedisableMut? { VersionAppended(c, d, m.rec); }
  }

  lemma HolderOutside(c: Cell, d: Cell, th: Thread)
    requires HolderOk(c, th) && !InSpan(th.pc) && !Unconfirmed(d)
    requires d == c.(log := d.log, origin := d.origin)
    requires forall r :: r in c.origin ==> r in d.origin && d.origin[r] == c.origin[r]
    ensures HolderOk(d, th)
  {
    match th.pc
    case ReadJSON(k) => ContOutside(c, d, th.job, k);
    case ReadRuntime(k, _, _, _) => ContOutside(c, d, th.job, k);
    case Probing(rec, _) => VersionAppended(c, d, rec);
    case Backing(rec) => VersionAppended(c, d, rec);
    case QuotaRecord(rec) => VersionAppended(c, d, rec);
    case _ =>
  }

  lemma OutsideInv(c: Cell, cred: Option<Cred>)
    requires Inv(c) && Clean(c, Outside(cred)) && NewRevision(c, Outside(cred))
    ensures Inv(AppendWrite(c, External, cred))
  {
    var d := AppendWrite(c, External, cred);
    AppendStores(c, External, cred);
    if c.record.Some? {
      VersionAppended(c, d, c.record.value);
    }
    forall u ensures ThreadOk(d, u) {
      ThreadOutside(c, d, u);
    }
    forall u ensures Holds(d, u) <==> Holds(c, u) {
    }
  }

  lemma ThreadOutside(c: Cell, d: Cell, u: Tid)
    requires ThreadOk(c, u) && !Unconfirmed(d) && (u in c.threads ==> !InSpan(c.threads[u].pc))
    requires d == c.(log := d.log, origin := d.origin)
    requires forall r :: r in c.origin ==> r in d.origin && d.origin[r] == c.origin[r]
    ensures ThreadOk(d, u)
  {
    if u in c.threads {
      if Unlocked(c.threads[u].pc) {
        LooseAppended(c, d, u);
      } else {
        HolderOutside(c, d, c.threads[u]);
      }
    }
  }

  // ------------------------------------------------- the plugin's own writes

  function Written(c: Cell, m: Mutation, before: Snap, rev: Rev): Cred {
    Cred(Bool(m.Target()), before.body, if c.Host().Some? then c.Host().value.id else "", before.name, rev)
  }

  /** Every save the protocol makes lands where the safety property wants it. */
  lemma SaveLands(c: Cell, job: Job, m: Mutation, before: Snap, rev: Rev)
    requires LogOk(c.log) && OriginOk(c)
    requires MutOk(c, job, m) && SnapIsHost(c, before) && m.Guard(before) && before.flag != Bool(m.Target())
    ensures EntryOk(c.log + [Write(m.Kind(), c.Host(), Some(Written(c, m, before, rev)))], |c.log|)
  {
    SawRevision(c, before.Rev());
    var log := c.log + [Write(m.Kind(), c.Host(), Some(Written(c, m, before, rev)))];
    assert log[|c.log| - 1] == LastWrite(c);
  }

  /** After the save took place, whatever the Host answers, the invariant still holds with
      the holder waiting for its re-get. */
  lemma SaveWritesInv(c: Cell, t: Tid, rev: Rev)
    requires Inv(c) && t in c.threads && c.threads[t].pc.Saving? && rev !in c.origin
    ensures var m, before := c.threads[t].pc.m, c.threads[t].pc.before;
            var d := Goto(AppendWrite(c, m.Kind(), Some(Written(c, m, before, rev))), t, ReadJSON(After(m, before)));
            Inv(d) && ContOk(d, d.threads[t].job, After(m, before))
  {
    assert ThreadOk(c, t) && Holds(c, t);
    var m, before := c.threads[t].pc.m, c.threads[t].pc.before;
    var e := AppendWrite(c, m.Kind(), Some(Written(c, m, before, rev)));
    var d := Goto(e, t, ReadJSON(After(m, before)));
    SaveLands(c, c.threads[t].job, m, before, rev);
    AppendStores(c, m.Kind(), Some(Written(c, m, before, rev)));
    SaverKeeps(c, d, t);
    SaverOk(c, d, t, m, before, rev);
    if c.record.Some? {
      VersionAppended(c, d, c.record.value);
    }
    forall u ensures ThreadOk(d, u) {
      if u != t && u in c.threads {
        OtherAfterSave(c, d, t, u);
      }
    }
  }

  lemma SaverOk(c: Cell, d: Cell, t: Tid, m: Mutation, before: Snap, rev: Rev)
    requires OriginOk(c) && t in c.threads && HolderOk(c, c.threads[t]) && c.threads[t].pc == Saving(m, before)
    requires t in d.threads && d.threads[t] == Thread(c.threads[t].job, ReadJSON(After(m, before)))
    requires d.Host() == Some(Written(c, m, before, rev)) && d.log != [] && LastWrite(d).kind == m.Kind()
    requires d.record == c.record && d.nextAttempt == c.nextAttempt
    requires forall a :: Exclusive(c.threads, a) ==> Exclusive(d.threads, a)
    ensures HolderOk(d, d.threads[t])
  {
    SawRevision(c, before.Rev());
  }

  lemma SaverKeeps(c: Cell, d: Cell, t: Tid)
    requires LockOk(c) && Holds(c, t) && d.token == c.token && t in d.threads && d.threads == c.threads[t := d.threads[t]]
    requires !Unlocked(d.threads[t].pc)
    ensures LockOk(d) && OthersKept(c, d, t) && forall a :: Exclusive(c.threads, a) ==> Exclusive(d.threads, a)
  {
    forall u | u != t ensures Kept(c, d, u) {
    }
    LockKept(c, d, t);
    forall a | Exclusive(c.threads, a) ensures Exclusive(d.threads, a) {
      ExclusiveKept(c, d, t, a);
    }
  }

  lemma OtherAfterSave(c: Cell, d: Cell, t: Tid, u: Tid)
    requires Inv(c) && Holds(c, t) && u != t && u in c.threads && u in d.threads && d.threads[u] == c.threads[u]
    requires d.nextAttempt == c.nextAttempt && d.record == c.record
    requires forall r :: r in c.origin ==> r in d.origin && d.origin[r] == c.origin[r]
    requires Unconfirmed(d) ==> LastWrite(d).kind.PluginEnable? && Exclusive(c.threads, LastWrite(d).kind.attempt)
    ensures ThreadOk(d, u)
  {
    assert ThreadOk(c, u) && !Holds(c, u);
    if Unconfirmed(d) {
      assert CannotWrite(c.threads, u, LastWrite(d).kind.attempt);
    }
    LooseAppended(c, d, u);
  }

  lemma SaveFailedInv(c: Cell, t: Tid, now: Time, rev: Rev, err: MutErr)
    requires Inv(c) && t in c.threads && c.threads[t].pc.Saving? && rev !in c.origin
    ensures var m, before := c.threads[t].pc.m, c.threads[t].pc.before;
            Inv(MutFailed(AppendWrite(c, m.Kind(), Some(Written(c, m, before, rev))), t, m, err, now))
  {
    var m, before := c.threads[t].pc.m, c.threads[t].pc.before;
    SaveWritesInv(c, t, rev);
    var e := AppendWrite(c, m.Kind(), Some(Written(c, m, before, rev)));
    var d := Goto(e, t, ReadJSON(After(m, before)));
    MutFailedInv(d, t, m, err, now);
    FailsAlike(e, t, ReadJSON(After(m, before)), m, err, now);
  }

  /** Where a failed mutation goes does not depend on the program point it left. */
  lemma FailsAlike(c: Cell, t: Tid, pc: PC, m: Mutation, err: MutErr, now: Time)
    requires t in c.threads
    ensures MutFailed(Goto(c, t, pc), t, m, err, now) == MutFailed(c, t, m, err, now)
  {
    forall next: PC ensures Goto(Goto(c, t, pc), t, next) == Goto(c, t, next) {
    }
  }

  lemma SaveInv(c: Cell, t: Tid, now: Time, applied: bool, rev: Rev, res: Exit)
    requires Inv(c) && t in c.threads && c.threads[t].pc.Saving? && rev !in c.origin
    ensures Inv(SaveStep(c, t, now, applied, rev, res))
  {
    assert ThreadOk(c, t);
    var m, before := c.threads[t].pc.m, c.threads[t].pc.before;
    var err := if res == Canceled then ContextCanceled else OtherError;
    if applied && res != Done {
      SaveFailedInv(c, t, now, rev, err);
    } else if applied {
      SaveWritesInv(c, t, rev);
    } else if res == Done {
      GoesTo(c, t, ReadJSON(After(m, before)));
    } else {
      MutFailedInv(c, t, m, err, now);
    }
  }

  // ------------------------------------------------- every event

  lemma ActInv(c: Cell, t: Tid, now: Time, op: Op)
    requires Inv(c) && t in c.threads && NewRevision(c, Act(t, now, op))
    ensures Inv(ActStep(c, t, now, op))
  {
    var pc := c.threads[t].pc;
    match op
    case Lock => LockInv(c, t);
    case GiveUp => if pc.WantLock? { EndsInv(c, t); }
    case Load => LoadInv(c, t, now);
    case Unlock => if pc.Leaving? { UnlockInv(c, t); }
    case Get(res) => if pc.ReadJSON? { GetInv(c, t, now, res); }
    case GetRuntime(answer) => if pc.ReadRuntime? { GetRuntimeInv(c, t, now, answer); }
    case Save(applied, rev, res) => if pc.Saving? { SaveInv(c, t, now, applied, rev, res); }
    case Commit(ok) => CommitInv(c, t, ok);
    case Probe(available, success, reason) => if pc.Probing? { ProbeInv(c, t, available, success, reason); }
  }

  lemma CrashInv(c: Cell)
    requires Inv(c)
    ensures Inv(c.(threads := map[], token := true))
  {
    var d := c.(threads := map[], token := true);
    if c.record.Some? {
      VersionFrame(c, d, c.record.value);
    }
    forall u ensures ThreadOk(d, u) && !Holds(d, u) {
    }
  }

  lemma StepInv(c: Cell, e: Event)
    requires Inv(c) && Clean(c, e) && NewRevision(c, e)
    ensures Inv(Step(c, e))
  {
    match e
    case Begin(t, job, now) => if MayBegin(c, t, job, now) { BeginInv(c, t, job, now); }
    case Act(t, now, op) => if t in c.threads { ActInv(c, t, now, op); }
    case Outside(cred) => OutsideInv(c, cred);
    case Crash => CrashInv(c);
  }

  lemma {:induction false} RunInv(c: Cell, es: seq<Event>)
    requires Inv(c) && CleanRun(c, es) && FreshRun(c, es)
    ensures Inv(Run(c, es))
    decreases es
  {
    if es != [] {
      StepInv(c, es[0]);
      RunInv(Step(c, es[0]), es[1..]);
    }
  }

  lemma FreshInv(cfg: Cfg)
    ensures Inv(Fresh(cfg))
  {
  }

  /** Ownership safety over every run: in the log of Host writes, each enable directly
      follows one of the plugin's own disabling writes, each re-disable directly follows the
      plugin's enable of the same attempt, each quota disable replaces an enabled credential,
      and all three change nothing but `disabled`. */
  lemma OwnershipSafe(cfg: Cfg, es: seq<Event>)
    requires CleanRun(Fresh(cfg), es) && FreshRun(Fresh(cfg), es)
    ensures LogOk(Run(Fresh(cfg), es).log)
  {
    FreshInv(cfg);
    RunInv(Fresh(cfg), es);
  }

  /** Write-ahead over every run, at every point a crash may strike: while the last Host
      write is an enable that no guarded probe success confirmed, a durable record of that
      attempt exists, and it never reads "owned and disabled". */
  lemma EnableIsRecorded(cfg: Cfg, es: seq<Event>)
    requires CleanRun(Fresh(cfg), es) && FreshRun(Fresh(cfg), es)
    ensures var c := Run(Fresh(cfg), es);
            Unconfirmed(c) ==>
              && c.record.Some? && c.record.value.attempt == EnableAttempt(c)
              && c.record.value.phase in {RestorePending, ProbePending, ManualReview}
              && c.Host().Some?
              && (c.record.value.phase == ProbePending ==> c.record.value.postRev == Some(c.Host().value.rev))
  {
    FreshInv(cfg);
    RunInv(Fresh(cfg), es);
    var c := Run(Fresh(cfg), es);
    if Unconfirmed(c) {
      UnconfirmedIsEnabled(c);
    }
  }
}
