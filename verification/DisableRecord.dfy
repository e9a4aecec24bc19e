/** A disable the plugin made stays on record. The events after which it does not are listed
    one by one, and the list is exact: on every clean and fresh run the disable is accounted
    for in every state if and only if no event of the list occurs. */
module DisableRecord {
  import opened Basics
  import opened Protocol
  import opened OwnershipInvariant
  import opened OwnershipSafety

  /** What the accounting looks at: whether the last Host write is a disable of the plugin,
      what it left, and the ownership record. */
  datatype View = View(disabled: bool, host: Option<Cred>, record: Option<Rec>)

  ghost function Seen(c: Cell): View {
    View(c.log != [] && LastWrite(c).kind.Disables(), c.Host(), c.record)
  }

  ghost predicate Matches(rec: Rec, host: Option<Cred>) {
    host.Some? && rec.hash == host.value.body && rec.saveRev == Some(host.value.rev) && IdOk(rec, host.value)
  }

  /** The record leads to the credential: a scan will act on it, or a human is asked to. */
  ghost predicate Names(rec: Rec, host: Option<Cred>) {
    rec.phase == ManualReview || (rec.phase != ProbePending && Matches(rec, host))
  }

  ghost predicate OnRecord(v: View) {
    v.record.Some? && Names(v.record.value, v.host)
  }

  /** The program points between a disabling save and the commit that records it. */
  predicate Booking(pc: PC) {
    match pc
    case ReadJSON(k) => k.After? && !k.m.EnableMut?
    case ReadRuntime(k, _, _, _) => k.After? && !k.m.EnableMut?
    case FinishDisabled(_, _, _, _) => true
    case QuotaRecord(_) => true
    case Reviewing(_) => true
    case _ => false
  }

  ghost predicate BookingAt(c: Cell, t: Tid) {
    t in c.threads && Booking(c.threads[t].pc)
  }

  ghost predicate Busy(c: Cell) {
    exists t :: BookingAt(c, t)
  }

  ghost predicate Accounted(c: Cell) {
    Seen(c).disabled ==> OnRecord(Seen(c)) || Busy(c)
  }

  // ------------------------------------------------- the events that lose track

  /** A disable is applied and its bookkeeping still to come. */
  ghost predicate Outstanding(c: Cell) {
    Seen(c).disabled && Busy(c) && !OnRecord(Seen(c))
  }

  /** The version read before is of the last disable, or asks for a human. */
  ghost predicate UpToDate(rec: Rec, host: Option<Cred>) {
    rec.phase == ManualReview || (rec.phase != ProbePending && host.Some? && rec.saveRev == Some(host.value.rev))
  }

  ghost predicate LosesCommit(c: Cell, pc: PC, ok: bool) {
    var v := Seen(c);
    v.disabled && v.host.Some? &&
    match pc
    case FinishDisabled(_, _, _, _) => !ok && Outstanding(c)
    case Reviewing(_) => !ok && Outstanding(c)
    // failed, or the record carries another identifier than the credential
    case QuotaRecord(rec) => !ok || !IdOk(rec, v.host.value)
    // a late error update put another version on record since this session read it
    case WriteAhead(_) => ok && v.record.Some? && v.record.value.saveRev != Some(v.host.value.rev)
    // a late error update of a version from before the disable
    case ErrSave(rec) => ok && !Busy(c) && v.record.Some? && v.record.value.attempt == rec.attempt && !UpToDate(rec, v.host)
    case _ => false
  }

  predicate AfterDisable(pc: PC) {
    match pc
    case ReadJSON(k) => k.After? && k.m.DisableMut?
    case ReadRuntime(k, _, _, _) => k.After? && k.m.DisableMut?
    case _ => false
  }

  ghost predicate Loses(c: Cell, e: Event) {
    match e
    case Crash => Outstanding(c)
    case Act(t, _, op) =>
      t in c.threads &&
      var pc := c.threads[t].pc;
      (match op
       case Commit(ok) => LosesCommit(c, pc, ok)
       case Save(applied, _, res) => pc.Saving? && pc.m.DisableMut? && applied && res != Done
       case Get(res) => pc.ReadJSON? && AfterDisable(pc) && Seen(c).disabled && res != Done
       case GetRuntime(answer) => pc.ReadRuntime? && AfterDisable(pc) && Seen(c).disabled && answer != RuntimeOk
       case _ => false)
    case _ => false
  }

  // ------------------------------------------------- the invariant

  /** If the version is about the credential as it is now, it carries its identifiers. */
  ghost predicate Pinned(rec: Rec, host: Option<Cred>) {
    host.Some? && (rec.saveRev == Some(host.value.rev) || (rec.phase == ProbePending && rec.postRev == Some(host.value.rev)))
    ==> IdOk(rec, host.value)
  }

  /** The session's version and the record are of one attempt and one credential. */
  ghost predicate SameSession(rec: Rec, v: View) {
    && v.record.Some? && v.record.value.attempt == rec.attempt
    && v.record.value.authId == rec.authId && v.record.value.fileName == rec.fileName
  }

  ghost predicate ProbeSide(rec: Rec, v: View) {
    !v.disabled && Pinned(rec, v.host) && SameSession(rec, v)
  }

  ghost predicate ContAux(v: View, job: Job, k: Cont) {
    match k
    case ProcessSnap(rec) => Pinned(rec, v.host) && (v.disabled ==> rec.phase != ProbePending && Matches(rec, v.host))
    case ProbeOk(rec) => ProbeSide(rec, v)
    case FailSnap(rec, _) => ProbeSide(rec, v)
    case QuotaSnap => true
    case Before(m) => m.RedisableMut? ==> ProbeSide(m.rec, v)
    case After(m, before) =>
      match m
      case EnableMut(_, _) => true
      case RedisableMut(rec, _) =>
        SameSession(rec, v) && before.HasRev() && (v.disabled ==> v.host.Some? && IdOk(rec, v.host.value) && v.host.value.rev != before.Rev())
      case DisableMut(_, _) =>
        before.HasRev() && (v.disabled ==> v.host.Some? && v.host.value.name == before.name && v.host.value.rev != before.Rev())
  }

  ghost predicate HolderAux(v: View, th: Thread) {
    match th.pc
    case ReadJSON(k) => ContAux(v, th.job, k)
    case ReadRuntime(k, flag, body, name) =>
      && ContAux(v, th.job, k)
      && (k.ProcessSnap? && v.disabled ==> v.host.Some? && v.host.value.flag == flag && v.host.value.body == body && v.host.value.name == name)
    case Saving(m, _) => m.RedisableMut? ==> ProbeSide(m.rec, v)
    case WriteAhead(rec) => v.disabled ==> Matches(rec, v.host)
    case SetProbePending(pending, after) =>
      !v.disabled && (v.host.Some? && after.HasRev() && v.host.value.rev == after.Rev() ==> IdOk(pending, v.host.value))
    case LoadProbe(_) => !v.disabled
    case Probing(rec, _) => ProbeSide(rec, v)
    case RecordHealth => !v.disabled
    case Retiring => !v.disabled
    case Reviewing(_) => v.record.Some?
    case Backing(rec) => Pinned(rec, v.host) && (v.disabled ==> rec.phase == RestorePending && Matches(rec, v.host))
    case FinishDisabled(after, _, _, _) =>
      && v.record.Some? && after.HasRev()
      && (v.disabled ==> v.host.Some? && after.body == v.host.value.body && after.Rev() == v.host.value.rev
                         && IdOk(v.record.value, v.host.value))
    case QuotaRecord(rec) =>
      && rec.phase == OwnedDisabled
      && (v.disabled ==> v.host.Some? && rec.hash == v.host.value.body && rec.saveRev == Some(v.host.value.rev)
                         && rec.fileName == v.host.value.name)
    case _ => true
  }

  ghost predicate ThreadAux(c: Cell, t: Tid) {
    t in c.threads ==>
      if Unlocked(c.threads[t].pc) then c.threads[t].pc.ErrSave? ==> Pinned(c.threads[t].pc.rec, c.Host())
      else HolderAux(Seen(c), c.threads[t])
  }

  ghost predicate RecordPinned(v: View) {
    v.record.Some? ==> Pinned(v.record.value, v.host)
  }

  ghost predicate Aux(c: Cell) {
    Accounted(c) && RecordPinned(Seen(c)) && forall t :: ThreadAux(c, t)
  }

  ghost predicate Track(c: Cell) {
    Inv(c) && Aux(c)
  }

  // ------------------------------------------------- frame

  /** The holder moves, perhaps committing a record; the Host is untouched. */
  lemma HolderSteps(c: Cell, d: Cell, t: Tid)
    requires Aux(c) && LockOk(c) && Holds(c, t) && d.log == c.log
    requires t in d.threads && d.threads == c.threads[t := d.threads[t]] && !Unlocked(d.threads[t].pc)
    requires HolderAux(Seen(d), d.threads[t]) && RecordPinned(Seen(d))
    requires Seen(d).disabled ==> OnRecord(Seen(d)) || Booking(d.threads[t].pc)
    ensures Aux(d)
  {
    if Booking(d.threads[t].pc) {
      assert BookingAt(d, t);
    }
    forall u ensures ThreadAux(d, u) {
      assert ThreadAux(c, u);
      assert u != t && u in c.threads ==> !Holds(c, u);
    }
  }

  /** The common case: the stores stay. */
  lemma HolderMoved(c: Cell, d: Cell, t: Tid)
    requires Aux(c) && LockOk(c) && Holds(c, t) && Seen(d) == Seen(c) && d.log == c.log
    requires t in d.threads && d.threads == c.threads[t := d.threads[t]] && !Unlocked(d.threads[t].pc)
    requires HolderAux(Seen(c), d.threads[t])
    requires Booking(c.threads[t].pc) && Seen(c).disabled ==> OnRecord(Seen(c)) || Booking(d.threads[t].pc)
    ensures Aux(d)
  {
    OnlyHolderBooks(c, t);
    HolderSteps(c, d, t);
  }

  /** Only the holder of the lock can be about to record something. */
  lemma OnlyHolderBooks(c: Cell, t: Tid)
    requires LockOk(c) && Holds(c, t)
    ensures Busy(c) <==> Booking(c.threads[t].pc)
  {
    forall u | BookingAt(c, u) ensures u == t {
      assert Holds(c, u);
    }
    if Booking(c.threads[t].pc) {
      assert BookingAt(c, t);
    }
  }

  lemma Goes(c: Cell, t: Tid, pc: PC)
    requires Aux(c) && LockOk(c) && Holds(c, t) && !Unlocked(pc)
    requires HolderAux(Seen(c), c.threads[t].(pc := pc))
    requires Booking(c.threads[t].pc) && Seen(c).disabled ==> OnRecord(Seen(c)) || Booking(pc)
    ensures Aux(Goto(c, t, pc))
  {
    HolderMoved(c, Goto(c, t, pc), t);
  }

  /** A disable of the plugin leaves the credential disabled. */
  lemma DisabledHost(c: Cell)
    requires Inv(c) && Seen(c).disabled
    ensures c.Host().Some? && c.Host().value.flag == Bool(true)
    ensures c.Host().value.rev in c.origin && c.origin[c.Host().value.rev] == LastWrite(c)
  {
    assert EntryOk(c.log, |c.log| - 1);
  }

  // ------------------------------------------------- answers of the Host

  /** Leaving the lock with nothing recorded: the disable, if there was one, is lost. */
  lemma LeavesUnrecorded(c: Cell, t: Tid, exit: Exit)
    requires LockOk(c) && Holds(c, t) && Seen(c).disabled && !OnRecord(Seen(c))
    ensures !Accounted(Leave(c, t, exit))
  {
    var d := Leave(c, t, exit);
    forall u ensures Holds(d, u) <==> Holds(c, u) {
    }
    OnlyHolderBooks(d, t);
  }

  lemma FailTracks(c: Cell, t: Tid, m: Mutation, err: MutErr, now: Time)
    requires Aux(c) && LockOk(c) && Holds(c, t)
    requires m.EnableMut? ==> c.record == Some(m.pending) && m.pending.phase == RestorePending && !Booking(c.threads[t].pc)
    requires m.RedisableMut? ==> c.record.Some?
    requires m.DisableMut? ==> c.record.None?
    ensures var d := MutFailed(c, t, m, err, now);
            if m.DisableMut? && Seen(c).disabled then !Accounted(d) else Aux(d)
  {
    OnlyHolderBooks(c, t);
    match m
    case EnableMut(_, pending) =>
      match err {
        case ContextCanceled => Goes(c, t, Leaving(Canceled));
        case OtherError => Goes(c, t, Backing(Backed(c.cfg, pending, now, RecoveryError)));
        case _ => Goes(c, t, Reviewing(OwnershipGuardFailed));
      }
    case RedisableMut(_, _) => Goes(c, t, Reviewing(RedisableFailed));
    case DisableMut(_, _) =>
      if Seen(c).disabled {
        LeavesUnrecorded(c, t, Failed);
      } else {
        Goes(c, t, Leaving(Failed));
      }
  }

  lemma BeforeTracks(c: Cell, t: Tid, m: Mutation, s: Snap, now: Time)
    requires Track(c) && Holds(c, t) && MutOk(c, c.threads[t].job, m) && SnapIsHost(c, s) && !Booking(c.threads[t].pc)
    requires m.RedisableMut? ==> ProbeSide(m.rec, Seen(c))
    ensures Aux(BeforeReady(c, t, m, s, now))
  {
    OnlyHolderBooks(c, t);
    if !s.HasRev() {
      FailTracks(c, t, m, RevisionUnavailable, now);
    } else if !m.Guard(s) {
      FailTracks(c, t, m, RevisionMismatch, now);
    } else if s.flag == Bool(m.Target()) {
      SawRevision(c, s.Rev());
      if m.DisableMut? {
        Goes(c, t, Leaving(Done));
      }
    } else {
      Goes(c, t, Saving(m, s));
    }
  }

  lemma EnableVerified(c: Cell, t: Tid, pending: Rec, before: Snap, s: Snap)
    requires Track(c) && Holds(c, t) && SnapIsHost(c, s) && s.HasRev() && !s.flag.Disabled()
    requires c.record == Some(pending) && IdOk(pending, c.Host().value) && !Booking(c.threads[t].pc)
    ensures Aux(Goto(c, t, SetProbePending(pending, s)))
  {
    if Seen(c).disabled {
      DisabledHost(c);
    }
    Goes(c, t, SetProbePending(pending, s));
  }

  lemma DisableVerified(c: Cell, t: Tid, before: Snap, s: Snap, now: Time)
    requires Track(c) && Holds(c, t) && SnapIsHost(c, s) && s.HasRev() && before.HasRev()
    requires c.record.None? && c.threads[t].job.QuotaJob? && c.Host().value.body == before.body
    requires Seen(c).disabled ==> c.Host().value.name == before.name
    ensures Aux(MutDone(c, t, DisableMut(0, 0), before, s, true, now))
  {
    var rec := QuotaRec(c, c.threads[t].job, before, s, now);
    var d := Goto(c.(nextAttempt := c.nextAttempt + 1), t, QuotaRecord(rec));
    HolderMoved(c, d, t);
  }

  lemma AfterTracks(c: Cell, t: Tid, m: Mutation, before: Snap, s: Snap, now: Time)
    requires Track(c) && Holds(c, t) && SavedOk(c, c.threads[t].job, m, before) && SnapIsHost(c, s)
    requires ContAux(Seen(c), c.threads[t].job, After(m, before)) && (Booking(c.threads[t].pc) <==> !m.EnableMut?)
    ensures var d := AfterReady(c, t, m, before, s, now);
            if m.DisableMut? && Seen(c).disabled && !s.HasRev() then !Accounted(d) else Aux(d)
  {
    OnlyHolderBooks(c, t);
    if Seen(c).disabled {
      DisabledHost(c);
    }
    if !s.HasRev() || s.Rev() == before.Rev() || s.flag.Disabled() != m.Target() {
      FailTracks(c, t, m, OtherError, now);
    } else {
      match m
      case EnableMut(_, pending) => EnableVerified(c, t, pending, before, s);
      case RedisableMut(rec, reason) =>
        var level := NextLevel(rec.level);
        Goes(c, t, FinishDisabled(s, level, now + Delay(c.cfg, level), reason));
      case DisableMut(_, _) => DisableVerified(c, t, before, s, now);
    }
  }

  lemma StartTracks(c: Cell, t: Tid, rec: Rec, s: Snap)
    requires Track(c) && Holds(c, t) && !Booking(c.threads[t].pc) && c.record.Some?
    requires Seen(c).disabled ==> Matches(rec, c.Host())
    requires Seen(c).disabled ==> s.flag == c.Host().value.flag && s.body == c.Host().value.body
    requires s.HasRev() && Seen(c).disabled ==> s.Rev() == c.Host().value.rev
    ensures Aux(StartRecovery(c, t, rec, s))
  {
    OnlyHolderBooks(c, t);
    if Seen(c).disabled {
      DisabledHost(c);
    }
    if !s.flag.Disabled() {
      Goes(c, t, Retiring);
    } else if rec.saveRev.None? || !s.HasRev() {
      Goes(c, t, Reviewing(DisableRevisionUnavailable));
    } else if s.body != rec.hash || s.Rev() != rec.saveRev.value {
      Goes(c, t, Retiring);
    } else {
      Goes(c, t, WriteAhead(rec));
    }
  }

  lemma PendingTracks(c: Cell, t: Tid, rec: Rec, s: Snap)
    requires Track(c) && Holds(c, t) && !Booking(c.threads[t].pc)
    requires SessionRec(c, rec) && Pinned(rec, c.Host()) && !Seen(c).disabled
    ensures Aux(GuardedReread(c, t, rec, s, Probing(rec, s)))
  {
    if !s.HasRev() {
      Goes(c, t, Reviewing(PostEnableGuardUnavailable));
    } else if s.flag.Disabled() || !GuardMatchesPostEnable(s, rec) {
      Goes(c, t, Retiring);
    } else {
      Goes(c, t, Probing(rec, s));
    }
  }

  lemma ProcessTracks(c: Cell, t: Tid, rec: Rec, s: Snap)
    requires Track(c) && Holds(c, t) && !Booking(c.threads[t].pc)
    requires SessionRec(c, rec) && Pinned(rec, c.Host())
    requires Seen(c).disabled ==> rec.phase != ProbePending && Matches(rec, c.Host())
    requires Seen(c).disabled ==> SawHost(c, s.flag, s.body, s.name)
    requires s.runtime.Some? ==> c.Host().Some? && s.Id() == c.Host().value.id
    requires s.HasRev() ==> s.Rev() == c.Host().value.rev
    ensures Aux(ProcessReady(c, t, rec, s))
  {
    OnlyHolderBooks(c, t);
    if (rec.authId != "" && s.Id() != "" && s.Id() != rec.authId) || (rec.fileName != "" && s.name != rec.fileName) {
      Goes(c, t, Retiring);
    } else if rec.authId != "" && s.runtime.Some? && s.Id() == "" {
      Goes(c, t, Reviewing(OwnershipGuardFailed));
    } else {
      match rec.phase
      case OwnedDisabled => StartTracks(c, t, rec, s);
      case RestorePending =>
        if s.flag.Disabled() {
          StartTracks(c, t, rec, s);
        } else {
          Goes(c, t, Reviewing(UnverifiablePendingEnable));
        }
      case ProbePending => PendingTracks(c, t, rec, s);
      case ManualReview => Goes(c, t, Leaving(Done));
    }
  }

  lemma RereadTracks(c: Cell, t: Tid, rec: Rec, s: Snap, next: PC)
    requires Track(c) && Holds(c, t) && !Booking(c.threads[t].pc) && ProbeSide(rec, Seen(c))
    requires !Unlocked(next) && HolderAux(Seen(c), c.threads[t].(pc := next))
    ensures Aux(GuardedReread(c, t, rec, s, next))
  {
    if !s.HasRev() {
      Goes(c, t, Reviewing(PostEnableGuardUnavailable));
    } else if s.flag.Disabled() || !GuardMatchesPostEnable(s, rec) {
      Goes(c, t, Retiring);
    } else {
      Goes(c, t, next);
    }
  }

  lemma QuotaTracks(c: Cell, t: Tid, s: Snap)
    requires Track(c) && Holds(c, t) && !Booking(c.threads[t].pc) && c.threads[t].job.QuotaJob?
    ensures Aux(QuotaReady(c, t, s))
  {
    var d := QuotaReady(c, t, s);
    Goes(c, t, Leaving(Done));
    Goes(c, t, Leaving(Failed));
    Goes(c, t, QuotaLoad(s));
  }

  lemma SnapTracks(c: Cell, t: Tid, k: Cont, s: Snap, now: Time)
    requires Track(c) && Holds(c, t) && ContOk(c, c.threads[t].job, k) && ContAux(Seen(c), c.threads[t].job, k)
    requires Booking(c.threads[t].pc) <==> k.After? && !k.m.EnableMut?
    requires k.Before? || k.After? || (k.ProcessSnap? && Seen(c).disabled) ==> SawHost(c, s.flag, s.body, s.name)
    requires s.runtime.Some? ==> c.Host().Some? && s.Id() == c.Host().value.id
    requires s.HasRev() ==> s.Rev() == c.Host().value.rev
    ensures var d := SnapReady(c, t, k, s, now);
            if k.After? && k.m.DisableMut? && Seen(c).disabled && !s.HasRev() then !Accounted(d) else Aux(d)
  {
    match k
    case ProcessSnap(rec) => ProcessTracks(c, t, rec, s);
    case ProbeOk(rec) =>
      RereadTracks(c, t, rec, s, RecordHealth);
      var e := GuardedReread(c, t, rec, s, RecordHealth);
      ConfirmedAux(e, e.confirmed + {rec.attempt});
    case FailSnap(rec, reason) => RereadTracks(c, t, rec, s, ReadJSON(Before(RedisableMut(rec, reason))));
    case QuotaSnap => QuotaTracks(c, t, s);
    case Before(m) => BeforeTracks(c, t, m, s, now);
    case After(m, before) => AfterTracks(c, t, m, before, s, now);
  }

  lemma ConfirmedAux(c: Cell, confirmed: set<nat>)
    requires Aux(c)
    ensures Aux(c.(confirmed := confirmed))
  {
    var d := c.(confirmed := confirmed);
    forall u ensures ThreadAux(d, u) && (BookingAt(c, u) ==> BookingAt(d, u)) {
      assert ThreadAux(c, u);
    }
  }

  lemma FailedAnswerTracks(c: Cell, t: Tid, k: Cont, canceled: bool, now: Time)
    requires Track(c) && Holds(c, t) && ContOk(c, c.threads[t].job, k) && ContAux(Seen(c), c.threads[t].job, k)
    requires Booking(c.threads[t].pc) <==> k.After? && !k.m.EnableMut?
    ensures var d := SnapFailed(c, t, k, canceled, now);
            if k.After? && k.m.DisableMut? && Seen(c).disabled then !Accounted(d) else Aux(d)
  {
    OnlyHolderBooks(c, t);
    match k
    case Before(m) => FailTracks(c, t, m, if canceled then ContextCanceled else OtherError, now);
    case After(m, _) => FailTracks(c, t, m, OtherError, now);
    case _ => Goes(c, t, Leaving(if canceled then Canceled else Failed));
  }

  lemma GetTracks(c: Cell, t: Tid, now: Time, res: Exit)
    requires Track(c) && t in c.threads && c.threads[t].pc.ReadJSON?
    ensures var d := GetStep(c, t, now, res);
            if Loses(c, Act(t, now, Get(res))) then !Accounted(d) else Aux(d)
  {
    assert ThreadOk(c, t) && ThreadAux(c, t) && Holds(c, t);
    var k := c.threads[t].pc.k;
    if Seen(c).disabled {
      DisabledHost(c);
    }
    if res != Done || c.Host().None? {
      FailedAnswerTracks(c, t, k, res == Canceled, now);
    } else {
      var h := c.Host().value;
      Goes(c, t, ReadRuntime(k, h.flag, h.body, h.name));
    }
  }

  lemma GetRuntimeTracks(c: Cell, t: Tid, now: Time, answer: RuntimeAnswer)
    requires Track(c) && t in c.threads && c.threads[t].pc.ReadRuntime?
    ensures var d := GetRuntimeStep(c, t, now, answer);
            if Loses(c, Act(t, now, GetRuntime(answer))) then !Accounted(d) else Aux(d)
  {
    assert ThreadOk(c, t) && ThreadAux(c, t) && Holds(c, t);
    var pc := c.threads[t].pc;
    if Seen(c).disabled {
      DisabledHost(c);
    }
    if answer == RuntimeFails || c.Host().None? {
      SnapTracks(c, t, pc.k, Snap(pc.flag, pc.body, pc.name, None), now);
    } else {
      var h := c.Host().value;
      if h.name != pc.name {
        FailedAnswerTracks(c, t, pc.k, false, now);
      } else {
        var rev := if answer == RuntimeOk then Some(h.rev) else None;
        SnapTracks(c, t, pc.k, Snap(pc.flag, pc.body, pc.name, Some(Runtime(h.id, rev))), now);
      }
    }
  }

  // ------------------------------------------------- the plugin's own writes

  /** Versions are about revisions seen before, so a fresh write does not pin them. */
  lemma PinnedElsewhere(c: Cell, v: Rec, host: Option<Cred>)
    requires VersionOk(c, v) && (host.Some? ==> host.value.rev !in c.origin)
    ensures Pinned(v, host)
  {
  }

  /** Once the save took place: the re-get is next, and a disable is about to be recorded. */
  lemma AppliedTracks(c: Cell, t: Tid, rev: Rev)
    requires Track(c) && t in c.threads && c.threads[t].pc.Saving? && rev !in c.origin
    ensures var m, before := c.threads[t].pc.m, c.threads[t].pc.before;
            var d := Goto(AppendWrite(c, m.Kind(), Some(Written(c, m, before, rev))), t, ReadJSON(After(m, before)));
            Aux(d) && LockOk(d) && Holds(d, t) && (m.DisableMut? ==> Seen(d).disabled && d.record.None?)
  {
    assert ThreadOk(c, t) && ThreadAux(c, t) && Holds(c, t);
    var m, before := c.threads[t].pc.m, c.threads[t].pc.before;
    var d := Goto(AppendWrite(c, m.Kind(), Some(Written(c, m, before, rev))), t, ReadJSON(After(m, before)));
    SaveWritesInv(c, t, rev);
    SawRevision(c, before.Rev());
    forall u ensures ThreadAux(d, u) {
      assert ThreadAux(c, u) && ThreadOk(c, u);
      if u != t && u in c.threads {
        assert !Holds(c, u);
        if c.threads[u].pc.ErrSave? {
          PinnedElsewhere(c, c.threads[u].pc.rec, d.Host());
        }
      }
    }
    if c.record.Some? {
      PinnedElsewhere(c, c.record.value, d.Host());
    }
    assert BookingAt(d, t) <==> !m.EnableMut?;
  }

  lemma SaveTracks(c: Cell, t: Tid, now: Time, applied: bool, rev: Rev, res: Exit)
    requires Track(c) && t in c.threads && c.threads[t].pc.Saving? && rev !in c.origin
    ensures var d := SaveStep(c, t, now, applied, rev, res);
            if Loses(c, Act(t, now, Save(applied, rev, res))) then !Accounted(d) else Aux(d)
  {
    var m, before := c.threads[t].pc.m, c.threads[t].pc.before;
    SaverKnows(c, t);
    if applied {
      AppliedTracks(c, t, rev);
      if res != Done {
        AppliedFails(c, t, now, rev, if res == Canceled then ContextCanceled else OtherError);
      }
    } else if res == Done {
      NotAppliedTracks(c, t, m, before);
    } else {
      FailTracks(c, t, m, if res == Canceled then ContextCanceled else OtherError, now);
    }
  }

  lemma SaverKnows(c: Cell, t: Tid)
    requires Track(c) && t in c.threads && c.threads[t].pc.Saving?
    ensures var m := c.threads[t].pc.m;
            && Holds(c, t) && !Booking(c.threads[t].pc)
            && (m.EnableMut? ==> c.record == Some(m.pending) && m.pending.phase == RestorePending)
            && (m.RedisableMut? ==> c.record.Some?)
            && (m.DisableMut? ==> c.record.None? && !Seen(c).disabled)
  {
    assert ThreadOk(c, t) && ThreadAux(c, t);
    OnlyHolderBooks(c, t);
  }

  lemma AppliedFails(c: Cell, t: Tid, now: Time, rev: Rev, err: MutErr)
    requires Track(c) && t in c.threads && c.threads[t].pc.Saving? && rev !in c.origin
    ensures var m, before := c.threads[t].pc.m, c.threads[t].pc.before;
            var d := MutFailed(AppendWrite(c, m.Kind(), Some(Written(c, m, before, rev))), t, m, err, now);
            if m.DisableMut? then !Accounted(d) else Aux(d)
  {
    var m, before := c.threads[t].pc.m, c.threads[t].pc.before;
    var e := AppendWrite(c, m.Kind(), Some(Written(c, m, before, rev)));
    SaverKnows(c, t);
    AppliedTracks(c, t, rev);
    FailTracks(Goto(e, t, ReadJSON(After(m, before))), t, m, err, now);
    FailsAlike(e, t, ReadJSON(After(m, before)), m, err, now);
  }

  lemma NotAppliedTracks(c: Cell, t: Tid, m: Mutation, before: Snap)
    requires Track(c) && Holds(c, t) && c.threads[t].pc == Saving(m, before)
    ensures Aux(Goto(c, t, ReadJSON(After(m, before))))
  {
    assert ThreadOk(c, t) && ThreadAux(c, t);
    OnlyHolderBooks(c, t);
    Goes(c, t, ReadJSON(After(m, before)));
  }

  // ------------------------------------------------- reads and commits of the store

  /** A goroutine outside the lock appears, moves or ends; the stores stay. */
  lemma OutsideLockTracks(c: Cell, d: Cell, t: Tid)
    requires Aux(c) && !Holds(c, t) && d.log == c.log && d.record == c.record && OthersKept(c, d, t)
    requires forall u :: u != t && u in c.threads ==> u in d.threads
    requires t in d.threads ==> Unlocked(d.threads[t].pc) && (d.threads[t].pc.ErrSave? ==> Pinned(d.threads[t].pc.rec, c.Host()))
    ensures Aux(d)
  {
    forall u ensures ThreadAux(d, u) && (BookingAt(c, u) ==> BookingAt(d, u)) {
      assert ThreadAux(c, u) && (u != t ==> Kept(c, d, u));
      assert BookingAt(c, u) ==> Holds(c, u);
    }
  }

  lemma EndsTracks(c: Cell, t: Tid)
    requires Aux(c) && !Holds(c, t)
    ensures Aux(Remove(c, t))
  {
    KeptWithout(c, t);
    OutsideLockTracks(c, Remove(c, t), t);
  }

  lemma ErrLoadTracks(c: Cell, t: Tid, now: Time)
    requires Track(c) && t in c.threads && c.threads[t].pc.ErrLoad?
    ensures Aux(LoadStep(c, t, now))
  {
    var d := LoadStep(c, t, now);
    if t !in d.threads {
      EndsTracks(c, t);
    } else {
      forall u | u != t ensures Kept(c, d, u) {
      }
      OutsideLockTracks(c, d, t);
    }
  }

  lemma LoadTracks(c: Cell, t: Tid, now: Time)
    requires Track(c) && t in c.threads
    ensures Aux(LoadStep(c, t, now))
  {
    assert ThreadOk(c, t) && ThreadAux(c, t);
    match c.threads[t].pc
    case Loading => FirstLoadTracks(c, t, now);
    case LoadPending(rec) => Goes(c, t, ReadJSON(Before(EnableMut(rec, c.record.value))));
    case LoadProbe(after) => Goes(c, t, Probing(c.record.value, after));
    case QuotaLoad(_) => QuotaLoadTracks(c, t, now);
    case ErrLoad => ErrLoadTracks(c, t, now);
    case _ =>
  }

  lemma FirstLoadTracks(c: Cell, t: Tid, now: Time)
    requires Track(c) && Holds(c, t) && c.threads[t].pc.Loading?
    ensures Aux(LoadStep(c, t, now))
  {
    assert ThreadAux(c, t);
    OnlyHolderBooks(c, t);
    if c.record.None? || !Due(c.record.value, now) || c.record.value.phase == ManualReview || !c.record.value.wasEnabled {
      Goes(c, t, Leaving(Done));
    } else {
      Goes(c, t, ReadJSON(ProcessSnap(c.record.value)));
    }
  }

  lemma QuotaLoadTracks(c: Cell, t: Tid, now: Time)
    requires Track(c) && Holds(c, t) && c.threads[t].pc.QuotaLoad?
    ensures Aux(LoadStep(c, t, now))
  {
    assert ThreadAux(c, t);
    var snap := c.threads[t].pc.snap;
    if c.record.Some? || !snap.HasRev() {
      Goes(c, t, Leaving(Done));
    } else {
      Goes(c, t, ReadJSON(Before(DisableMut(snap.body, snap.Rev()))));
    }
  }

  lemma CommitFails(c: Cell, t: Tid)
    requires Track(c) && Holds(c, t)
    ensures if Outstanding(c) && Booking(c.threads[t].pc) then !Accounted(Leave(c, t, Failed)) else Aux(Leave(c, t, Failed))
  {
    OnlyHolderBooks(c, t);
    if Outstanding(c) {
      LeavesUnrecorded(c, t, Failed);
    } else {
      Goes(c, t, Leaving(Failed));
    }
  }

  lemma RetireTracks(c: Cell, t: Tid)
    requires Track(c) && Holds(c, t) && c.threads[t].pc.Retiring?
    ensures Aux(CommitStep(c, t, true))
  {
    assert ThreadAux(c, t);
    HolderSteps(c, CommitStep(c, t, true), t);
  }

  lemma ReviewTracks(c: Cell, t: Tid)
    requires Track(c) && Holds(c, t) && c.threads[t].pc.Reviewing?
    ensures Aux(CommitStep(c, t, true))
  {
    assert ThreadAux(c, t) && ThreadOk(c, t);
    HolderSteps(c, CommitStep(c, t, true), t);
  }

  lemma WriteAheadTracks(c: Cell, t: Tid)
    requires Track(c) && Holds(c, t) && c.threads[t].pc.WriteAhead?
    ensures var d := CommitStep(c, t, true);
            if LosesCommit(c, c.threads[t].pc, true) then !Accounted(d) else Aux(d)
  {
    assert ThreadAux(c, t) && ThreadOk(c, t);
    var d := CommitStep(c, t, true);
    if Seen(c).disabled {
      DisabledHost(c);
    }
    OnlyHolderBooks(c, t);
    if LosesCommit(c, c.threads[t].pc, true) {
      forall u ensures Holds(d, u) <==> Holds(c, u) {
      }
      OnlyHolderBooks(d, t);
    } else {
      HolderSteps(c, d, t);
    }
  }

  lemma BoundTracks(c: Cell, t: Tid)
    requires Track(c) && Holds(c, t) && c.threads[t].pc.SetProbePending?
    ensures Aux(CommitStep(c, t, true))
  {
    assert ThreadAux(c, t) && ThreadOk(c, t);
    HolderSteps(c, CommitStep(c, t, true), t);
  }

  lemma BackingTracks(c: Cell, t: Tid)
    requires Track(c) && Holds(c, t) && c.threads[t].pc.Backing?
    ensures Aux(CommitStep(c, t, true))
  {
    assert ThreadAux(c, t) && ThreadOk(c, t);
    HolderSteps(c, CommitStep(c, t, true), t);
  }

  lemma FinishTracks(c: Cell, t: Tid)
    requires Track(c) && Holds(c, t) && c.threads[t].pc.FinishDisabled?
    ensures Aux(CommitStep(c, t, true))
  {
    assert ThreadAux(c, t) && ThreadOk(c, t);
    HolderSteps(c, CommitStep(c, t, true), t);
  }

  lemma QuotaRecordTracks(c: Cell, t: Tid)
    requires Track(c) && Holds(c, t) && c.threads[t].pc.QuotaRecord?
    ensures var d := CommitStep(c, t, true);
            if LosesCommit(c, c.threads[t].pc, true) then !Accounted(d) else Aux(d)
  {
    assert ThreadAux(c, t) && ThreadOk(c, t);
    var d := CommitStep(c, t, true);
    if Seen(c).disabled {
      DisabledHost(c);
    }
    if LosesCommit(c, c.threads[t].pc, true) {
      forall u ensures Holds(d, u) <==> Holds(c, u) {
      }
      OnlyHolderBooks(d, t);
    } else {
      HolderSteps(c, d, t);
    }
  }

  /** A late error update replaces the record by another version of its attempt; nobody's
      condition notices. */
  lemma ReplacedAux(c: Cell, e: Cell, t: Tid)
    requires Track(c) && t in c.threads && c.threads[t].pc.ErrSave?
    requires c.record.Some? && c.record.value.attempt == c.threads[t].pc.rec.attempt
    requires e == c.(record := Some(c.threads[t].pc.rec))
    ensures forall u :: ThreadAux(e, u)
  {
    assert ThreadOk(c, t);
    forall u ensures ThreadAux(e, u) {
      assert ThreadAux(c, u);
    }
  }

  lemma BusyWithout(c: Cell, t: Tid)
    requires !Holds(c, t)
    ensures Busy(Remove(c, t)) <==> Busy(c)
  {
    forall u ensures BookingAt(c, u) <==> BookingAt(Remove(c, t), u) {
      assert BookingAt(c, u) ==> Holds(c, u);
    }
  }

  lemma UpToDateMatches(c: Cell, rec: Rec)
    requires Inv(c) && Seen(c).disabled && VersionOk(c, rec) && Pinned(rec, c.Host())
    ensures Names(rec, c.Host()) <==> UpToDate(rec, c.Host())
  {
    DisabledHost(c);
  }

  lemma ErrSaveTracks(c: Cell, t: Tid, ok: bool)
    requires Track(c) && t in c.threads && c.threads[t].pc.ErrSave?
    ensures var d := CommitStep(c, t, ok);
            if LosesCommit(c, c.threads[t].pc, ok) then !Accounted(d) else Aux(d)
  {
    assert ThreadAux(c, t) && ThreadOk(c, t);
    var rec := c.threads[t].pc.rec;
    if ok && c.record.Some? && c.record.value.attempt == rec.attempt {
      LateRecordTracks(c, t, rec);
    } else {
      EndsTracks(c, t);
    }
  }

  lemma LateRecordTracks(c: Cell, t: Tid, rec: Rec)
    requires Track(c) && t in c.threads && c.threads[t].pc == ErrSave(rec)
    requires c.record.Some? && c.record.value.attempt == rec.attempt
    ensures var d := Remove(c.(record := Some(rec)), t);
            if LosesCommit(c, ErrSave(rec), true) then !Accounted(d) else Aux(d)
  {
    assert ThreadAux(c, t) && ThreadOk(c, t);
    var e := c.(record := Some(rec));
    ReplacedAux(c, e, t);
    BusyWithout(e, t);
    forall u ensures BookingAt(e, u) <==> BookingAt(c, u) {
    }
    if Seen(c).disabled {
      DisabledHost(c);
      UpToDateMatches(c, rec);
    }
    if !LosesCommit(c, ErrSave(rec), true) {
      EndsTracks(e, t);
    }
  }

  lemma CommitTracks(c: Cell, t: Tid, ok: bool)
    requires Track(c) && t in c.threads
    ensures var d := CommitStep(c, t, ok);
            if LosesCommit(c, c.threads[t].pc, ok) then !Accounted(d) else Aux(d)
  {
    var pc := c.threads[t].pc;
    match pc
    case ErrSave(_) => ErrSaveTracks(c, t, ok);
    case RecordHealth => HealthTracks(c, t, ok);
    case WriteAhead(_) => if ok { WriteAheadTracks(c, t); } else { FailedAnnouncement(c, t); }
    case Retiring => if ok { RetireTracks(c, t); } else { CommitFails(c, t); }
    case Reviewing(_) => if ok { ReviewTracks(c, t); } else { BookkeepingFails(c, t); }
    case SetProbePending(_, _) => if ok { BoundTracks(c, t); } else { CommitFails(c, t); }
    case Backing(_) => if ok { BackingTracks(c, t); } else { CommitFails(c, t); }
    case FinishDisabled(_, _, _, _) => if ok { FinishTracks(c, t); } else { BookkeepingFails(c, t); }
    case QuotaRecord(_) => if ok { QuotaRecordTracks(c, t); } else { BookkeepingFails(c, t); }
    case _ =>
  }

  lemma HealthTracks(c: Cell, t: Tid, ok: bool)
    requires Track(c) && Holds(c, t) && c.threads[t].pc.RecordHealth?
    ensures Aux(CommitStep(c, t, ok))
  {
    assert ThreadAux(c, t);
    Goes(c, t, if ok then Retiring else Leaving(Failed));
  }

  lemma FailedAnnouncement(c: Cell, t: Tid)
    requires Track(c) && Holds(c, t) && c.threads[t].pc.WriteAhead?
    ensures Aux(CommitStep(c, t, false))
  {
    HolderMoved(c, CommitStep(c, t, false), t);
  }

  lemma BookkeepingFails(c: Cell, t: Tid)
    requires Track(c) && Holds(c, t)
    requires c.threads[t].pc.QuotaRecord? || c.threads[t].pc.FinishDisabled? || c.threads[t].pc.Reviewing?
    ensures var d := CommitStep(c, t, false);
            if LosesCommit(c, c.threads[t].pc, false) then !Accounted(d) else Aux(d)
  {
    assert ThreadOk(c, t);
    OnlyHolderBooks(c, t);
    if Seen(c).disabled {
      DisabledHost(c);
    }
    CommitFails(c, t);
  }

  lemma ProbeTracks(c: Cell, t: Tid, available: bool, success: bool, reason: Reason)
    requires Track(c) && t in c.threads && c.threads[t].pc.Probing?
    ensures Aux(ProbeStep(c, t, available, success, reason))
  {
    assert ThreadAux(c, t);
    var rec, s := c.threads[t].pc.rec, c.threads[t].pc.snap;
    if !available {
      Goes(c, t, ReadJSON(FailSnap(rec, ProbeUnavailable)));
    } else {
      RereadTracks(c, t, rec, s, if success then ReadJSON(ProbeOk(rec)) else ReadJSON(FailSnap(rec, reason)));
    }
  }

  // ------------------------------------------------- the lock

  lemma LockTracks(c: Cell, t: Tid)
    requires Track(c) && t in c.threads
    ensures Aux(LockStep(c, t))
  {
    var d := LockStep(c, t);
    forall u ensures ThreadAux(d, u) && (BookingAt(c, u) ==> BookingAt(d, u)) {
      assert ThreadAux(c, u);
      if u != t {
        SameThreadAux(c, d, u);
      }
    }
  }

  lemma SameThreadAux(c: Cell, d: Cell, u: Tid)
    requires ThreadAux(c, u) && d.log == c.log && d.record == c.record && Kept(c, d, u)
    ensures ThreadAux(d, u)
  {
  }

  lemma UnlockTracks(c: Cell, t: Tid)
    requires Track(c) && t in c.threads && c.threads[t].pc.Leaving?
    ensures Aux(UnlockStep(c, t))
  {
    var d := UnlockStep(c, t);
    forall u | u != t ensures Kept(c, d, u) && (BookingAt(c, u) ==> BookingAt(d, u)) {
    }
    LeaverAux(c, t);
    forall u ensures ThreadAux(d, u) {
      if u != t {
        SameThreadAux(c, d, u);
      }
    }
  }

  lemma LeaverAux(c: Cell, t: Tid)
    requires t in c.threads && c.threads[t].pc.Leaving?
    ensures ThreadAux(UnlockStep(c, t), t) && !BookingAt(c, t)
  {
  }

  // ------------------------------------------------- every event

  lemma ActTracks(c: Cell, t: Tid, now: Time, op: Op)
    requires Track(c) && t in c.threads && NewRevision(c, Act(t, now, op))
    ensures var d := ActStep(c, t, now, op);
            if Loses(c, Act(t, now, op)) then !Accounted(d) else Aux(d)
  {
    var pc := c.threads[t].pc;
    match op
    case Lock => LockTracks(c, t);
    case GiveUp => if pc.WantLock? { EndsTracks(c, t); }
    case Load => LoadTracks(c, t, now);
    case Unlock => if pc.Leaving? { UnlockTracks(c, t); }
    case Get(res) => if pc.ReadJSON? { GetTracks(c, t, now, res); }
    case GetRuntime(answer) => if pc.ReadRuntime? { GetRuntimeTracks(c, t, now, answer); }
    case Save(applied, rev, res) => if pc.Saving? { SaveTracks(c, t, now, applied, rev, res); }
    case Commit(ok) => CommitTracks(c, t, ok);
    case Probe(available, success, reason) => if pc.Probing? { ProbeTracks(c, t, available, success, reason); }
  }

  lemma OutsideTracks(c: Cell, cred: Option<Cred>)
    requires Track(c) && Clean(c, Outside(cred)) && NewRevision(c, Outside(cred))
    ensures Aux(AppendWrite(c, External, cred))
  {
    var d := AppendWrite(c, External, cred);
    assert !Seen(d).disabled && d.Host() == cred;
    if c.record.Some? {
      PinnedElsewhere(c, c.record.value, cred);
    }
    forall u ensures ThreadAux(d, u) {
      ThreadSeesOutside(c, d, u);
    }
  }

  lemma ThreadSeesOutside(c: Cell, d: Cell, u: Tid)
    requires ThreadAux(c, u) && ThreadOk(c, u) && (u in c.threads ==> !InSpan(c.threads[u].pc))
    requires d == c.(log := d.log, origin := d.origin) && !Seen(d).disabled
    requires d.Host().Some? ==> d.Host().value.rev !in c.origin
    ensures ThreadAux(d, u)
  {
    assert forall v :: VersionOk(c, v) ==> Pinned(v, d.Host());
    if u in c.threads && c.threads[u].pc.SetProbePending? {
      assert c.threads[u].pc.after.Rev() in c.origin;
    }
  }

  lemma CrashTracks(c: Cell)
    requires Track(c)
    ensures var d := c.(threads := map[], token := true);
            if Loses(c, Crash) then !Accounted(d) else Aux(d)
  {
    var d := c.(threads := map[], token := true);
    assert !Busy(d);
  }

  lemma BeginTracks(c: Cell, t: Tid, job: Job, now: Time)
    requires Track(c) && MayBegin(c, t, job, now)
    ensures Aux(Step(c, Begin(t, job, now)))
  {
    var d := Step(c, Begin(t, job, now));
    forall u | u != t ensures Kept(c, d, u) {
    }
    OutsideLockTracks(c, d, t);
  }

  /** Each event of the list loses track of the disable, and no other event does. */
  lemma StepTracks(c: Cell, e: Event)
    requires Track(c) && Clean(c, e) && NewRevision(c, e)
    ensures if Loses(c, e) then !Accounted(Step(c, e)) else Track(Step(c, e))
  {
    StepInv(c, e);
    match e
    case Begin(t, job, now) => if MayBegin(c, t, job, now) { BeginTracks(c, t, job, now); }
    case Act(t, now, op) => if t in c.threads { ActTracks(c, t, now, op); }
    case Outside(cred) => OutsideTracks(c, cred);
    case Crash => CrashTracks(c);
  }

  // ------------------------------------------------- every run

  /** No event of the run loses track. */
  ghost predicate NeverLoses(c: Cell, es: seq<Event>)
    decreases es
  {
    es == [] || (!Loses(c, es[0]) && NeverLoses(Step(c, es[0]), es[1..]))
  }

  /** In every state of the run the disable is on record or about to be. */
  ghost predicate AlwaysAccounted(c: Cell, es: seq<Event>)
    decreases es
  {
    Accounted(c) && (es == [] || AlwaysAccounted(Step(c, es[0]), es[1..]))
  }

  lemma {:induction false} RunTracks(c: Cell, es: seq<Event>)
    requires Track(c) && CleanRun(c, es) && FreshRun(c, es)
    ensures AlwaysAccounted(c, es) <==> NeverLoses(c, es)
    ensures NeverLoses(c, es) ==> Track(Run(c, es))
    decreases es
  {
    if es != [] {
      StepTracks(c, es[0]);
      if !Loses(c, es[0]) {
        RunTracks(Step(c, es[0]), es[1..]);
      }
    }
  }

  /** Over every clean and fresh run: every disable of the plugin is accounted for in every
      state if and only if no event of the list occurs. */
  lemma AccountedExactly(cfg: Cfg, es: seq<Event>)
    requires CleanRun(Fresh(cfg), es) && FreshRun(Fresh(cfg), es)
    ensures AlwaysAccounted(Fresh(cfg), es) <==> NeverLoses(Fresh(cfg), es)
  {
    FreshInv(cfg);
    RunTracks(Fresh(cfg), es);
  }

  /** So when nobody is inside the lock, a credential whose last write is the plugin's disable
      has a record: owned with matching hash and revision, about to be restored with the
      same, or in manual review. */
  lemma DisableIsOnRecord(cfg: Cfg, es: seq<Event>)
    requires CleanRun(Fresh(cfg), es) && FreshRun(Fresh(cfg), es) && NeverLoses(Fresh(cfg), es)
    ensures var c := Run(Fresh(cfg), es);
            (forall t :: !Holds(c, t)) && c.log != [] && LastWrite(c).kind.Disables() ==>
              && c.Host().Some? && c.record.Some?
              && var rec, h := c.record.value, c.Host().value;
                 || rec.phase == ManualReview
                 || ((rec.phase == OwnedDisabled || rec.phase == RestorePending)
                     && rec.hash == h.body && rec.saveRev == Some(h.rev) && IdOk(rec, h))
  {
    FreshInv(cfg);
    RunTracks(Fresh(cfg), es);
    var c := Run(Fresh(cfg), es);
    if (forall t :: !Holds(c, t)) && Seen(c).disabled {
      DisabledHost(c);
      forall t ensures !BookingAt(c, t) {
        assert !Holds(c, t);
      }
    }
  }
}
