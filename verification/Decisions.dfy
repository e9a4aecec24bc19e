/** What a goroutine decides on each answer of the Host, in whatever company: the conditions
    under which it acts, asks a human, lets go or fails, each stated outright. And what a whole
    undisturbed scan makes of any record and any credential. */
module Decisions {
  import opened Basics
  import opened Backoff
  import opened Protocol
  import opened RecoveryCycles

  // ---------------------------------------------------------------- the opening snapshot

  /** What the runtime answer adds to the document read before: whose file it is, and which
      revision. The answer may fail or lack the revision. */
  datatype Seen = Seen(flag: Flag, body: Body, name: string, id: Option<string>, rev: Option<Rev>)

  function Sees(c: Cell, pc: PC, answer: RuntimeAnswer): Seen
    requires pc.ReadRuntime?
  {
    var known := answer != RuntimeFails && c.Host().Some?;
    Seen(pc.flag, pc.body, pc.name,
         if known then Some(c.Host().value.id) else None,
         if known && answer == RuntimeOk then Some(c.Host().value.rev) else None)
  }

  /** The file was renamed between the two reads. */
  predicate Renamed(c: Cell, pc: PC, answer: RuntimeAnswer)
    requires pc.ReadRuntime?
  {
    answer != RuntimeFails && c.Host().Some? && c.Host().value.name != pc.name
  }

  /** It bears the identifier and file name on record, as far as there are any. */
  predicate Ours(rec: Rec, s: Seen) {
    && (rec.authId == "" || s.id == Some(rec.authId)) && (rec.fileName == "" || s.name == rec.fileName)
  }

  /** It bears another identifier or another file name. */
  predicate Strange(rec: Rec, s: Seen) {
    || (rec.authId != "" && s.id.Some? && s.id != Some("") && s.id != Some(rec.authId))
    || (rec.fileName != "" && s.name != rec.fileName)
  }

  predicate Nameless(rec: Rec, s: Seen) {
    rec.authId != "" && s.id == Some("")
  }

  /** As the plugin's own disable left it. */
  predicate Untouched(rec: Rec, s: Seen) {
    s.flag == Bool(true) && s.body == rec.hash && s.rev.Some? && s.rev == rec.saveRev
  }

  /** As the plugin's own enable left it, the guard of the probe. */
  predicate Guarded(rec: Rec, s: Seen) {
    s.flag != Bool(true) && rec.postHash == Some(s.body) && s.rev.Some? && s.rev == rec.postRev
  }

  /** Why a human is asked. */
  predicate Doubtful(rec: Rec, s: Seen, why: Reason) {
    && !Strange(rec, s)
    && if Nameless(rec, s) then why == OwnershipGuardFailed
       else match rec.phase
       case OwnedDisabled => s.flag == Bool(true) && (rec.saveRev.None? || s.rev.None?) && why == DisableRevisionUnavailable
       case RestorePending => if s.flag == Bool(true) then (rec.saveRev.None? || s.rev.None?) && why == DisableRevisionUnavailable
                              else why == UnverifiablePendingEnable
       case ProbePending => s.rev.None? && why == PostEnableGuardUnavailable
       case ManualReview => false
  }

  /** Nothing but where goroutine `t` stands, and perhaps the confirmed attempts, has changed. */
  predicate OnlyMoves(c: Cell, d: Cell, t: Tid) {
    && t in d.threads && t in c.threads && d.threads[t].job == c.threads[t].job
    && d == c.(threads := c.threads[t := d.threads[t]], confirmed := d.confirmed)
  }

  function SnapFrom(s: Seen): Snap {
    Snap(s.flag, s.body, s.name, if s.id.Some? then Some(Runtime(s.id.value, s.rev)) else None)
  }

  lemma RuntimeReads(c: Cell, t: Tid, now: Time, answer: RuntimeAnswer)
    requires t in c.threads && c.threads[t].pc.ReadRuntime?
    ensures var k := c.threads[t].pc.k;
            Step(c, Act(t, now, GetRuntime(answer)))
            == if Renamed(c, c.threads[t].pc, answer) then SnapFailed(c, t, k, false, now)
               else SnapReady(c, t, k, SnapFrom(Sees(c, c.threads[t].pc, answer)), now)
  {
  }

  ghost predicate Decided(rec: Rec, s: Seen, pc: PC) {
    && (pc.WriteAhead? <==> (rec.phase == OwnedDisabled || rec.phase == RestorePending) && Ours(rec, s) && Untouched(rec, s))
    && (pc.Probing? <==> rec.phase == ProbePending && Ours(rec, s) && Guarded(rec, s))
    && (forall why :: pc == Reviewing(why) <==> Doubtful(rec, s, why))
    && (pc.WriteAhead? || pc.Probing? || pc.Reviewing? || pc.Retiring?)
    && (pc.WriteAhead? ==> pc.rec == rec) && (pc.Probing? ==> pc == Probing(rec, SnapFrom(s)))
  }

  /** A scan goes on to enable exactly a credential that is ours and untouched since the disable
      on record, and to probe exactly one that is ours and guarded; it asks a human exactly in
      the doubtful cases, and lets go in all others. */
  lemma SnapshotDecides(c: Cell, t: Tid, now: Time, answer: RuntimeAnswer, rec: Rec)
    requires t in c.threads && c.threads[t].pc.ReadRuntime? && c.threads[t].pc.k == ProcessSnap(rec) && rec.phase != ManualReview
    ensures var d := Step(c, Act(t, now, GetRuntime(answer)));
            && OnlyMoves(c, d, t) && d.confirmed == c.confirmed
            && if Renamed(c, c.threads[t].pc, answer) then d.threads[t].pc == Leaving(Failed)
               else Decided(rec, Sees(c, c.threads[t].pc, answer), d.threads[t].pc)
  {
    RuntimeReads(c, t, now, answer);
    ProcessDecides(c, t, rec, Sees(c, c.threads[t].pc, answer));
  }

  lemma ProcessDecides(c: Cell, t: Tid, rec: Rec, s: Seen)
    requires t in c.threads && rec.phase != ManualReview && (s.id.None? ==> s.rev.None?)
    ensures var d := ProcessReady(c, t, rec, SnapFrom(s));
            OnlyMoves(c, d, t) && d.confirmed == c.confirmed && Decided(rec, s, d.threads[t].pc)
  {
    if !Strange(rec, s) && !Nameless(rec, s) && (rec.phase == OwnedDisabled || (rec.phase == RestorePending && s.flag == Bool(true))) {
      StartDecides(c, t, rec, s);
    }
  }

  lemma StartDecides(c: Cell, t: Tid, rec: Rec, s: Seen)
    requires t in c.threads && (rec.phase == OwnedDisabled || rec.phase == RestorePending) && (s.id.None? ==> s.rev.None?)
    requires !Strange(rec, s) && !Nameless(rec, s) && (rec.phase == RestorePending ==> s.flag == Bool(true))
    ensures var d := StartRecovery(c, t, rec, SnapFrom(s));
            OnlyMoves(c, d, t) && d.confirmed == c.confirmed && Decided(rec, s, d.threads[t].pc)
  {
  }

  // ---------------------------------------------------------------- around the probe

  /** The credential still is what the guard of the probe says. */
  predicate Holds(rec: Rec, s: Seen) {
    (rec.authId == "" || s.id == Some(rec.authId)) && Guarded(rec, s)
  }

  /** Where a guarded re-read leads: on if the guard holds, to a human without a revision. */
  ghost predicate Rechecked(rec: Rec, s: Seen, pc: PC, next: PC) {
    && (pc == next <==> Holds(rec, s))
    && (pc == Reviewing(PostEnableGuardUnavailable) <==> s.rev.None?)
    && (pc == next || pc == Reviewing(PostEnableGuardUnavailable) || pc == Retiring)
  }

  lemma RereadDecides(c: Cell, t: Tid, rec: Rec, s: Seen, next: PC)
    requires t in c.threads && (s.id.None? ==> s.rev.None?) && !next.Reviewing? && !next.Retiring?
    ensures var d := GuardedReread(c, t, rec, SnapFrom(s), next);
            OnlyMoves(c, d, t) && d.confirmed == c.confirmed && Rechecked(rec, s, d.threads[t].pc, next)
  {
  }

  /** A probe is made only under its guard; without a prober, and after a failure, the plugin
      goes on to disable the credential again, for the reason the probe gave. */
  lemma ProbeDecides(c: Cell, t: Tid, now: Time, available: bool, success: bool, reason: Reason, s: Seen)
    requires t in c.threads && c.threads[t].pc.Probing? && c.threads[t].pc.snap == SnapFrom(s) && (s.id.None? ==> s.rev.None?)
    ensures var d, rec := Step(c, Act(t, now, Probe(available, success, reason))), c.threads[t].pc.rec;
            && OnlyMoves(c, d, t) && d.confirmed == c.confirmed
            && if !available then d.threads[t].pc == ReadJSON(FailSnap(rec, ProbeUnavailable))
               else Rechecked(rec, s, d.threads[t].pc, if success then ReadJSON(ProbeOk(rec)) else ReadJSON(FailSnap(rec, reason)))
  {
    var rec := c.threads[t].pc.rec;
    RereadDecides(c, t, rec, s, if success then ReadJSON(ProbeOk(rec)) else ReadJSON(FailSnap(rec, reason)));
  }

  /** A success counts, and is recorded, exactly if the guard still holds when the credential is
      read once more. */
  lemma SuccessCounts(c: Cell, t: Tid, now: Time, answer: RuntimeAnswer, rec: Rec)
    requires t in c.threads && c.threads[t].pc.ReadRuntime? && c.threads[t].pc.k == ProbeOk(rec)
    ensures var d := Step(c, Act(t, now, GetRuntime(answer))); var s := Sees(c, c.threads[t].pc, answer);
            && OnlyMoves(c, d, t)
            && if Renamed(c, c.threads[t].pc, answer) then d.threads[t].pc == Leaving(Failed) && d.confirmed == c.confirmed
               else && Rechecked(rec, s, d.threads[t].pc, RecordHealth)
                    && d.confirmed == if Holds(rec, s) then c.confirmed + {rec.attempt} else c.confirmed
  {
    RuntimeReads(c, t, now, answer);
    RereadDecides(c, t, rec, Sees(c, c.threads[t].pc, answer), RecordHealth);
  }

  /** After a failure the re-disable is begun exactly if the guard still holds. */
  lemma FailureDecides(c: Cell, t: Tid, now: Time, answer: RuntimeAnswer, rec: Rec, reason: Reason)
    requires t in c.threads && c.threads[t].pc.ReadRuntime? && c.threads[t].pc.k == FailSnap(rec, reason)
    ensures var d := Step(c, Act(t, now, GetRuntime(answer))); var s := Sees(c, c.threads[t].pc, answer);
            && OnlyMoves(c, d, t) && d.confirmed == c.confirmed
            && if Renamed(c, c.threads[t].pc, answer) then d.threads[t].pc == Leaving(Failed)
               else Rechecked(rec, s, d.threads[t].pc, ReadJSON(Before(RedisableMut(rec, reason))))
  {
    RuntimeReads(c, t, now, answer);
    RereadDecides(c, t, rec, Sees(c, c.threads[t].pc, answer), ReadJSON(Before(RedisableMut(rec, reason))));
  }

  // ---------------------------------------------------------------- the transaction

  /** The credential is the one its caller means: as the disable left it, as the enable left it,
      or as it was read a moment before. */
  predicate Meant(m: Mutation, s: Seen) {
    s.rev.Some? &&
    match m
    case EnableMut(rec, _) => s.body == rec.hash && s.rev == rec.saveRev
    case RedisableMut(rec, _) => rec.postHash == Some(s.body) && s.rev == rec.postRev
    case DisableMut(hash, rev) => s.body == hash && s.rev == Some(rev)
  }

  /** One level up, at most to 32, and the next check after the closed-form delay. */
  predicate BacksOff(cfg: Cfg, rec: Rec, next: Rec, now: Time, why: Reason) {
    && next.nextCheck.Some? && next == rec.(level := next.level, nextCheck := next.nextCheck, reason := why)
    && next.level == (if rec.level >= 32 then rec.level else if rec.level < 0 then 1 else rec.level + 1)
    && next.nextCheck == Some(now + RecoveryDelay(cfg.initial, cfg.maximum, next.level))
  }

  /** A transaction that fails its guard: a human is asked, or for a quota event it is over. */
  predicate Refused(m: Mutation, pc: PC) {
    match m
    case EnableMut(_, _) => pc == Reviewing(OwnershipGuardFailed)
    case RedisableMut(_, _) => pc == Reviewing(RedisableFailed)
    case DisableMut(_, _) => pc == Leaving(Failed)
  }

  /** One that fails otherwise: an enable is tried again after the back-off, unless the context
      has ended; a re-disable is left to a human. */
  ghost predicate Broken(c: Cell, m: Mutation, canceled: bool, now: Time, pc: PC) {
    match m
    case EnableMut(_, pending) =>
      if canceled then pc == Leaving(Canceled) else pc.Backing? && BacksOff(c.cfg, pending, pc.rec, now, RecoveryError)
    case RedisableMut(_, _) => pc == Reviewing(RedisableFailed)
    case DisableMut(_, _) => pc == Leaving(Failed)
  }

  /** One that ended well, or found nothing to change. */
  ghost predicate WentOn(c: Cell, d: Cell, m: Mutation, job: Job, before: Seen, after: Seen, changed: bool, now: Time, pc: PC) {
    match m
    case EnableMut(_, pending) => pc == SetProbePending(pending, SnapFrom(after))
    case RedisableMut(rec, why) =>
      pc.FinishDisabled? && pc.after == SnapFrom(after) && pc.reason == why
      && BacksOff(c.cfg, rec, rec.(level := pc.level, nextCheck := Some(pc.nextCheck), reason := why), now, why)
    case DisableMut(_, _) =>
      if !changed || job.ScanJob? then pc == Leaving(Done)
      else pc.QuotaRecord? && after.rev.Some? && Owns(c, pc.rec, job, before, after, now) && d.nextAttempt == c.nextAttempt + 1
  }

  /** The record of a quota disable: what was disabled, the revision of the disable, a new
      attempt, and the reset as first check if that lies ahead. */
  predicate Owns(c: Cell, rec: Rec, job: Job, before: Seen, after: Seen, now: Time)
    requires job.QuotaJob?
  {
    && rec.authId == (if job.usageId == "" then job.entryId else job.usageId) && rec.fileName == before.name && rec.wasEnabled
    && rec.hash == before.body && rec.saveRev == after.rev && rec.phase == OwnedDisabled && rec.attempt == c.nextAttempt
    && rec.postHash == None && rec.postRev == None && rec.level == 0 && rec.reason == job.why
    && rec.nextCheck == Some(FirstCheck(c.cfg, job.resetAt, now))
  }

  predicate Unmoved(c: Cell, d: Cell) {
    d.log == c.log && d.record == c.record && d.confirmed == c.confirmed && d.token == c.token && d.origin == c.origin
  }

  lemma FailureReacts(c: Cell, t: Tid, m: Mutation, err: MutErr, now: Time)
    requires t in c.threads
    ensures var d := MutFailed(c, t, m, err, now);
            && OnlyMoves(c, d, t) && d.confirmed == c.confirmed
            && (err == RevisionUnavailable || err == RevisionMismatch ==> Refused(m, d.threads[t].pc))
            && (err == OtherError ==> Broken(c, m, false, now, d.threads[t].pc))
            && (err == ContextCanceled ==> Broken(c, m, true, now, d.threads[t].pc))
  {
  }

  lemma SuccessReacts(c: Cell, t: Tid, m: Mutation, before: Seen, after: Seen, changed: bool, now: Time)
    requires t in c.threads && after.id.Some? && after.rev.Some?
    ensures var d := MutDone(c, t, m, SnapFrom(before), SnapFrom(after), changed, now);
            && Unmoved(c, d) && t in d.threads
            && WentOn(c, d, m, c.threads[t].job, before, after, changed, now, d.threads[t].pc)
  {
  }

  /** The first half: the save is made exactly if the guard holds and the flag is not yet as
      asked for; with nothing to change the caller goes on at once. */
  lemma GuardDecides(c: Cell, t: Tid, now: Time, answer: RuntimeAnswer, m: Mutation)
    requires t in c.threads && c.threads[t].pc.ReadRuntime? && c.threads[t].pc.k == Before(m)
    ensures var d := Step(c, Act(t, now, GetRuntime(answer))); var s := Sees(c, c.threads[t].pc, answer);
            && Unmoved(c, d) && t in d.threads
            && var pc := d.threads[t].pc;
               if Renamed(c, c.threads[t].pc, answer) then Broken(c, m, false, now, pc)
               else if !Meant(m, s) then Refused(m, pc)
               else if s.flag == Bool(!m.EnableMut?) then WentOn(c, d, m, c.threads[t].job, s, s, false, now, pc)
               else pc == Saving(m, SnapFrom(s))
  {
    RuntimeReads(c, t, now, answer);
    BeforeDecides(c, t, m, Sees(c, c.threads[t].pc, answer), now);
    FailureReacts(c, t, m, OtherError, now);
  }

  lemma BeforeDecides(c: Cell, t: Tid, m: Mutation, s: Seen, now: Time)
    requires t in c.threads && (s.id.None? ==> s.rev.None?)
    ensures var d := BeforeReady(c, t, m, SnapFrom(s), now);
            && Unmoved(c, d) && t in d.threads
            && var pc := d.threads[t].pc;
               if !Meant(m, s) then Refused(m, pc)
               else if s.flag == Bool(!m.EnableMut?) then WentOn(c, d, m, c.threads[t].job, s, s, false, now, pc)
               else pc == Saving(m, SnapFrom(s))
  {
    FailureReacts(c, t, m, RevisionUnavailable, now);
    FailureReacts(c, t, m, RevisionMismatch, now);
    if s.rev.Some? {
      SuccessReacts(c, t, m, s, s, false, now);
    }
  }

  /** The second half: it ended well exactly if the re-read finds a new revision and the flag as
      asked for. */
  lemma RereadConfirms(c: Cell, t: Tid, now: Time, answer: RuntimeAnswer, m: Mutation, before: Seen)
    requires t in c.threads && c.threads[t].pc.ReadRuntime? && c.threads[t].pc.k == After(m, SnapFrom(before)) && before.id.Some?
    ensures var d := Step(c, Act(t, now, GetRuntime(answer))); var s := Sees(c, c.threads[t].pc, answer);
            && Unmoved(c, d) && t in d.threads
            && if !Renamed(c, c.threads[t].pc, answer) && s.rev.Some? && before.rev.Some? && s.rev != before.rev
                  && (s.flag == Bool(true) <==> !m.EnableMut?)
               then WentOn(c, d, m, c.threads[t].job, before, s, true, now, d.threads[t].pc)
               else Broken(c, m, false, now, d.threads[t].pc)
  {
    var s := Sees(c, c.threads[t].pc, answer);
    RuntimeReads(c, t, now, answer);
    FailureReacts(c, t, m, OtherError, now);
    if s.rev.Some? {
      SuccessReacts(c, t, m, before, s, true, now);
    }
  }

  /** A save writes the document read before with nothing but the flag changed, whatever the Host
      answers; the answer alone decides how to go on. */
  lemma SaveDecides(c: Cell, t: Tid, now: Time, applied: bool, rev: Rev, res: Exit)
    requires t in c.threads && c.threads[t].pc.Saving?
    ensures var d := Step(c, Act(t, now, Save(applied, rev, res))); var m, before := c.threads[t].pc.m, c.threads[t].pc.before;
            && d.record == c.record && d.confirmed == c.confirmed && t in d.threads
            && (!applied ==> d.log == c.log)
            && (applied ==>
                  && |d.log| == |c.log| + 1 && d.log[..|c.log|] == c.log && d.log[|c.log|].onto == c.Host() && d.Host().Some?
                  && d.Host().value.flag == Bool(!m.EnableMut?) && d.Host().value.body == before.body
                  && d.Host().value.name == before.name && d.Host().value.rev == rev)
            && if res == Done then d.threads[t].pc == ReadJSON(After(m, before))
               else Broken(c, m, res == Canceled, now, d.threads[t].pc)
  {
    var m, before := c.threads[t].pc.m, c.threads[t].pc.before;
    var e := Written(c, m, before, applied, rev);
    SaveSteps(c, t, now, applied, rev, res);
    if res != Done {
      FailureReacts(e, t, m, if res == Canceled then ContextCanceled else OtherError, now);
    }
  }

  function Written(c: Cell, m: Mutation, before: Snap, applied: bool, rev: Rev): Cell {
    var id := if c.Host().Some? then c.Host().value.id else "";
    if applied then AppendWrite(c, m.Kind(), Some(Cred(Bool(m.Target()), before.body, id, before.name, rev))) else c
  }

  lemma SaveSteps(c: Cell, t: Tid, now: Time, applied: bool, rev: Rev, res: Exit)
    requires t in c.threads && c.threads[t].pc.Saving?
    ensures var m, before := c.threads[t].pc.m, c.threads[t].pc.before;
            Step(c, Act(t, now, Save(applied, rev, res)))
            == if res == Done then Goto(Written(c, m, before, applied, rev), t, ReadJSON(After(m, before)))
               else MutFailed(Written(c, m, before, applied, rev), t, m, if res == Canceled then ContextCanceled else OtherError, now)
  {
  }

  // ---------------------------------------------------------------- a quota event

  /** The event names another credential than the one read. */
  predicate NotMeant(job: Job, s: Seen)
    requires job.QuotaJob?
  {
    job.usageId != "" && (s.id.None? || s.id == Some("") || TrimSpace(s.id.value) != TrimSpace(job.usageId))
  }

  /** A quota event goes on exactly with the credential it names, if that is enabled and its
      revision known; and then only if there is no record. */
  lemma QuotaDecides(c: Cell, t: Tid, now: Time, answer: RuntimeAnswer)
    requires t in c.threads && c.threads[t].job.QuotaJob? && c.threads[t].pc.ReadRuntime? && c.threads[t].pc.k == QuotaSnap
    ensures var d := Step(c, Act(t, now, GetRuntime(answer))); var s := Sees(c, c.threads[t].pc, answer);
            && OnlyMoves(c, d, t) && d.confirmed == c.confirmed
            && var pc := d.threads[t].pc;
               if Renamed(c, c.threads[t].pc, answer) then pc == Leaving(Failed)
               else if NotMeant(c.threads[t].job, s) || s.flag == Bool(true) then pc == Leaving(Done)
               else if s.rev.None? then pc == Leaving(Failed)
               else pc == QuotaLoad(SnapFrom(s))
  {
    RuntimeReads(c, t, now, answer);
  }

  lemma QuotaNeedsNoRecord(c: Cell, t: Tid, now: Time, s: Seen)
    requires t in c.threads && c.threads[t].pc == QuotaLoad(SnapFrom(s)) && s.id.Some? && s.rev.Some?
    ensures var d := Step(c, Act(t, now, Load));
            && OnlyMoves(c, d, t) && d.confirmed == c.confirmed
            && d.threads[t].pc == if c.record.Some? then Leaving(Done) else ReadJSON(Before(DisableMut(s.body, s.rev.value)))
  {
  }

  // ---------------------------------------------------------------- the document that is missing

  /** A get that fails, or finds no file, ends a scan or a quota event, and breaks a transaction;
      after the save even the end of the context is an error like any other. */
  lemma GetDecides(c: Cell, t: Tid, now: Time, res: Exit)
    requires t in c.threads && c.threads[t].pc.ReadJSON?
    ensures var d, k := Step(c, Act(t, now, Get(res))), c.threads[t].pc.k;
            && OnlyMoves(c, d, t) && d.confirmed == c.confirmed
            && var pc := d.threads[t].pc;
               if res == Done && c.Host().Some? then
                 pc == ReadRuntime(k, c.Host().value.flag, c.Host().value.body, c.Host().value.name)
               else
                 match k
                 case Before(m) => Broken(c, m, res == Canceled, now, pc)
                 case After(m, _) => Broken(c, m, false, now, pc)
                 case _ => pc == Leaving(if res == Canceled then Canceled else Failed)
  {
    match c.threads[t].pc.k
    case Before(m) => FailureReacts(c, t, m, if res == Canceled then ContextCanceled else OtherError, now);
    case After(m, _) => FailureReacts(c, t, m, OtherError, now);
    case _ =>
  }

  // ---------------------------------------------------------------- store commits

  predicate AtUpdate(pc: PC) {
    pc.Retiring? || pc.Reviewing? || pc.WriteAhead? || pc.SetProbePending? || pc.Backing?
    || pc.FinishDisabled? || pc.RecordHealth? || pc.QuotaRecord?
  }

  /** What an update that went through leaves, given the record found there. */
  predicate Updates(c: Cell, pc: PC, r: Option<Rec>)
    requires pc.SetProbePending? || pc.FinishDisabled? ==> pc.after.HasRev()
  {
    match pc
    case Retiring => r.None?
    case RecordHealth => r == c.record
    case QuotaRecord(rec) => r == Some(rec)
    case _ => if c.record.None? then r.None? else r.Some? && Leaves(c, pc, c.record.value, r.value)
  }

  predicate Leaves(c: Cell, pc: PC, found: Rec, left: Rec)
    requires pc.SetProbePending? || pc.FinishDisabled? ==> pc.after.HasRev()
  {
    match pc
    case Reviewing(why) => left == found.(phase := ManualReview, reason := why)
    case WriteAhead(rec) => left == found.(phase := RestorePending, attempt := c.nextAttempt, reason := rec.reason)
    case SetProbePending(_, after) => left == found.(phase := ProbePending, postHash := Some(after.body), postRev := Some(after.Rev()))
    case Backing(rec) => left == rec
    case FinishDisabled(after, level, nextCheck, why) =>
      left == found.(phase := OwnedDisabled, level := level, nextCheck := Some(nextCheck), reason := why, hash := after.body,
                     saveRev := Some(after.Rev()), postHash := None, postRev := None)
    case _ => false
  }

  /** An update that fails changes nothing and ends the scan with an error; a record that has gone
      is not put back, save by a quota event. Success leads on where there is more to do. */
  lemma UpdateDecides(c: Cell, t: Tid, now: Time, ok: bool)
    requires t in c.threads && AtUpdate(c.threads[t].pc)
    requires c.threads[t].pc.SetProbePending? || c.threads[t].pc.FinishDisabled? ==> c.threads[t].pc.after.HasRev()
    ensures var d, pc := Step(c, Act(t, now, Commit(ok))), c.threads[t].pc;
            && d.log == c.log && d.token == c.token && d.confirmed == c.confirmed && t in d.threads
            && (!ok ==> d.record == c.record && d.threads[t].pc == Leaving(Failed))
            && (ok ==> Updates(c, pc, d.record)
                       && d.threads[t].pc == match pc
                            case WriteAhead(rec) => LoadPending(rec)
                            case SetProbePending(_, after) => LoadProbe(after)
                            case RecordHealth => Retiring
                            case _ => Leaving(Done))
  {
    if ok {
      UpdateLands(c, t);
    }
  }

  lemma UpdateLands(c: Cell, t: Tid)
    requires t in c.threads && AtUpdate(c.threads[t].pc)
    requires c.threads[t].pc.SetProbePending? || c.threads[t].pc.FinishDisabled? ==> c.threads[t].pc.after.HasRev()
    ensures var d, pc := CommitStep(c, t, true), c.threads[t].pc;
            && d.log == c.log && d.token == c.token && d.confirmed == c.confirmed && t in d.threads
            && Updates(c, pc, d.record)
            && d.threads[t].pc == match pc
                 case WriteAhead(rec) => LoadPending(rec)
                 case SetProbePending(_, after) => LoadProbe(after)
                 case RecordHealth => Retiring
                 case _ => Leaving(Done)
  {
  }

  // ---------------------------------------------------------------- the lock, and errors outside it

  /** One goroutine at a time gets the token; a scan then reads the record, a quota event the
      credential. Giving up while waiting leaves nothing behind. */
  lemma LockDecides(c: Cell, t: Tid, now: Time)
    requires t in c.threads && c.threads[t].pc.WantLock?
    ensures var d := Step(c, Act(t, now, Lock));
            if !c.token then d == c
            else !d.token && t in d.threads && d.log == c.log && d.record == c.record
                 && d.threads[t].pc == if c.threads[t].job.ScanJob? then Loading else ReadJSON(QuotaSnap)
    ensures var d := Step(c, Act(t, now, GiveUp)); t !in d.threads && d == c.(threads := d.threads)
  {
  }

  /** Leaving gives the token back; only a scan that failed goes on to record its error. */
  lemma UnlockDecides(c: Cell, t: Tid, now: Time)
    requires t in c.threads && c.threads[t].pc.Leaving?
    ensures var d := Step(c, Act(t, now, Unlock));
            && d.token && d.log == c.log && d.record == c.record
            && if c.threads[t].pc.exit == Failed && c.threads[t].job.ScanJob? then t in d.threads && d.threads[t].pc == ErrLoad
               else t !in d.threads
  {
  }

  /** The error is recorded, with a back-off, exactly over a record of the attempt the scan began
      with, both when it is read and when it is written. */
  lemma ErrorDecides(c: Cell, t: Tid, now: Time, ok: bool)
    requires t in c.threads && c.threads[t].job.ScanJob?
    ensures c.threads[t].pc.ErrLoad? ==>
              var d := Step(c, Act(t, now, Load));
              && d.record == c.record && d.log == c.log
              && if c.record.Some? && c.record.value.attempt == c.threads[t].job.outer.attempt
                 then t in d.threads && d.threads[t].pc.ErrSave? && BacksOff(c.cfg, c.record.value, d.threads[t].pc.rec, now, HostError)
                 else t !in d.threads
    ensures c.threads[t].pc.ErrSave? ==>
              var d, next := Step(c, Act(t, now, Commit(ok))), c.threads[t].pc.rec;
              && t !in d.threads && d.log == c.log
              && d.record == if ok && c.record.Some? && c.record.value.attempt == next.attempt then Some(next) else c.record
  {
  }

  /** Inside an attempt a record that has gone ends it; else it goes on with what is on record. */
  lemma ReloadDecides(c: Cell, t: Tid, now: Time)
    requires t in c.threads && (c.threads[t].pc.LoadPending? || c.threads[t].pc.LoadProbe?)
    ensures var d := Step(c, Act(t, now, Load));
            && OnlyMoves(c, d, t) && d.confirmed == c.confirmed
            && d.threads[t].pc == if c.record.None? then Leaving(Done)
                                  else if c.threads[t].pc.LoadPending? then ReadJSON(Before(EnableMut(c.threads[t].pc.rec, c.record.value)))
                                  else Probing(c.record.value, c.threads[t].pc.after)
  {
  }

  // ---------------------------------------------------------------- a whole scan

  function SeenAt(h: Cred): Seen {
    Seen(h.flag, h.body, h.name, Some(h.id), Some(h.rev))
  }

  /** The record is due and nothing is in progress. */
  ghost predicate Awake(c: Cell, now: Time) {
    && c.threads == map[] && c.token && c.record.Some? && c.Host().Some?
    && c.record.value.phase != ManualReview && c.record.value.wasEnabled
    && (c.record.value.nextCheck.None? || c.record.value.nextCheck.value <= now)
  }

  /** The opening of a scan: it reads the record, the document and the runtime, and decides. */
  lemma {:induction false} ScanDecides(c: Cell, t: Tid, now: Time)
    requires Awake(c, now)
    ensures var rec, s, job := c.record.value, SeenAt(c.Host().value), ScanJob(c.record.value);
            && t in Run(c, Checks(t, job, now)).threads
            && var pc := Run(c, Checks(t, job, now)).threads[t].pc;
               Decided(rec, s, pc) && Run(c, Checks(t, job, now)) == Inside(c, t, job, pc)
  {
    var rec, h := c.record.value, c.Host().value;
    var job, k := ScanJob(rec), ProcessSnap(rec);
    var at := Inside(c, t, job, ReadRuntime(k, h.flag, h.body, h.name));
    ScanEnters(c, t, now);
    Reads(c, t, job, k, now);
    RunConcat(c, [Begin(t, job, now), Act(t, now, Lock)] + [Act(t, now, Load)], ReadOk(t, now));
    assert SnapFrom(SeenAt(h)) == SnapOf(h);
    ProcessDecides(at, t, rec, SeenAt(h));
    var d := ProcessReady(at, t, rec, SnapOf(h));
    assert d == Inside(c, t, job, d.threads[t].pc) by {
      assert at.threads[t := d.threads[t]] == c.threads[t := Thread(job, d.threads[t].pc)];
    }
  }

  lemma {:induction false} ScanEnters(c: Cell, t: Tid, now: Time)
    requires Awake(c, now)
    ensures var rec := c.record.value; var job := ScanJob(rec);
            Run(c, [Begin(t, job, now), Act(t, now, Lock)] + [Act(t, now, Load)]) == Inside(c, t, job, ReadJSON(ProcessSnap(rec)))
  {
    var rec := c.record.value;
    var job := ScanJob(rec);
    var waiting := c.(threads := map[t := Thread(job, WantLock)]);
    Two(c, Begin(t, job, now), Act(t, now, Lock));
    assert c.threads[t := Thread(job, WantLock)] == waiting.threads;
    assert waiting.threads[t := Thread(job, Loading)] == Inside(c, t, job, Loading).threads;
    One(Inside(c, t, job, Loading), Act(t, now, Load));
    InsideGoto(c, t, job, Loading, ReadJSON(ProcessSnap(rec)));
    RunConcat(c, [Begin(t, job, now), Act(t, now, Lock)], [Act(t, now, Load)]);
  }

  /** Neither ours and untouched, nor ours and guarded: the scan writes nothing to the Host. In
      the doubtful cases the record then waits for a human, in all others it is gone. */
  lemma {:induction false} ScanLetsGo(c: Cell, t: Tid, now: Time)
    requires Awake(c, now)
    requires var rec, s := c.record.value, SeenAt(c.Host().value);
             !(Ours(rec, s) && (if rec.phase == ProbePending then Guarded(rec, s) else Untouched(rec, s)))
    ensures var rec, s := c.record.value, SeenAt(c.Host().value);
            var d := Run(c, Checks(t, ScanJob(rec), now) + Finishes(t, now));
            && (forall why :: Doubtful(rec, s, why) ==> d == c.(record := Some(rec.(phase := ManualReview, reason := why))))
            && ((forall why :: !Doubtful(rec, s, why)) ==> d == c.(record := None))
  {
    var rec, s, job := c.record.value, SeenAt(c.Host().value), ScanJob(c.record.value);
    ScanDecides(c, t, now);
    var pc := Run(c, Checks(t, job, now)).threads[t].pc;
    RunConcat(c, Checks(t, job, now), Finishes(t, now));
    if pc.Retiring? {
      RetiresRun(c, t, job, now);
    } else {
      ReviewsRun(c, t, job, pc.reason, now);
    }
  }

  lemma {:induction false} ReviewsRun(c: Cell, t: Tid, job: Job, why: Reason, now: Time)
    requires c.token && t !in c.threads && c.record.Some?
    ensures Run(Inside(c, t, job, Reviewing(why)), Finishes(t, now)) == c.(record := Some(c.record.value.(phase := ManualReview, reason := why)))
  {
    var d := c.(record := Some(c.record.value.(phase := ManualReview, reason := why)));
    Two(Inside(c, t, job, Reviewing(why)), Act(t, now, Commit(true)), Act(t, now, Unlock));
    InsideGoto(d, t, job, Reviewing(why), Leaving(Done));
    assert Inside(d, t, job, Leaving(Done)).threads - {t} == d.threads;
  }

  // ---------------------------------------------------------------- a probe that was interrupted

  /** After a crash with the credential enabled and the guard on record, the next scan probes
      again: a success ends with the credential enabled and no record. */
  lemma {:induction false} ResumeSucceeds(c: Cell, t: Tid, began: Time, ended: Time, why: Reason)
    requires Awake(c, began) && c.record.value.phase == ProbePending
    requires Ours(c.record.value, SeenAt(c.Host().value)) && Guarded(c.record.value, SeenAt(c.Host().value))
    ensures var es := Checks(t, ScanJob(c.record.value), began) + ([Act(t, ended, Probe(true, true, why))] + ReadOk(t, ended))
                      + ([Act(t, ended, Commit(true))] + Finishes(t, ended));
            Run(c, es) == c.(record := None, confirmed := c.confirmed + {c.record.value.attempt})
  {
    var rec, job := c.record.value, ScanJob(c.record.value);
    var probe := [Act(t, ended, Probe(true, true, why))] + ReadOk(t, ended);
    ScanDecides(c, t, began);
    ProbeSucceeds(c, t, job, rec, ended, why);
    HealthRecorded(c.(confirmed := c.confirmed + {rec.attempt}), t, job, ended);
    RunConcat(c, Checks(t, job, began), probe);
    RunConcat(c, Checks(t, job, began) + probe, [Act(t, ended, Commit(true))] + Finishes(t, ended));
  }

  /** A failure ends with the credential disabled again and owned, one level up. */
  lemma {:induction false} ResumeFails(c: Cell, t: Tid, began: Time, ended: Time, why: Reason, rev: Rev)
    requires Awake(c, began) && c.record.value.phase == ProbePending && rev != c.Host().value.rev
    requires Ours(c.record.value, SeenAt(c.Host().value)) && Guarded(c.record.value, SeenAt(c.Host().value))
    ensures var es := Checks(t, ScanJob(c.record.value), began) + ([Act(t, ended, Probe(true, false, why))] + ReadOk(t, ended))
                      + MutationEvents(t, ended, rev) + Finishes(t, ended);
            var d, level := Run(c, es), NextLevel(c.record.value.level);
            && Settled(d) && |d.log| == |c.log| + 1 && d.Host() == Some(NewCred(c.Host().value, true, rev))
            && d.record.value.level == level && d.record.value.nextCheck == Some(ended + Delay(c.cfg, level))
            && d.record.value.reason == why
  {
    ResumeRuns(c, t, Cycle(began, ended, 0, rev, why));
    RedisabledSettles(c, Cycle(began, ended, 0, rev, why), c.record.value);
  }

  lemma {:induction false} ResumeRuns(c: Cell, t: Tid, y: Cycle)
    requires Awake(c, y.began) && c.record.value.phase == ProbePending && y.redisableRev != c.Host().value.rev
    requires Ours(c.record.value, SeenAt(c.Host().value)) && Guarded(c.record.value, SeenAt(c.Host().value))
    ensures var es := Checks(t, ScanJob(c.record.value), y.began) + ([Act(t, y.ended, Probe(true, false, y.why))] + ReadOk(t, y.ended))
                      + MutationEvents(t, y.ended, y.redisableRev) + Finishes(t, y.ended);
            Run(c, es) == Redisabled(c, y, c.record.value)
  {
    var rec, job := c.record.value, ScanJob(c.record.value);
    var start := Checks(t, job, y.began) + ([Act(t, y.ended, Probe(true, false, y.why))] + ReadOk(t, y.ended));
    var mutation, end := MutationEvents(t, y.ended, y.redisableRev), Finishes(t, y.ended);
    ResumeProbes(c, t, y.began, y.ended, y.why);
    GuardFits(rec, c.Host().value);
    RedisableRuns(c, t, job, y, rec);
    RunConcat(c, start, mutation + end);
    Regroup(start, mutation, end);
  }

  lemma Regroup(a: seq<Event>, b: seq<Event>, d: seq<Event>)
    ensures a + b + d == a + (b + d)
  {
  }

  lemma GuardFits(rec: Rec, h: Cred)
    requires Ours(rec, SeenAt(h)) && Guarded(rec, SeenAt(h))
    ensures GuardMatchesPostEnable(SnapOf(h), rec)
  {
  }

  lemma RedisabledSettles(c: Cell, y: Cycle, rec: Rec)
    requires c.threads == map[] && c.token && c.record == Some(rec) && c.Host().Some?
    requires rec.wasEnabled && Ours(rec, SeenAt(c.Host().value))
    ensures var d, level := Redisabled(c, y, rec), NextLevel(rec.level);
            && Settled(d) && |d.log| == |c.log| + 1 && d.Host() == Some(NewCred(c.Host().value, true, y.redisableRev))
            && d.record.value.level == level && d.record.value.nextCheck == Some(y.ended + Delay(c.cfg, level))
            && d.record.value.reason == y.why
  {
    assert Redisabled(c, y, rec).Host() == Some(NewCred(c.Host().value, true, y.redisableRev));
  }

  lemma {:induction false} ResumeProbes(c: Cell, t: Tid, began: Time, ended: Time, why: Reason)
    requires Awake(c, began) && c.record.value.phase == ProbePending
    requires Ours(c.record.value, SeenAt(c.Host().value)) && Guarded(c.record.value, SeenAt(c.Host().value))
    ensures var rec, job := c.record.value, ScanJob(c.record.value);
            Run(c, Checks(t, job, began) + ([Act(t, ended, Probe(true, false, why))] + ReadOk(t, ended)))
            == Inside(c, t, job, ReadJSON(Before(RedisableMut(rec, why))))
  {
    var rec, job := c.record.value, ScanJob(c.record.value);
    ScanDecides(c, t, began);
    ProbeFails(c, t, job, rec, ended, why);
    RunConcat(c, Checks(t, job, began), [Act(t, ended, Probe(true, false, why))] + ReadOk(t, ended));
  }

  // ---------------------------------------------------------------- errors on the way

  /** A Host that fails the opening read: nothing is written to it, the record goes one level
      up, and its next check is after the back-off. */
  lemma {:induction false} UnreadableBacksOff(c: Cell, t: Tid, now: Time)
    requires Awake(c, now)
    ensures var job := ScanJob(c.record.value);
            var es := [Begin(t, job, now), Act(t, now, Lock)] + [Act(t, now, Load)]
                      + [Act(t, now, Get(Failed)), Act(t, now, Unlock)] + [Act(t, now, Load), Act(t, now, Commit(true))];
            var d := Run(c, es);
            && d == c.(record := d.record) && d.record.Some? && BacksOff(c.cfg, c.record.value, d.record.value, now, HostError)
  {
    var rec := c.record.value;
    var job := ScanJob(rec);
    var enter := [Begin(t, job, now), Act(t, now, Lock)] + [Act(t, now, Load)];
    ScanEnters(c, t, now);
    ReadFails(c, t, job, ProcessSnap(rec), now);
    ErrorRecorded(c, t, job, now);
    RunConcat(c, enter, [Act(t, now, Get(Failed)), Act(t, now, Unlock)]);
    RunConcat(c, enter + [Act(t, now, Get(Failed)), Act(t, now, Unlock)], [Act(t, now, Load), Act(t, now, Commit(true))]);
  }

  lemma {:induction false} ErrorRecorded(c: Cell, t: Tid, job: Job, now: Time)
    requires c.threads == map[] && c.record.Some? && job == ScanJob(c.record.value)
    ensures var d := Run(c.(threads := map[t := Thread(job, ErrLoad)]), [Act(t, now, Load), Act(t, now, Commit(true))]);
            d == c.(record := Some(Backed(c.cfg, c.record.value, now, HostError)))
  {
    var next := Backed(c.cfg, c.record.value, now, HostError);
    var outside := c.(threads := map[t := Thread(job, ErrLoad)]);
    Two(outside, Act(t, now, Load), Act(t, now, Commit(true)));
    assert outside.threads[t := Thread(job, ErrSave(next))] == map[t := Thread(job, ErrSave(next))];
    assert map[t := Thread(job, ErrSave(next))] - {t} == c.threads;
  }

  lemma {:induction false} ReadFails(c: Cell, t: Tid, job: Job, k: Cont, now: Time)
    requires c.threads == map[] && c.token && job.ScanJob? && k.ProcessSnap?
    ensures Run(Inside(c, t, job, ReadJSON(k)), [Act(t, now, Get(Failed)), Act(t, now, Unlock)])
         == c.(threads := map[t := Thread(job, ErrLoad)])
  {
    Two(Inside(c, t, job, ReadJSON(k)), Act(t, now, Get(Failed)), Act(t, now, Unlock));
    InsideGoto(c, t, job, ReadJSON(k), Leaving(Failed));
    assert Inside(c, t, job, Leaving(Failed)).threads[t := Thread(job, ErrLoad)] == map[t := Thread(job, ErrLoad)];
  }
}
