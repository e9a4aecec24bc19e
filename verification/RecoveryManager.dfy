/** The recovery manager and the credential transaction in the shape the plugin runs them:
    methods that call the Host, the prober and the state store one after another. Whatever
    the Host answers, whichever commits fail, and whatever other goroutines and outside
    writers do between two calls, what the methods do is a run of the protocol, so every
    result about runs applies to them. */
module RecoveryManager {
  import opened Basics
  import opened Backoff
  import opened Protocol
  import opened ProtocolLimits
  import opened OwnershipInvariant
  import opened OwnershipSafety

  datatype SnapResult = SnapErr(canceled: bool) | SnapOk(s: Snap)

  datatype MutResult = MutFails(err: MutErr, now: Time) | MutDoes(before: Snap, after: Snap, changed: bool, now: Time)

  lemma RunAppend(c: Cell, es: seq<Event>, e: Event)
    ensures Run(c, es + [e]) == Step(Run(c, es), e)
  {
    RunConcat(c, es, [e]);
    assert [e][1..] == [];
  }

  /** Where a goroutine inside the lock stands after a store commit or a store read. */
  function AfterCommit(pc: PC, ok: bool): PC {
    if !ok then Leaving(Failed)
    else
      match pc
      case WriteAhead(rec) => LoadPending(rec)
      case SetProbePending(_, after) => LoadProbe(after)
      case RecordHealth => Retiring
      case _ => Leaving(Done)
  }

  function AfterLoad(pc: PC, r: Option<Rec>): PC {
    if r.None? then Leaving(Done)
    else
      match pc
      case LoadPending(rec) => ReadJSON(Before(EnableMut(rec, r.value)))
      case LoadProbe(after) => Probing(r.value, after)
      case _ => pc
  }

  predicate AtCommit(pc: PC) {
    pc.Retiring? || pc.Reviewing? || pc.WriteAhead? || pc.SetProbePending? || pc.Backing?
    || pc.FinishDisabled? || pc.RecordHealth? || pc.QuotaRecord?
  }

  lemma CommitLands(c: Cell, t: Tid, ok: bool)
    requires t in c.threads && AtCommit(c.threads[t].pc)
    ensures var d := CommitStep(c, t, ok);
            && t in d.threads && d.threads[t] == Thread(c.threads[t].job, AfterCommit(c.threads[t].pc, ok))
            && (!ok ==> d.record == c.record)
  {
  }

  /** A closure handed to the state store: from the record found there, and the identifier it
      may draw, to the record to leave. */
  type Change = (Option<Rec>, nat) -> Option<Rec>

  /** The closure leaves the record that the protocol's commit at this point leaves. */
  ghost predicate Stores(change: Change, t: Tid, job: Job, pc: PC) {
    forall d: Cell :: t in d.threads && d.threads[t] == Thread(job, pc) ==>
      change(d.record, d.nextAttempt) == CommitStep(d, t, true).record
  }

  lemma LoadLands(c: Cell, t: Tid, now: Time)
    requires t in c.threads && (c.threads[t].pc.LoadPending? || c.threads[t].pc.LoadProbe?)
    ensures var d := LoadStep(c, t, now);
            t in d.threads && d.threads[t] == Thread(c.threads[t].job, AfterLoad(c.threads[t].pc, c.record))
  {
  }

  lemma CommitIsStep(c: Cell, t: Tid, now: Time, ok: bool)
    requires t in c.threads
    ensures Step(c, Act(t, now, Commit(ok))) == CommitStep(c, t, ok)
  {
  }

  lemma CommitApplies(c: Cell, t: Tid, job: Job, pc: PC, change: Change)
    requires t in c.threads && c.threads[t] == Thread(job, pc) && Stores(change, t, job, pc)
    ensures CommitStep(c, t, true).record == change(c.record, c.nextAttempt)
  {
  }

  lemma CommitStores(c: Cell, t: Tid, now: Time, ok: bool, job: Job, pc: PC, change: Change)
    requires t in c.threads && c.threads[t] == Thread(job, pc) && AtCommit(pc) && Stores(change, t, job, pc)
    ensures var d := Step(c, Act(t, now, Commit(ok)));
            && d == CommitStep(c, t, ok) && t in d.threads && d.threads[t] == Thread(job, AfterCommit(pc, ok))
            && d.record == if ok then change(c.record, c.nextAttempt) else c.record
  {
    CommitIsStep(c, t, now, ok);
    CommitLands(c, t, ok);
    if ok {
      CommitApplies(c, t, job, pc, change);
    }
  }

  /** The write-ahead announcement of an attempt. */
  function Announced(record: Rec): Change {
    (r: Option<Rec>, n: nat) =>
      if r.None? then r else Some(r.value.(phase := RestorePending, attempt := n, reason := record.reason))
  }

  lemma AnnouncedStores(t: Tid, job: Job, record: Rec)
    ensures Stores(Announced(record), t, job, WriteAhead(record))
  {
  }

  /** The enabled credential becomes the guard of the probe. */
  function Guarded(after: Snap): Change
    requires after.HasRev()
  {
    var hash, rev := after.body, after.Rev();
    (r: Option<Rec>, n: nat) =>
      if r.None? then r else Some(r.value.(phase := ProbePending, postHash := Some(hash), postRev := Some(rev)))
  }

  lemma GuardedStores(t: Tid, job: Job, pending: Rec, after: Snap)
    requires after.HasRev()
    ensures Stores(Guarded(after), t, job, SetProbePending(pending, after))
  {
  }

  /** The end of a failed attempt. */
  function AttemptEnded(next: Rec, after: Snap): Change
    requires after.HasRev()
  {
    var hash, rev := after.body, after.Rev();
    (r: Option<Rec>, n: nat) =>
      if r.None? then r
      else Some(r.value.(phase := OwnedDisabled, level := next.level, nextCheck := next.nextCheck, reason := next.reason,
                         hash := hash, saveRev := Some(rev), postHash := None, postRev := None))
  }

  lemma AttemptEndedStores(t: Tid, job: Job, next: Rec, after: Snap)
    requires after.HasRev() && next.nextCheck.Some?
    ensures Stores(AttemptEnded(next, after), t, job, FinishDisabled(after, next.level, next.nextCheck.value, next.reason))
  {
  }

  /** The error record goes in only over a record of the same attempt. */
  function WithErrorRecord(next: Rec, r: Option<Rec>): Option<Rec> {
    if r.Some? && r.value.attempt == next.attempt then Some(next) else r
  }

  lemma ErrSaveStores(c: Cell, t: Tid, now: Time, ok: bool, next: Rec)
    requires t in c.threads && c.threads[t].pc == ErrSave(next)
    ensures var d := Step(c, Act(t, now, Commit(ok)));
            t !in d.threads && d.record == if ok then WithErrorRecord(next, c.record) else c.record
  {
  }

  class Manager {
    var c: Cell
    const me: Tid
    const cfg: Cfg
    ghost const start: Cell
    ghost var trace: seq<Event>

    /** What was done so far is a run of the protocol. */
    ghost predicate Valid()
      reads this
    {
      c == Run(start, trace) && c.cfg == cfg
    }

    ghost predicate Here(job: Job, pc: PC)
      reads this
    {
      me in c.threads && c.threads[me] == Thread(job, pc)
    }

    constructor (initial: Cell, me: Tid)
      ensures Valid() && c == initial && start == initial && this.me == me && trace == []
    {
      c := initial;
      this.me := me;
      cfg := initial.cfg;
      start := initial;
      trace := [];
    }

    method Do(e: Event)
      requires Valid()
      modifies this
      ensures Valid() && c == Step(old(c), e) && trace == old(trace) + [e]
    {
      RunAppend(start, trace, e);
      CfgKept(c, e);
      c := Step(c, e);
      trace := trace + [e];
    }

    /** Any number of foreign events happen between two calls. */
    method Others()
      requires Valid()
      modifies this
      ensures Valid() && old(trace) <= trace
      ensures me in c.threads <==> me in old(c).threads
      ensures me in c.threads ==> c.threads[me] == old(c).threads[me]
    {
      var steps: nat := *;
      while steps > 0
        invariant Valid() && old(trace) <= trace
        invariant me in c.threads <==> me in old(c).threads
        invariant me in c.threads ==> c.threads[me] == old(c).threads[me]
      {
        var e: Event := *;
        if Elsewhere(e, me) {
          ElsewhereKeeps(c, e, me);
          Do(e);
        }
        steps := steps - 1;
      }
    }

    method Now() returns (now: Time) {
      now := *;
    }

    // ------------------------------------------------- Host and store calls

    method Snapshot(ghost job: Job, ghost k: Cont) returns (r: SnapResult, now: Time, ghost at: Cell)
      requires Valid() && Here(job, ReadJSON(k))
      modifies this
      ensures Valid() && old(trace) <= trace
      ensures me in at.threads && at.threads[me].job == job && at.cfg == cfg
      ensures r.SnapErr? ==> c == SnapFailed(at, me, k, r.canceled, now)
      ensures r.SnapOk? ==> c == SnapReady(at, me, k, r.s, now)
    {
      Others();
      now := Now();
      var res: Exit := *;
      var host := c.Host();
      at := c;
      Do(Act(me, now, Get(res)));
      if res != Done || host.None? {
        return SnapErr(res == Canceled), now, at;
      }
      var flag, body, name := host.value.flag, host.value.body, host.value.name;
      Others();
      now := Now();
      var answer: RuntimeAnswer := *;
      host := c.Host();
      at := c;
      Do(Act(me, now, GetRuntime(answer)));
      if answer == RuntimeFails || host.None? {
        return SnapOk(Snap(flag, body, name, None)), now, at;
      }
      if host.value.name != name {
        return SnapErr(false), now, at;
      }
      var rev := if answer == RuntimeOk then Some(host.value.rev) else None;
      return SnapOk(Snap(flag, body, name, Some(Runtime(host.value.id, rev)))), now, at;
    }

    method StoreGet(now: Time) returns (r: Option<Rec>, ghost at: Cell)
      requires Valid() && me in c.threads
      modifies this
      ensures Valid() && old(trace) <= trace
      ensures me in at.threads && at.threads[me] == old(c).threads[me]
      ensures r == at.record && c == LoadStep(at, me, now)
      ensures |old(trace)| < |trace| && trace[|trace| - 1] == Act(me, now, Load) && at == Run(start, trace[..|trace| - 1])
    {
      Others();
      r := c.record;
      at := c;
      ghost var before := trace;
      Do(Act(me, now, Load));
      assert trace[..|trace| - 1] == before;
    }

    /** The two reads that follow a commit inside a recovery attempt. */
    method StoreReload(ghost job: Job, ghost pc: PC) returns (r: Option<Rec>)
      requires Valid() && Here(job, pc) && (pc.LoadPending? || pc.LoadProbe?)
      modifies this
      ensures Valid() && old(trace) <= trace && Here(job, AfterLoad(pc, r))
    {
      var now := Now();
      var got, at := StoreGet(now);
      LoadLands(at, me, now);
      r := got;
    }

    /** One store update: `change` is applied to the record of that moment, and a failed update
        leaves it. */
    method StoreUpdate(ghost job: Job, ghost pc: PC, change: Change) returns (ok: bool, ghost at: Cell)
      requires Valid() && Here(job, pc) && AtCommit(pc) && Stores(change, me, job, pc)
      modifies this
      ensures Valid() && old(trace) <= trace && Here(job, AfterCommit(pc, ok))
      ensures me in at.threads && at.threads[me] == Thread(job, pc) && c == CommitStep(at, me, ok)
      ensures c.record == if ok then change(at.record, at.nextAttempt) else at.record
    {
      Others();
      ok := *;
      var now := Now();
      at := c;
      CommitStores(c, me, now, ok, job, pc, change);
      var next := if ok then change(c.record, c.nextAttempt) else c.record;
      Do(Act(me, now, Commit(ok)));
      assert c.record == next;
    }

    /** scheduleBackoff, with the reason its callers set. */
    method ScheduleBackoff(record: Rec, now: Time, reason: Reason) returns (out: Rec)
      ensures out == Backed(cfg, record, now, reason)
    {
      var level := record.level;
      if level < 0 {
        level := 0;
      }
      if level < MAX_LEVEL {
        level := level + 1;
      }
      var delay := BackoffForLevel(cfg.initial, cfg.maximum, level);
      out := record.(level := level, nextCheck := Some(now + delay as int), reason := reason);
    }

    method HostSave(ghost job: Job, ghost m: Mutation, ghost before: Snap) returns (res: Exit, now: Time, ghost at: Cell)
      requires Valid() && Here(job, Saving(m, before))
      modifies this
      ensures Valid() && old(trace) <= trace
      ensures me in at.threads && at.threads[me].job == job && at.cfg == cfg
      ensures res == Done ==> Here(job, ReadJSON(After(m, before)))
      ensures res != Done ==> c == MutFailed(at, me, m, if res == Canceled then ContextCanceled else OtherError, now)
    {
      Others();
      now := Now();
      var applied: bool := *;
      var rev: Rev := *;
      res := *;
      var cell := c;
      Do(Act(me, now, Save(applied, rev, res)));
      var id := if cell.Host().Some? then cell.Host().value.id else "";
      at := if applied then AppendWrite(cell, m.Kind(), Some(Cred(Bool(m.Target()), before.body, id, before.name, rev))) else cell;
    }

    // ------------------------------------------------- credentials.MutateAndSaveLocked

    method MutateAndSaveLocked(ghost job: Job, m: Mutation) returns (r: MutResult, ghost at: Cell)
      requires Valid() && Here(job, ReadJSON(Before(m)))
      modifies this
      ensures Valid() && old(trace) <= trace
      ensures me in at.threads && at.threads[me].job == job && at.cfg == cfg
      ensures r.MutFails? ==> c == MutFailed(at, me, m, r.err, r.now)
      ensures r.MutDoes? ==> r.after.HasRev() && c == MutDone(at, me, m, r.before, r.after, r.changed, r.now)
    {
      var got, now, cell := Snapshot(job, Before(m));
      at := cell;
      if got.SnapErr? {
        return MutFails(if got.canceled then ContextCanceled else OtherError, now), at;
      }
      var before := got.s;
      if !before.HasRev() {
        return MutFails(RevisionUnavailable, now), at;
      }
      if !m.Guard(before) {
        return MutFails(RevisionMismatch, now), at;
      }
      if before.flag == Bool(m.Target()) {
        return MutDoes(before, before, false, now), at;
      }
      var res;
      res, now, at := HostSave(job, m, before);
      if res != Done {
        return MutFails(if res == Canceled then ContextCanceled else OtherError, now), at;
      }
      got, now, at := Snapshot(job, After(m, before));
      if got.SnapErr? {
        return MutFails(OtherError, now), at;
      }
      var after := got.s;
      if !after.HasRev() || after.Rev() == before.Rev() {
        return MutFails(OtherError, now), at;
      }
      if after.flag.Disabled() != m.Target() {
        return MutFails(OtherError, now), at;
      }
      return MutDoes(before, after, true, now), at;
    }

    // ------------------------------------------------- recovery.Manager

    method Retire(ghost job: Job) returns (exit: Exit)
      requires Valid() && Here(job, Retiring)
      modifies this
      ensures Valid() && old(trace) <= trace && Here(job, Leaving(exit))
    {
      var ok, _ := StoreUpdate(job, Retiring, (r: Option<Rec>, _) => None);
      exit := if ok then Done else Failed;
    }

    method ManualReviewNow(ghost job: Job, reason: Reason) returns (exit: Exit)
      requires Valid() && Here(job, Reviewing(reason))
      modifies this
      ensures Valid() && old(trace) <= trace && Here(job, Leaving(exit))
    {
      var change: Change := (r: Option<Rec>, n: nat) =>
        if r.None? then r else Some(r.value.(phase := ManualReview, reason := reason));
      var ok, _ := StoreUpdate(job, Reviewing(reason), change);
      exit := if ok then Done else Failed;
    }

    method RetryOrReview(ghost job: Job, m: Mutation, err: MutErr, now: Time, ghost at: Cell) returns (exit: Exit)
      requires Valid() && m.EnableMut? && me in at.threads && at.threads[me].job == job && at.cfg == cfg
      requires c == MutFailed(at, me, m, err, now)
      modifies this
      ensures Valid() && old(trace) <= trace && Here(job, Leaving(exit))
    {
      if err == ContextCanceled {
        return Canceled;
      }
      if err == RevisionUnavailable || err == RevisionMismatch {
        exit := ManualReviewNow(job, OwnershipGuardFailed);
        return;
      }
      var next := ScheduleBackoff(m.pending, now, RecoveryError);
      var ok, _ := StoreUpdate(job, Backing(next), (r: Option<Rec>, n: nat) => if r.None? then r else Some(next));
      exit := if ok then Done else Failed;
    }

    /** The n-th event reads the record, at the instant `now` and in the state `at`. Unless the
        record's check has come, it is not in review and the credential was enabled before,
        nothing else is done. */
    method ProcessLocked(job: Job) returns (exit: Exit, ghost n: nat, ghost at: Cell, now: Time)
      requires Valid() && Here(job, Loading)
      modifies this
      ensures Valid() && old(trace) <= trace && Here(job, Leaving(exit))
      ensures |old(trace)| <= n < |trace| && trace[n] == Act(me, now, Load) && at == Run(start, trace[..n])
      ensures at.record.None? || (at.record.value.nextCheck.Some? && now < at.record.value.nextCheck.value)
              || at.record.value.phase == ManualReview || !at.record.value.wasEnabled
              ==> exit == Done && n + 1 == |trace|
    {
      exit := Done;
      now := Now();
      var got;
      got, at := StoreGet(now);
      n := |trace| - 1;
      if got.None? || !Due(got.value, now) {
        return;
      }
      var record := got.value;
      if record.phase == ManualReview || !record.wasEnabled {
        return;
      }
      ghost var sofar := trace;
      exit := ProcessRecord(job, record);
      assert trace[..n] == sofar[..n];
    }

    /** The rest of processLocked, on a record that is due. */
    method ProcessRecord(job: Job, record: Rec) returns (exit: Exit)
      requires Valid() && Here(job, ReadJSON(ProcessSnap(record))) && record.phase != ManualReview
      modifies this
      ensures Valid() && old(trace) <= trace && Here(job, Leaving(exit))
    {
      var r, later, cell := Snapshot(job, ProcessSnap(record));
      if r.SnapErr? {
        return if r.canceled then Canceled else Failed;
      }
      var snap := r.s;
      if (record.authId != "" && snap.Id() != "" && snap.Id() != record.authId) || (record.fileName != "" && snap.name != record.fileName) {
        exit := Retire(job);
        return;
      }
      if record.authId != "" && snap.runtime.Some? && snap.Id() == "" {
        exit := ManualReviewNow(job, OwnershipGuardFailed);
        return;
      }
      match record.phase
      case OwnedDisabled =>
        exit := StartRecoveryLocked(job, record, snap, cell);
      case RestorePending =>
        if snap.flag.Disabled() {
          exit := StartRecoveryLocked(job, record, snap, cell);
        } else {
          exit := ManualReviewNow(job, UnverifiablePendingEnable);
        }
      case ProbePending =>
        if !snap.HasRev() {
          exit := ManualReviewNow(job, PostEnableGuardUnavailable);
        } else if snap.flag.Disabled() {
          exit := Retire(job);
        } else if !GuardMatchesPostEnable(snap, record) {
          exit := Retire(job);
        } else {
          exit := ProbeLocked(job, record, snap);
        }
    }

    method StartRecoveryLocked(job: Job, record: Rec, snap: Snap, ghost at: Cell) returns (exit: Exit)
      requires Valid() && me in at.threads && at.threads[me].job == job
      requires c == StartRecovery(at, me, record, snap)
      modifies this
      ensures Valid() && old(trace) <= trace && Here(job, Leaving(exit))
    {
      if !snap.flag.Disabled() {
        exit := Retire(job);
        return;
      }
      if record.saveRev.None? || !snap.HasRev() {
        exit := ManualReviewNow(job, DisableRevisionUnavailable);
        return;
      }
      if snap.body != record.hash || snap.Rev() != record.saveRev.value {
        exit := Retire(job);
        return;
      }
      exit := EnableOwned(job, record);
    }

    /** The second half of startRecoveryLocked: announce, enable under the guard, bind, probe. */
    method EnableOwned(job: Job, record: Rec) returns (exit: Exit)
      requires Valid() && Here(job, WriteAhead(record))
      modifies this
      ensures Valid() && old(trace) <= trace && Here(job, Leaving(exit))
    {
      AnnouncedStores(me, job, record);
      var ok, _ := StoreUpdate(job, WriteAhead(record), Announced(record));
      if !ok {
        return Failed;
      }
      var pending := StoreReload(job, LoadPending(record));
      if pending.None? {
        return Done;
      }
      var m := EnableMut(record, pending.value);
      var r, cell := MutateAndSaveLocked(job, m);
      if r.MutFails? {
        exit := RetryOrReview(job, m, r.err, r.now, cell);
        return;
      }
      exit := BindAndProbe(job, pending.value, r.after);
    }

    /** The last part: what the probe is guarded by goes on record first. */
    method BindAndProbe(job: Job, pending: Rec, after: Snap) returns (exit: Exit)
      requires Valid() && after.HasRev() && Here(job, SetProbePending(pending, after))
      modifies this
      ensures Valid() && old(trace) <= trace && Here(job, Leaving(exit))
    {
      GuardedStores(me, job, pending, after);
      var ok, _ := StoreUpdate(job, SetProbePending(pending, after), Guarded(after));
      if !ok {
        return Failed;
      }
      var bound := StoreReload(job, LoadProbe(after));
      if bound.None? {
        return Done;
      }
      exit := ProbeLocked(job, bound.value, after);
    }

    method ProbeLocked(job: Job, record: Rec, snap: Snap) returns (exit: Exit)
      requires Valid() && Here(job, Probing(record, snap))
      modifies this
      ensures Valid() && old(trace) <= trace && Here(job, Leaving(exit))
    {
      Others();
      var available: bool, success: bool, reason: Reason := *, *, *;
      var now := Now();
      Do(Act(me, now, Probe(available, success, reason)));
      if !available {
        exit := FinishFailedProbe(job, record, ProbeUnavailable);
        return;
      }
      if !snap.HasRev() {
        exit := ManualReviewNow(job, PostEnableGuardUnavailable);
        return;
      }
      if snap.flag.Disabled() || !GuardMatchesPostEnable(snap, record) {
        exit := Retire(job);
        return;
      }
      if !success {
        exit := FinishFailedProbe(job, record, reason);
        return;
      }
      exit := ConfirmProbe(job, record);
    }

    /** After a successful probe: the guarded re-read, the health record, the end. */
    method ConfirmProbe(job: Job, record: Rec) returns (exit: Exit)
      requires Valid() && Here(job, ReadJSON(ProbeOk(record)))
      modifies this
      ensures Valid() && old(trace) <= trace && Here(job, Leaving(exit))
    {
      var r, later, cell := Snapshot(job, ProbeOk(record));
      if r.SnapErr? {
        return if r.canceled then Canceled else Failed;
      }
      var current := r.s;
      if !current.HasRev() {
        exit := ManualReviewNow(job, PostEnableGuardUnavailable);
        return;
      }
      if current.flag.Disabled() || !GuardMatchesPostEnable(current, record) {
        exit := Retire(job);
        return;
      }
      var ok, _ := StoreUpdate(job, RecordHealth, (r: Option<Rec>, n: nat) => r);
      if !ok {
        return Failed;
      }
      exit := Retire(job);
    }

    method FinishFailedProbe(job: Job, record: Rec, reason: Reason) returns (exit: Exit)
      requires Valid() && Here(job, ReadJSON(FailSnap(record, reason)))
      modifies this
      ensures Valid() && old(trace) <= trace && Here(job, Leaving(exit))
    {
      var r, later, cell := Snapshot(job, FailSnap(record, reason));
      if r.SnapErr? {
        return if r.canceled then Canceled else Failed;
      }
      var current := r.s;
      if !current.HasRev() {
        exit := ManualReviewNow(job, PostEnableGuardUnavailable);
        return;
      }
      if current.flag.Disabled() || !GuardMatchesPostEnable(current, record) {
        exit := Retire(job);
        return;
      }
      var result;
      result, cell := MutateAndSaveLocked(job, RedisableMut(record, reason));
      if result.MutFails? {
        exit := ManualReviewNow(job, RedisableFailed);
        return;
      }
      var next := ScheduleBackoff(record, result.now, reason);
      AttemptEndedStores(me, job, next, result.after);
      var ok, _ := StoreUpdate(job, FinishDisabled(result.after, next.level, next.nextCheck.value, reason), AttemptEnded(next, result.after));
      exit := if ok then Done else Failed;
    }

    method RecordSafeError(job: Job)
      requires Valid() && Here(job, ErrLoad) && job.ScanJob?
      modifies this
      ensures Valid() && old(trace) <= trace && me !in c.threads
    {
      var now := Now();
      var current, at := StoreGet(now);
      if current.None? || current.value.attempt != job.outer.attempt {
        return;
      }
      var next := ScheduleBackoff(current.value, now, HostError);
      Others();
      var ok: bool := *;
      var stored := if ok then WithErrorRecord(next, c.record) else c.record;
      now := Now();
      ErrSaveStores(c, me, now, ok, next);
      Do(Act(me, now, Commit(ok)));
      assert c.record == stored;
    }

    /** One turn of Scan for this auth index, WithLock included: taken up, as the n-th event at
        the instant `now`, exactly when the record then found has reached its next check. */
    method ScanOne() returns (exit: Exit, ghost n: nat, ghost at: Cell, now: Time)
      requires Valid() && me !in c.threads
      modifies this
      ensures Valid() && old(trace) <= trace && me !in c.threads
      ensures |old(trace)| <= n <= |trace| && at == Run(start, trace[..n])
      ensures if at.record.Some? && (at.record.value.nextCheck.None? || at.record.value.nextCheck.value <= now)
              then n < |trace| && trace[n] == Begin(me, ScanJob(at.record.value), now)
              else exit == Done && n == |trace|
    {
      exit := Done;
      Others();
      now := Now();
      n, at := |trace|, c;
      assert trace[..n] == trace;
      if c.record.None? || !Due(c.record.value, now) {
        return;
      }
      var job := ScanJob(c.record.value);
      ghost var before := trace;
      Do(Begin(me, job, now));
      exit := WithLock(job);
      if exit == Failed {
        RecordSafeError(job);
      }
      assert before + [Begin(me, job, now)] <= trace;
      assert trace[..n] == before;
    }

    /** Waits for the token or for its context to end; runs the job; gives the token back. */
    method WithLock(job: Job) returns (exit: Exit)
      requires Valid() && Here(job, WantLock)
      modifies this
      ensures Valid() && old(trace) <= trace
      ensures if exit == Failed && job.ScanJob? then Here(job, ErrLoad) else me !in c.threads
    {
      Others();
      var now := Now();
      var ended: bool := *;
      if ended || !c.token {
        Do(Act(me, now, GiveUp));
        return Canceled;
      }
      Do(Act(me, now, Lock));
      if job.ScanJob? {
        ghost var n, at;
        var loaded;
        exit, n, at, loaded := ProcessLocked(job);
      } else {
        exit := DisableFromQuota(job);
      }
      Others();
      now := Now();
      Do(Act(me, now, Unlock));
    }

    // ------------------------------------------------- Controller.disableFromQuota

    method OwnershipRecord(job: Job, before: Snap, after: Snap, attempt: nat, now: Time, ghost at: Cell) returns (owned: Rec)
      requires job.QuotaJob? && after.HasRev() && at.cfg == cfg && at.nextAttempt == attempt
      ensures owned == QuotaRec(at, job, before, after, now)
    {
      var next: Time;
      if job.resetAt.Some? && job.resetAt.value > now {
        next := job.resetAt.value;
      } else {
        var backoff := cfg.initial;
        if backoff <= 0 {
          backoff := DEFAULT_INITIAL;
        }
        next := now + backoff as int;
      }
      var id := job.usageId;
      if id == "" {
        id := job.entryId;
      }
      owned := Rec(id, before.name, true, before.body, Some(after.Rev()), OwnedDisabled, attempt,
                   None, None, 0, Some(next), job.why);
    }

    method DisableFromQuota(job: Job) returns (exit: Exit)
      requires Valid() && job.QuotaJob? && Here(job, ReadJSON(QuotaSnap))
      modifies this
      ensures Valid() && old(trace) <= trace && Here(job, Leaving(exit))
    {
      var r, later, cell := Snapshot(job, QuotaSnap);
      if r.SnapErr? {
        return if r.canceled then Canceled else Failed;
      }
      var snap := r.s;
      if job.usageId != "" && (snap.Id() == "" || TrimSpace(job.usageId) != TrimSpace(snap.Id())) {
        return Done;
      }
      if snap.flag.Disabled() {
        return Done;
      }
      if !snap.HasRev() {
        return Failed;
      }
      var now := Now();
      var existing;
      existing, cell := StoreGet(now);
      if existing.Some? {
        return Done;
      }
      exit := DisableAndOwn(job, snap);
    }

    /** The second half of disableFromQuota: disable under the guard, take ownership. */
    method DisableAndOwn(job: Job, snap: Snap) returns (exit: Exit)
      requires Valid() && job.QuotaJob? && snap.HasRev() && Here(job, ReadJSON(Before(DisableMut(snap.body, snap.Rev()))))
      modifies this
      ensures Valid() && old(trace) <= trace && Here(job, Leaving(exit))
    {
      var result, cell := MutateAndSaveLocked(job, DisableMut(snap.body, snap.Rev()));
      if result.MutFails? {
        return Failed;
      }
      if !result.changed {
        return Done;
      }
      var drawn: nat := c.nextAttempt - 1;  // the identifier the transaction's last step drew
      var owned := OwnershipRecord(job, result.before, result.after, drawn, result.now, cell);
      var ok, _ := StoreUpdate(job, QuotaRecord(owned), (r: Option<Rec>, n: nat) => Some(owned));
      exit := if ok then Done else Failed;
    }
  }

  /** Whatever the manager's methods did from an empty start, in whatever company: the Host
      writes are safe and an unconfirmed enable is on record. */
  lemma ManagerIsSafe(m: Manager, cfg: Cfg)
    requires m.Valid() && m.start == Fresh(cfg)
    requires CleanRun(m.start, m.trace) && FreshRun(m.start, m.trace)
    ensures LogOk(m.c.log)
    ensures Unconfirmed(m.c) ==> m.c.record.Some? && m.c.record.value.phase != OwnedDisabled
  {
    OwnershipSafe(cfg, m.trace);
    EnableIsRecorded(cfg, m.trace);
  }
}
