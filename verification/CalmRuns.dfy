/** Undisturbed recovery in every run: as long as nobody else writes, nothing crashes, every
    Host call and every commit succeeds and every probe fails, the number of failed attempts
    and the instant of the last one determine the record, whoever scans, however scans and
    quota events interleave, and however long each action takes. */
module CalmRuns {
  import opened Basics
  import opened Backoff
  import opened Protocol
  import opened OwnershipInvariant
  import opened ProtocolLimits
  import opened RecoveryCycles

  // ------------------------------------------------- the runs considered

  /** No outside write, no crash, no failed answer or commit, no successful probe. */
  predicate CalmEvent(e: Event) {
    match e
    case Outside(_) => false
    case Crash => false
    case Begin(_, _, _) => true
    case Act(_, _, op) =>
      match op
      case Get(res) => res == Done
      case GetRuntime(answer) => answer == RuntimeOk
      case Save(applied, _, res) => applied && res == Done
      case Commit(ok) => ok
      case Probe(available, success, _) => !(available && success)
      case _ => true
  }

  predicate CalmRun(c: Cell, es: seq<Event>)
    decreases es
  {
    es == [] || (CalmEvent(es[0]) && NewRevision(c, es[0]) && CalmRun(Step(c, es[0]), es[1..]))
  }

  /** The event verifies a re-disable: a failed attempt is complete at its instant. */
  predicate Fails(c: Cell, e: Event) {
    e.Act? && e.op.GetRuntime? && e.t in c.threads && c.threads[e.t].pc.ReadRuntime?
    && c.threads[e.t].pc.k.After? && c.threads[e.t].pc.k.m.RedisableMut?
  }

  /** The instants at which attempts of the run failed, in order. */
  function Failures(c: Cell, es: seq<Event>): seq<Time>
    decreases es
  {
    if es == [] then []
    else (if Fails(c, es[0]) then [es[0].now] else []) + Failures(Step(c, es[0]), es[1..])
  }

  // ------------------------------------------------- the stages of an attempt

  predicate Ids(rec: Rec, h: Cred) {
    rec.wasEnabled && (rec.authId == "" || rec.authId == h.id) && (rec.fileName == "" || rec.fileName == h.name)
  }

  datatype Stage = Owned | Announced | Enabled | Bound | Struck

  /** Record and credential agree as the stage demands. */
  predicate At(rec: Rec, h: Cred, g: Stage) {
    && Ids(rec, h)
    && match g
       case Owned => rec.phase == OwnedDisabled && h.flag == Bool(true) && rec.hash == h.body && rec.saveRev == Some(h.rev)
       case Announced => rec.phase == RestorePending && h.flag == Bool(true) && rec.hash == h.body && rec.saveRev == Some(h.rev)
       case Enabled => rec.phase == RestorePending && h.flag == Bool(false)
       case Bound => rec.phase == ProbePending && h.flag == Bool(false) && rec.postHash == Some(h.body) && rec.postRev == Some(h.rev)
       case Struck => rec.phase == ProbePending && h.flag == Bool(true)
  }

  predicate ContAt(k: Cont, rec: Rec, h: Cred) {
    match k
    case ProcessSnap(r) => r == rec && At(rec, h, Owned)
    case QuotaSnap => At(rec, h, Owned)
    case FailSnap(r, _) => r == rec && At(rec, h, Bound)
    case ProbeOk(_) => false
    case Before(m) =>
      (match m
       case EnableMut(r, pending) => pending == rec && r.hash == h.body && r.saveRev == Some(h.rev) && At(rec, h, Announced)
       case RedisableMut(r, _) => r == rec && At(rec, h, Bound)
       case DisableMut(_, _) => false)
    case After(m, before) =>
      before.HasRev() && before.Rev() != h.rev &&
      (match m
       case EnableMut(_, pending) => pending == rec && At(rec, h, Enabled)
       case RedisableMut(r, _) => r == rec && At(rec, h, Struck)
       case DisableMut(_, _) => false)
  }

  /** Where the holder of the lock may stand, and what it knows there. */
  predicate HolderAt(pc: PC, rec: Rec, h: Cred) {
    match pc
    case Loading => At(rec, h, Owned)
    case ReadJSON(k) => ContAt(k, rec, h)
    case ReadRuntime(k, flag, body, name) => ContAt(k, rec, h) && flag == h.flag && body == h.body && name == h.name
    case WriteAhead(r) => r == rec && At(rec, h, Owned)
    case LoadPending(r) => At(rec, h, Announced) && r.hash == h.body && r.saveRev == Some(h.rev)
    case Saving(m, before) => ContAt(Before(m), rec, h) && before == SnapOf(h)
    case SetProbePending(pending, after) => pending == rec && At(rec, h, Enabled) && after == SnapOf(h)
    case LoadProbe(after) => At(rec, h, Bound) && after == SnapOf(h)
    case Probing(r, snap) => r == rec && At(rec, h, Bound) && snap == SnapOf(h)
    case FinishDisabled(after, _, _, _) => At(rec, h, Struck) && after == SnapOf(h)
    case Leaving(exit) => exit == Done && At(rec, h, Owned)
    case _ => false
  }

  predicate ThreadAt(c: Cell, t: Tid) {
    t in c.threads ==>
      c.record.Some? && c.Host().Some?
      && (c.threads[t].pc.WantLock? || HolderAt(c.threads[t].pc, c.record.value, c.Host().value))
  }

  ghost predicate Calm(c: Cell) {
    && c.record.Some? && c.Host().Some? && c.Host().value.rev in c.origin
    && LockOk(c)
    && (forall t :: ThreadAt(c, t))
    && ((forall t :: !Holds(c, t)) ==> At(c.record.value, c.Host().value, Owned) && c.token)
  }

  // ------------------------------------------------- what is owed

  predicate Finishing(c: Cell, t: Tid) {
    t in c.threads && c.threads[t].pc.FinishDisabled?
  }

  /** Level and next check on record, or about to be committed. */
  ghost predicate Owes(c: Cell, level: int, next: Option<Time>) {
    && (forall t :: Finishing(c, t) ==> c.threads[t].pc.level == level && Some(c.threads[t].pc.nextCheck) == next)
    && (c.record.Some? && (forall t :: !Finishing(c, t)) ==> c.record.value.level == level && c.record.value.nextCheck == next)
  }

  /** What is owed after the failures of a run. */
  function LevelAfter(base: int, failures: seq<Time>): int {
    Min(MAX_LEVEL, base + |failures|)
  }

  function NextAfter(cfg: Cfg, base: int, next: Option<Time>, failures: seq<Time>): Option<Time> {
    if failures == [] then next
    else Some(failures[|failures| - 1] + Delay(cfg, LevelAfter(base, failures)))
  }

  // ------------------------------------------------- frame

  /** Whoever is not the holder waits for the lock. */
  lemma OthersWait(c: Cell, t: Tid, u: Tid)
    requires Calm(c) && Holds(c, t) && u != t && u in c.threads
    ensures c.threads[u].pc.WantLock?
  {
    assert ThreadAt(c, u) && !Holds(c, u);
  }

  lemma HolderGoes(c: Cell, d: Cell, t: Tid)
    requires Calm(c) && Holds(c, t) && t in d.threads && d.threads == c.threads[t := d.threads[t]] && d.token == c.token
    requires d.record.Some? && d.Host().Some? && d.Host().value.rev in d.origin && !Unlocked(d.threads[t].pc)
    requires HolderAt(d.threads[t].pc, d.record.value, d.Host().value)
    ensures Calm(d)
  {
    forall u ensures ThreadAt(d, u) && (Holds(d, u) ==> u == t) {
      if u != t && u in c.threads {
        OthersWait(c, t, u);
      }
    }
    assert Holds(d, t);
  }

  lemma StillOwes(c: Cell, d: Cell, t: Tid, level: int, next: Option<Time>)
    requires Calm(c) && Owes(c, level, next) && Holds(c, t) && !Finishing(c, t)
    requires t in d.threads && d.threads == c.threads[t := d.threads[t]] && !Finishing(d, t)
    requires d.record.Some? && d.record.value.level == c.record.value.level && d.record.value.nextCheck == c.record.value.nextCheck
    ensures Owes(d, level, next)
  {
    forall u ensures !Finishing(c, u) && !Finishing(d, u) {
      if u != t && u in c.threads {
        OthersWait(c, t, u);
      }
    }
  }

  /** The common case: a new program point, the same stores, nothing due. */
  lemma Goes(c: Cell, t: Tid, pc: PC, level: int, next: Option<Time>)
    requires Calm(c) && Owes(c, level, next) && Holds(c, t) && !c.threads[t].pc.FinishDisabled? && !pc.FinishDisabled?
    requires !Unlocked(pc) && HolderAt(pc, c.record.value, c.Host().value)
    ensures Calm(Goto(c, t, pc)) && Owes(Goto(c, t, pc), level, next)
  {
    var d := Goto(c, t, pc);
    assert d.Host() == c.Host();
    HolderGoes(c, d, t);
    StillOwes(c, d, t, level, next);
  }

  // ------------------------------------------------- answers of the Host

  lemma GetCalm(c: Cell, t: Tid, now: Time, level: int, next: Option<Time>)
    requires Calm(c) && Owes(c, level, next) && t in c.threads && c.threads[t].pc.ReadJSON?
    ensures var d := GetStep(c, t, now, Done); Calm(d) && Owes(d, level, next)
  {
    assert ThreadAt(c, t);
    var h := c.Host().value;
    Goes(c, t, ReadRuntime(c.threads[t].pc.k, h.flag, h.body, h.name), level, next);
  }

  lemma ProcessCalm(c: Cell, t: Tid, level: int, next: Option<Time>)
    requires Calm(c) && Owes(c, level, next) && Holds(c, t) && !c.threads[t].pc.FinishDisabled?
    requires At(c.record.value, c.Host().value, Owned)
    ensures var d := ProcessReady(c, t, c.record.value, SnapOf(c.Host().value)); Calm(d) && Owes(d, level, next)
  {
    Goes(c, t, WriteAhead(c.record.value), level, next);
  }

  lemma BeforeCalm(c: Cell, t: Tid, m: Mutation, now: Time, level: int, next: Option<Time>)
    requires Calm(c) && Owes(c, level, next) && Holds(c, t) && !c.threads[t].pc.FinishDisabled?
    requires ContAt(Before(m), c.record.value, c.Host().value)
    ensures var d := BeforeReady(c, t, m, SnapOf(c.Host().value), now); Calm(d) && Owes(d, level, next)
  {
    Goes(c, t, Saving(m, SnapOf(c.Host().value)), level, next);
  }

  lemma AfterCalm(c: Cell, t: Tid, m: Mutation, before: Snap, now: Time, level: int, next: Option<Time>)
    requires Calm(c) && Owes(c, level, next) && Holds(c, t) && !c.threads[t].pc.FinishDisabled?
    requires ContAt(After(m, before), c.record.value, c.Host().value) && m.EnableMut?
    ensures var d := AfterReady(c, t, m, before, SnapOf(c.Host().value), now); Calm(d) && Owes(d, level, next)
  {
    Goes(c, t, SetProbePending(m.pending, SnapOf(c.Host().value)), level, next);
  }

  /** A snapshot that shows the credential as it is, where no failure is completed. */
  lemma QuotaSnapCalm(c: Cell, t: Tid, level: int, next: Option<Time>)
    requires Calm(c) && Owes(c, level, next) && Holds(c, t) && !c.threads[t].pc.FinishDisabled?
    requires ContAt(QuotaSnap, c.record.value, c.Host().value)
    ensures var d := if c.threads[t].job.QuotaJob? then QuotaReady(c, t, SnapOf(c.Host().value)) else Leave(c, t, Done);
            Calm(d) && Owes(d, level, next)
  {
    Goes(c, t, Leaving(Done), level, next);
  }

  lemma FailSnapCalm(c: Cell, t: Tid, rec: Rec, why: Reason, level: int, next: Option<Time>)
    requires Calm(c) && Owes(c, level, next) && Holds(c, t) && !c.threads[t].pc.FinishDisabled?
    requires ContAt(FailSnap(rec, why), c.record.value, c.Host().value)
    ensures var d := GuardedReread(c, t, rec, SnapOf(c.Host().value), ReadJSON(Before(RedisableMut(rec, why))));
            Calm(d) && Owes(d, level, next)
  {
    Goes(c, t, ReadJSON(Before(RedisableMut(rec, why))), level, next);
  }

  lemma SnapCalm(c: Cell, t: Tid, k: Cont, now: Time, level: int, next: Option<Time>)
    requires Calm(c) && Owes(c, level, next) && Holds(c, t) && !c.threads[t].pc.FinishDisabled?
    requires ContAt(k, c.record.value, c.Host().value) && !(k.After? && k.m.RedisableMut?)
    ensures var d := SnapReady(c, t, k, SnapOf(c.Host().value), now); Calm(d) && Owes(d, level, next)
  {
    var s := SnapOf(c.Host().value);
    match k
    case ProcessSnap(rec) => ProcessCalm(c, t, level, next);
    case QuotaSnap => QuotaSnapCalm(c, t, level, next);
    case FailSnap(rec, why) => FailSnapCalm(c, t, rec, why, level, next);
    case Before(m) => BeforeCalm(c, t, m, now, level, next);
    case After(m, before) => AfterCalm(c, t, m, before, now, level, next);
  }

  /** The re-disable is verified: the level rises and the delay runs from here. */
  lemma FailureCalm(c: Cell, t: Tid, m: Mutation, before: Snap, now: Time, level: int, next: Option<Time>)
    requires Calm(c) && Owes(c, level, next) && Holds(c, t) && !c.threads[t].pc.FinishDisabled?
    requires ContAt(After(m, before), c.record.value, c.Host().value) && m.RedisableMut?
    ensures var d := SnapReady(c, t, After(m, before), SnapOf(c.Host().value), now);
            Calm(d) && Owes(d, NextLevel(level), Some(now + Delay(c.cfg, NextLevel(level))))
  {
    var s := SnapOf(c.Host().value);
    var d := SnapReady(c, t, After(m, before), s, now);
    forall u ensures !Finishing(c, u) && (Finishing(d, u) ==> u == t) {
      if u != t && u in c.threads {
        OthersWait(c, t, u);
      }
    }
    assert d.Host() == c.Host() && Finishing(d, t);
    HolderGoes(c, d, t);
  }

  lemma GetRuntimeCalm(c: Cell, t: Tid, now: Time, level: int, next: Option<Time>)
    requires Calm(c) && Owes(c, level, next) && t in c.threads && c.threads[t].pc.ReadRuntime?
    ensures var d := GetRuntimeStep(c, t, now, RuntimeOk);
            var e := Act(t, now, GetRuntime(RuntimeOk));
            Calm(d) && Owes(d, LevelThen(c, e, level), NextThen(c, e, level, next))
  {
    assert ThreadAt(c, t);
    RuntimeSnap(c, t, now);
    AnySnapCalm(c, t, c.threads[t].pc.k, now, level, next);
  }

  lemma AnySnapCalm(c: Cell, t: Tid, k: Cont, now: Time, level: int, next: Option<Time>)
    requires Calm(c) && Owes(c, level, next) && Holds(c, t) && !c.threads[t].pc.FinishDisabled?
    requires ContAt(k, c.record.value, c.Host().value)
    ensures var d, failed := SnapReady(c, t, k, SnapOf(c.Host().value), now), k.After? && k.m.RedisableMut?;
            Calm(d) && Owes(d, if failed then NextLevel(level) else level,
                               if failed then Some(now + Delay(c.cfg, NextLevel(level))) else next)
  {
    if k.After? && k.m.RedisableMut? {
      FailureCalm(c, t, k.m, k.before, now, level, next);
    } else {
      SnapCalm(c, t, k, now, level, next);
    }
  }

  /** The runtime read completes the snapshot of the Host. */
  lemma RuntimeSnap(c: Cell, t: Tid, now: Time)
    requires t in c.threads && c.threads[t].pc.ReadRuntime? && c.record.Some? && c.Host().Some?
    requires HolderAt(c.threads[t].pc, c.record.value, c.Host().value)
    ensures GetRuntimeStep(c, t, now, RuntimeOk) == SnapReady(c, t, c.threads[t].pc.k, SnapOf(c.Host().value), now)
  {
  }

  lemma SaveCalm(c: Cell, t: Tid, now: Time, rev: Rev, level: int, next: Option<Time>)
    requires Calm(c) && Owes(c, level, next) && t in c.threads && c.threads[t].pc.Saving? && rev !in c.origin
    ensures var d := SaveStep(c, t, now, true, rev, Done); Calm(d) && Owes(d, level, next)
  {
    assert ThreadAt(c, t);
    var d := SaveStep(c, t, now, true, rev, Done);
    SaveLeaves(c, t, now, rev);
    HolderGoes(c, d, t);
    StillOwes(c, d, t, level, next);
  }

  lemma SaveLeaves(c: Cell, t: Tid, now: Time, rev: Rev)
    requires t in c.threads && c.threads[t].pc.Saving? && rev !in c.origin && c.record.Some? && c.Host().Some?
    requires HolderAt(c.threads[t].pc, c.record.value, c.Host().value) && c.Host().value.rev in c.origin
    ensures var d := SaveStep(c, t, now, true, rev, Done);
            && d.record == c.record && d.token == c.token && d.Host().Some? && d.Host().value.rev in d.origin
            && t in d.threads && d.threads == c.threads[t := d.threads[t]] && d.threads[t].pc.ReadJSON?
            && HolderAt(d.threads[t].pc, d.record.value, d.Host().value)
  {
  }

  // ------------------------------------------------- the store and the probe

  lemma LoadingCalm(c: Cell, t: Tid, now: Time, level: int, next: Option<Time>)
    requires Calm(c) && Owes(c, level, next) && t in c.threads && c.threads[t].pc.Loading?
    ensures var d := LoadStep(c, t, now); Calm(d) && Owes(d, level, next)
  {
    assert ThreadAt(c, t);
    if !Due(c.record.value, now) {
      Goes(c, t, Leaving(Done), level, next);
    } else {
      Goes(c, t, ReadJSON(ProcessSnap(c.record.value)), level, next);
    }
  }

  lemma ReloadCalm(c: Cell, t: Tid, now: Time, level: int, next: Option<Time>)
    requires Calm(c) && Owes(c, level, next) && t in c.threads && (c.threads[t].pc.LoadPending? || c.threads[t].pc.LoadProbe?)
    ensures var d := LoadStep(c, t, now); Calm(d) && Owes(d, level, next)
  {
    assert ThreadAt(c, t);
    if c.threads[t].pc.LoadPending? {
      Goes(c, t, ReadJSON(Before(EnableMut(c.threads[t].pc.rec, c.record.value))), level, next);
    } else {
      Goes(c, t, Probing(c.record.value, c.threads[t].pc.after), level, next);
    }
  }

  lemma LoadCalm(c: Cell, t: Tid, now: Time, level: int, next: Option<Time>)
    requires Calm(c) && Owes(c, level, next) && t in c.threads
    ensures var d := LoadStep(c, t, now); Calm(d) && Owes(d, level, next)
  {
    assert ThreadAt(c, t);
    match c.threads[t].pc
    case Loading => LoadingCalm(c, t, now, level, next);
    case LoadPending(_) => ReloadCalm(c, t, now, level, next);
    case LoadProbe(_) => ReloadCalm(c, t, now, level, next);
    case _ =>
  }

  /** The commit that records the re-disable, seen from the records alone. */
  lemma FinishedAt(c: Cell, t: Tid)
    requires t in c.threads && c.threads[t].pc.FinishDisabled? && c.record.Some? && c.Host().Some?
    requires HolderAt(c.threads[t].pc, c.record.value, c.Host().value)
    ensures var d := CommitStep(c, t, true);
            && d.log == c.log && d.origin == c.origin && d.token == c.token && d.record.Some?
            && t in d.threads && d.threads == c.threads[t := d.threads[t]] && d.threads[t].pc == Leaving(Done)
            && At(d.record.value, c.Host().value, Owned)
            && d.record.value.level == c.threads[t].pc.level && d.record.value.nextCheck == Some(c.threads[t].pc.nextCheck)
  {
  }

  lemma FinishCalm(c: Cell, t: Tid, level: int, next: Option<Time>)
    requires Calm(c) && Owes(c, level, next) && t in c.threads && c.threads[t].pc.FinishDisabled?
    ensures var d := CommitStep(c, t, true); Calm(d) && Owes(d, level, next)
  {
    assert ThreadAt(c, t) && Finishing(c, t) && Holds(c, t);
    var d := CommitStep(c, t, true);
    FinishedAt(c, t);
    assert d.Host() == c.Host();
    HolderGoes(c, d, t);
    NoneFinishing(c, d, t);
  }

  lemma NoneFinishing(c: Cell, d: Cell, t: Tid)
    requires Calm(c) && Holds(c, t) && t in d.threads && d.threads == c.threads[t := d.threads[t]] && !Finishing(d, t)
    ensures forall u :: !Finishing(d, u)
  {
    forall u ensures !Finishing(d, u) {
      if u != t && u in c.threads {
        OthersWait(c, t, u);
      }
    }
  }

  /** What the two commits in the middle of an attempt leave. */
  lemma AttemptShape(c: Cell, t: Tid)
    requires t in c.threads && (c.threads[t].pc.WriteAhead? || c.threads[t].pc.SetProbePending?)
    requires c.record.Some? && c.Host().Some? && HolderAt(c.threads[t].pc, c.record.value, c.Host().value)
    ensures var d := CommitStep(c, t, true);
            && d == c.(record := d.record, nextAttempt := d.nextAttempt, threads := d.threads) && d.Host() == c.Host()
            && t in d.threads && d.threads == c.threads[t := d.threads[t]] && (d.threads[t].pc.LoadPending? || d.threads[t].pc.LoadProbe?)
            && d.record.Some? && d.record.value.level == c.record.value.level && d.record.value.nextCheck == c.record.value.nextCheck
            && HolderAt(d.threads[t].pc, d.record.value, d.Host().value)
  {
  }

  lemma AnnounceCalm(c: Cell, t: Tid, level: int, next: Option<Time>)
    requires Calm(c) && Owes(c, level, next) && t in c.threads && c.threads[t].pc.WriteAhead?
    ensures var d := CommitStep(c, t, true); Calm(d) && Owes(d, level, next)
  {
    assert ThreadAt(c, t);
    AttemptShape(c, t);
    HolderGoes(c, CommitStep(c, t, true), t);
    StillOwes(c, CommitStep(c, t, true), t, level, next);
  }

  lemma BindCalm(c: Cell, t: Tid, level: int, next: Option<Time>)
    requires Calm(c) && Owes(c, level, next) && t in c.threads && c.threads[t].pc.SetProbePending?
    ensures var d := CommitStep(c, t, true); Calm(d) && Owes(d, level, next)
  {
    assert ThreadAt(c, t);
    AttemptShape(c, t);
    HolderGoes(c, CommitStep(c, t, true), t);
    StillOwes(c, CommitStep(c, t, true), t, level, next);
  }

  lemma CommitCalm(c: Cell, t: Tid, level: int, next: Option<Time>)
    requires Calm(c) && Owes(c, level, next) && t in c.threads
    ensures var d := CommitStep(c, t, true); Calm(d) && Owes(d, level, next)
  {
    assert ThreadAt(c, t);
    match c.threads[t].pc
    case FinishDisabled(_, _, _, _) => FinishCalm(c, t, level, next);
    case WriteAhead(_) => AnnounceCalm(c, t, level, next);
    case SetProbePending(_, _) => BindCalm(c, t, level, next);
    case _ =>
  }

  lemma ProbeCalm(c: Cell, t: Tid, available: bool, success: bool, reason: Reason, level: int, next: Option<Time>)
    requires Calm(c) && Owes(c, level, next) && t in c.threads && c.threads[t].pc.Probing? && !(available && success)
    ensures var d := ProbeStep(c, t, available, success, reason); Calm(d) && Owes(d, level, next)
  {
    assert ThreadAt(c, t);
    var rec := c.threads[t].pc.rec;
    Goes(c, t, ReadJSON(FailSnap(rec, if available then reason else ProbeUnavailable)), level, next);
  }

  // ------------------------------------------------- the lock

  /** A goroutine outside the lock appears or goes. */
  lemma WaiterCalm(c: Cell, d: Cell, t: Tid, level: int, next: Option<Time>)
    requires Calm(c) && Owes(c, level, next) && !Holds(c, t) && d == c.(threads := d.threads)
    requires forall u :: u != t ==> (u in d.threads <==> u in c.threads) && (u in c.threads ==> d.threads[u] == c.threads[u])
    requires t in d.threads ==> d.threads[t].pc.WantLock?
    ensures Calm(d) && Owes(d, level, next)
  {
    forall u ensures ThreadAt(d, u) && (Holds(d, u) <==> Holds(c, u)) && (Finishing(d, u) <==> Finishing(c, u)) {
      assert ThreadAt(c, u);
      assert Finishing(c, t) ==> Holds(c, t);
    }
  }

  lemma LockCalm(c: Cell, t: Tid, level: int, next: Option<Time>)
    requires Calm(c) && Owes(c, level, next) && t in c.threads
    ensures var d := LockStep(c, t); Calm(d) && Owes(d, level, next)
  {
    var d := LockStep(c, t);
    if d != c {
      assert d.Host() == c.Host();
      forall u ensures ThreadAt(d, u) && (Holds(d, u) ==> u == t) && !Finishing(d, u) && !Finishing(c, u) {
        assert ThreadAt(c, u) && !Holds(c, u);
      }
      assert Holds(d, t);
    }
  }

  lemma UnlockCalm(c: Cell, t: Tid, level: int, next: Option<Time>)
    requires Calm(c) && Owes(c, level, next) && t in c.threads && c.threads[t].pc.Leaving?
    ensures var d := UnlockStep(c, t); Calm(d) && Owes(d, level, next)
  {
    assert ThreadAt(c, t) && Holds(c, t);
    var d := UnlockStep(c, t);
    assert d.Host() == c.Host();
    forall u ensures ThreadAt(d, u) && !Holds(d, u) && !Finishing(d, u) && !Finishing(c, u) {
      if u != t && u in c.threads {
        OthersWait(c, t, u);
      }
    }
  }

  // ------------------------------------------------- every event

  lemma ActCalm(c: Cell, t: Tid, now: Time, op: Op, level: int, next: Option<Time>)
    requires Calm(c) && Owes(c, level, next) && t in c.threads && !op.GetRuntime?
    requires CalmEvent(Act(t, now, op)) && NewRevision(c, Act(t, now, op))
    ensures var d := ActStep(c, t, now, op); Calm(d) && Owes(d, level, next)
  {
    var pc := c.threads[t].pc;
    match op
    case Lock => LockCalm(c, t, level, next);
    case GiveUp => if pc.WantLock? { WaiterCalm(c, Remove(c, t), t, level, next); }
    case Load => LoadCalm(c, t, now, level, next);
    case Unlock => if pc.Leaving? { UnlockCalm(c, t, level, next); }
    case Get(res) => if pc.ReadJSON? { GetCalm(c, t, now, level, next); }
    case Save(applied, rev, res) => if pc.Saving? { SaveCalm(c, t, now, rev, level, next); }
    case Commit(ok) => CommitCalm(c, t, level, next);
    case Probe(available, success, reason) =>
      if pc.Probing? { ProbeCalm(c, t, available, success, reason, level, next); }
  }

  lemma BeginCalm(c: Cell, t: Tid, job: Job, now: Time, level: int, next: Option<Time>)
    requires Calm(c) && Owes(c, level, next) && MayBegin(c, t, job, now)
    ensures var d := Step(c, Begin(t, job, now)); Calm(d) && Owes(d, level, next)
  {
    WaiterCalm(c, Step(c, Begin(t, job, now)), t, level, next);
  }

  lemma StepCalm(c: Cell, e: Event, level: int, next: Option<Time>)
    requires Calm(c) && Owes(c, level, next) && CalmEvent(e) && NewRevision(c, e)
    ensures Calm(Step(c, e)) && Owes(Step(c, e), LevelThen(c, e, level), NextThen(c, e, level, next))
  {
    match e
    case Begin(t, job, now) => if MayBegin(c, t, job, now) { BeginCalm(c, t, job, now, level, next); }
    case Act(t, now, op) =>
      if t in c.threads {
        if !op.GetRuntime? {
          ActCalm(c, t, now, op, level, next);
        } else {
          ReadCalm(c, t, now, level, next);
        }
      }
  }

  lemma ReadCalm(c: Cell, t: Tid, now: Time, level: int, next: Option<Time>)
    requires Calm(c) && Owes(c, level, next) && t in c.threads
    ensures var e := Act(t, now, GetRuntime(RuntimeOk));
            Calm(Step(c, e)) && Owes(Step(c, e), LevelThen(c, e, level), NextThen(c, e, level, next))
  {
    if c.threads[t].pc.ReadRuntime? {
      GetRuntimeCalm(c, t, now, level, next);
    }
  }

  // ------------------------------------------------- every calm run

  function LevelThen(c: Cell, e: Event, level: int): int {
    if Fails(c, e) then NextLevel(level) else level
  }

  function NextThen(c: Cell, e: Event, level: int, next: Option<Time>): Option<Time> {
    if Fails(c, e) then Some(e.now + Delay(c.cfg, NextLevel(level))) else next
  }

  ghost predicate EndsCalm(c: Cell, es: seq<Event>, level: int, next: Option<Time>) {
    var d, fs := Run(c, es), Failures(c, es);
    Calm(d) && Owes(d, LevelAfter(level, fs), NextAfter(c.cfg, level, next, fs))
  }

  lemma {:induction false} RunCalm(c: Cell, es: seq<Event>, level: int, next: Option<Time>)
    requires Calm(c) && Owes(c, level, next) && CalmRun(c, es) && 0 <= level <= MAX_LEVEL
    ensures EndsCalm(c, es, level, next)
    decreases es
  {
    if es != [] {
      StepCalm(c, es[0], level, next);
      RunCalm(Step(c, es[0]), es[1..], LevelThen(c, es[0], level), NextThen(c, es[0], level, next));
      StepBack(c, es, level, next);
    }
  }

  lemma StepBack(c: Cell, es: seq<Event>, level: int, next: Option<Time>)
    requires es != [] && 0 <= level <= MAX_LEVEL
    requires EndsCalm(Step(c, es[0]), es[1..], LevelThen(c, es[0], level), NextThen(c, es[0], level, next))
    ensures EndsCalm(c, es, level, next)
  {
    CfgKept(c, es[0]);
    var later := Failures(Step(c, es[0]), es[1..]);
    assert Failures(c, es) == if Fails(c, es[0]) then [es[0].now] + later else later;
    if Fails(c, es[0]) {
      OneMore(c.cfg, level, next, es[0].now, later);
    }
  }

  lemma OneMore(cfg: Cfg, level: int, next: Option<Time>, now: Time, later: seq<Time>)
    requires 0 <= level <= MAX_LEVEL
    ensures LevelAfter(NextLevel(level), later) == LevelAfter(level, [now] + later)
    ensures NextAfter(cfg, NextLevel(level), Some(now + Delay(cfg, NextLevel(level))), later) == NextAfter(cfg, level, next, [now] + later)
  {
  }

  lemma SettledIsCalm(c: Cell)
    requires Settled(c) && c.Host().value.rev in c.origin
    ensures Calm(c) && Owes(c, c.record.value.level, c.record.value.nextCheck)
  {
  }

  /** Over every calm run from a settled state, whenever nobody is inside the lock: the plugin
      owns the disabled credential with matching hash and revision, so the next attempt can
      run; the level is min(32, start + k) after k failed attempts; and the next check comes
      min(max, initial * 2^(level-1)) after the instant the last of them failed. */
  lemma CalmRunsSettle(c: Cell, es: seq<Event>)
    requires Settled(c) && c.Host().value.rev in c.origin && 0 <= c.record.value.level <= MAX_LEVEL && CalmRun(c, es)
    ensures var d, fs := Run(c, es), Failures(c, es);
            (forall t :: !Holds(d, t)) ==>
              && Settled(d.(threads := map[]))
              && d.record.value.level == Min(MAX_LEVEL, c.record.value.level + |fs|)
              && d.record.value.nextCheck ==
                   if fs == [] then c.record.value.nextCheck
                   else Some(fs[|fs| - 1] + Doubling(EffectiveInitial(c.cfg.initial) as int,
                                                     EffectiveMaximum(c.cfg.initial, c.cfg.maximum) as int, d.record.value.level - 1))
  {
    SettledIsCalm(c);
    RunCalm(c, es, c.record.value.level, c.record.value.nextCheck);
    var d, fs := Run(c, es), Failures(c, es);
    if forall t :: !Holds(d, t) {
      forall t ensures !Finishing(d, t) {
        assert Finishing(d, t) ==> Holds(d, t);
      }
      assert d.(threads := map[]).Host() == d.Host();
    }
  }
}
