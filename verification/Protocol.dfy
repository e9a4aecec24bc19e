/** The guarded disable / enable / probe / re-disable protocol of one auth index, as a
    transition system over its atomic actions.

    Two stores take part: the Host's credential file (here: the log of all writes to it)
    and the plugin's durable ownership record. Every action of `Step` is one Host call,
    one state-store read, one state-store commit or one lock operation, together with the
    local computation up to the next such action. Between any two actions other scans,
    quota events, outside edits, Host errors, failed commits and crashes may happen. */
module Protocol {
  import opened Basics
  import opened Backoff

  type Rev = nat      // RuntimeRevision: the Host's name/size/time tuple, only compared
  type Body = nat     // HashWithoutField(., "disabled"), the hash taken as injective
  type Tid = nat      // one goroutine handling this auth index
  type Time = int

  /** The top-level "disabled" value of a credential; anything but `true` reads as enabled. */
  datatype Flag = Absent | Bool(b: bool) | Other(text: nat) {
    predicate Disabled() {
      this == Bool(true)
    }
  }

  datatype Cred = Cred(flag: Flag, body: Body, id: string, name: string, rev: Rev)

  /** Who wrote the credential file. `External` covers users, CPA itself, proxy changes and
      replacement by another credential. */
  datatype Kind =
    | External
    | PluginDisable
    | PluginEnable(attempt: nat)
    | PluginRedisable(attempt: nat)
  {
    predicate Disables() {
      PluginDisable? || PluginRedisable?
    }
  }

  /** One write: what it replaced and what it left (None when the file was removed). */
  datatype Write = Write(kind: Kind, onto: Option<Cred>, cred: Option<Cred>)

  datatype Runtime = Runtime(id: string, rev: Option<Rev>)
  datatype Snap = Snap(flag: Flag, body: Body, name: string, runtime: Option<Runtime>) {
    predicate HasRev() {
      runtime.Some? && runtime.value.rev.Some?
    }
    function Rev(): Rev
      requires HasRev()
    {
      runtime.value.rev.value
    }
    function Id(): string {
      if runtime.Some? then runtime.value.id else ""
    }
  }

  datatype Phase = OwnedDisabled | RestorePending | ProbePending | ManualReview

  /** LastReason: a code of the recovery manager, or one a classifier or prober gave. */
  datatype Reason =
    | OwnershipGuardFailed | RecoveryError | RedisableFailed | DisableRevisionUnavailable | UnverifiablePendingEnable
    | PostEnableGuardUnavailable | HostError | ProbeUnavailable | Given(code: string)

  datatype Rec = Rec(
    authId: string, fileName: string, wasEnabled: bool,
    hash: Body, saveRev: Option<Rev>, phase: Phase, attempt: nat,
    postHash: Option<Body>, postRev: Option<Rev>,
    level: int, nextCheck: Option<Time>, reason: Reason)

  datatype Cfg = Cfg(initial: Duration, maximum: Duration)

  /** Work a goroutine does for this index: one turn of a recovery scan (with the possibly
      stale record the scan read before taking the lock), or one quota-exhaustion event. */
  datatype Job = ScanJob(outer: Rec) | QuotaJob(usageId: string, entryId: string, resetAt: Option<Time>, why: Reason)

  /** A `MutateAndSaveLocked` call in progress. */
  datatype Mutation =
    | EnableMut(rec: Rec, pending: Rec)
    | RedisableMut(rec: Rec, reason: Reason)
    | DisableMut(hash: Body, rev: Rev)
  {
    function Target(): bool {
      !EnableMut?
    }
    function Kind(): Kind {
      match this
      case EnableMut(_, pending) => PluginEnable(pending.attempt)
      case RedisableMut(rec, _) => PluginRedisable(rec.attempt)
      case DisableMut(_, _) => PluginDisable
    }
    /** The content hash and revision the guard demands of a fresh snapshot. */
    predicate Guard(s: Snap) {
      s.HasRev() &&
      match this
      case EnableMut(rec, _) => s.body == rec.hash && rec.saveRev == Some(s.Rev())
      case RedisableMut(rec, _) => rec.postHash == Some(s.body) && rec.postRev == Some(s.Rev())
      case DisableMut(hash, rev) => s.body == hash && s.Rev() == rev
    }
  }

  /** What a snapshot (Host get, then Host get_runtime) is taken for. */
  datatype Cont =
    | ProcessSnap(rec: Rec)
    | ProbeOk(rec: Rec)
    | FailSnap(rec: Rec, reason: Reason)
    | QuotaSnap
    | Before(m: Mutation)
    | After(m: Mutation, before: Snap)

  datatype Exit = Done | Failed | Canceled

  datatype PC =
    | WantLock
    | Loading
    | ReadJSON(k: Cont)
    | ReadRuntime(k: Cont, flag: Flag, body: Body, name: string)
    | Saving(m: Mutation, before: Snap)
    | WriteAhead(rec: Rec)
    | LoadPending(rec: Rec)
    | SetProbePending(pending: Rec, after: Snap)
    | LoadProbe(after: Snap)
    | Probing(rec: Rec, snap: Snap)
    | RecordHealth
    | Retiring
    | Reviewing(reason: Reason)
    | Backing(rec: Rec)
    | FinishDisabled(after: Snap, level: int, nextCheck: Time, reason: Reason)
    | QuotaLoad(snap: Snap)
    | QuotaRecord(rec: Rec)
    | Leaving(exit: Exit)
    | ErrLoad
    | ErrSave(rec: Rec)

  datatype Thread = Thread(job: Job, pc: PC)

  /** `confirmed` holds the attempts whose enable was confirmed by a guarded probe success;
      `origin` maps a revision to the last write that carried it. */
  datatype Cell = Cell(
    cfg: Cfg,
    log: seq<Write>, origin: map<Rev, Write>,
    record: Option<Rec>, nextAttempt: nat,
    token: bool, threads: map<Tid, Thread>,
    confirmed: set<nat>)
  {
    function Host(): Option<Cred> {
      if log == [] then None else log[|log| - 1].cred
    }
  }

  function Fresh(cfg: Cfg): Cell {
    Cell(cfg, [], map[], None, 0, true, map[], {})
  }

  datatype RuntimeAnswer = RuntimeFails | RuntimeWithoutRevision | RuntimeOk

  /** What the environment answers to the action a goroutine is at. */
  datatype Op =
    | Lock | GiveUp | Load | Unlock
    | Get(res: Exit)
    | GetRuntime(answer: RuntimeAnswer)
    | Save(applied: bool, rev: Rev, res: Exit)
    | Commit(ok: bool)
    | Probe(available: bool, success: bool, reason: Reason)

  datatype Event =
    | Begin(t: Tid, job: Job, now: Time)
    | Act(t: Tid, now: Time, op: Op)
    | Outside(cred: Option<Cred>)
    | Crash

  // ---------------------------------------------------------------- helpers

  function AppendWrite(c: Cell, kind: Kind, cred: Option<Cred>): Cell {
    var w := Write(kind, c.Host(), cred);
    c.(log := c.log + [w],
       origin := if cred.Some? then c.origin[cred.value.rev := w] else c.origin)
  }

  predicate Due(rec: Rec, now: Time) {
    rec.nextCheck.None? || now >= rec.nextCheck.value
  }

  function NextLevel(level: int): int {
    var l := if level < 0 then 0 else level;
    if l < MAX_LEVEL then l + 1 else l
  }

  function Delay(cfg: Cfg, level: int): Time {
    RecoveryDelay(cfg.initial, cfg.maximum, level)
  }

  /** scheduleBackoff plus the reason its two callers set. */
  function Backed(cfg: Cfg, rec: Rec, now: Time, reason: Reason): Rec {
    var level := NextLevel(rec.level);
    rec.(level := level, nextCheck := Some(now + Delay(cfg, level)), reason := reason)
  }

  predicate GuardMatchesPostEnable(s: Snap, rec: Rec) {
    && s.HasRev() && !s.flag.Disabled()
    && (rec.authId == "" || s.Id() == rec.authId)
    && rec.postHash == Some(s.body) && rec.postRev == Some(s.Rev())
  }

  function Goto(c: Cell, t: Tid, pc: PC): Cell
    requires t in c.threads
  {
    c.(threads := c.threads[t := c.threads[t].(pc := pc)])
  }

  function Remove(c: Cell, t: Tid): Cell {
    c.(threads := c.threads - {t})
  }

  function Leave(c: Cell, t: Tid, exit: Exit): Cell
    requires t in c.threads
  {
    Goto(c, t, Leaving(exit))
  }

  // ------------------------------------------------- MutateAndSaveLocked

  datatype MutErr = RevisionUnavailable | RevisionMismatch | OtherError | ContextCanceled

  /** How each caller reacts to a failed mutation. */
  function MutFailed(c: Cell, t: Tid, m: Mutation, err: MutErr, now: Time): Cell
    requires t in c.threads
  {
    match m
    case EnableMut(_, pending) => (
      match err
      case ContextCanceled => Leave(c, t, Canceled)
      case RevisionUnavailable => Goto(c, t, Reviewing(OwnershipGuardFailed))
      case RevisionMismatch => Goto(c, t, Reviewing(OwnershipGuardFailed))
      case OtherError => Goto(c, t, Backing(Backed(c.cfg, pending, now, RecoveryError))))
    case RedisableMut(_, _) => Goto(c, t, Reviewing(RedisableFailed))
    case DisableMut(_, _) => Leave(c, t, Failed)
  }

  function QuotaRec(c: Cell, job: Job, before: Snap, after: Snap, now: Time): Rec
    requires job.QuotaJob? && after.HasRev()
  {
    var next := if job.resetAt.Some? && job.resetAt.value > now then job.resetAt.value
                else now + EffectiveInitial(c.cfg.initial) as int;
    Rec(if job.usageId == "" then job.entryId else job.usageId, before.name, true,
        before.body, Some(after.Rev()), OwnedDisabled, c.nextAttempt,
        None, None, 0, Some(next), job.why)
  }

  /** Every caller continues here once the mutation is verified or was not needed. */
  function MutDone(c: Cell, t: Tid, m: Mutation, before: Snap, after: Snap, changed: bool, now: Time): Cell
    requires t in c.threads && after.HasRev()
  {
    match m
    case EnableMut(_, pending) => Goto(c, t, SetProbePending(pending, after))
    case RedisableMut(rec, reason) =>
      var level := NextLevel(rec.level);
      Goto(c, t, FinishDisabled(after, level, now + Delay(c.cfg, level), reason))
    case DisableMut(_, _) =>
      if !changed || c.threads[t].job.ScanJob? then Leave(c, t, Done)
      else
        var rec := QuotaRec(c, c.threads[t].job, before, after, now);
        Goto(c.(nextAttempt := c.nextAttempt + 1), t, QuotaRecord(rec))
  }

  /** The fresh get of the transaction: guard, then save unless nothing would change. */
  function BeforeReady(c: Cell, t: Tid, m: Mutation, s: Snap, now: Time): Cell
    requires t in c.threads
  {
    if !s.HasRev() then MutFailed(c, t, m, RevisionUnavailable, now)
    else if !m.Guard(s) then MutFailed(c, t, m, RevisionMismatch, now)
    else if s.flag == Bool(m.Target()) then MutDone(c, t, m, s, s, false, now)
    else Goto(c, t, Saving(m, s))
  }

  /** The re-get after the save: the revision must be new and the value must read back. */
  function AfterReady(c: Cell, t: Tid, m: Mutation, before: Snap, s: Snap, now: Time): Cell
    requires t in c.threads
  {
    if !s.HasRev() || !before.HasRev() || s.Rev() == before.Rev() then MutFailed(c, t, m, OtherError, now)
    else if s.flag.Disabled() != m.Target() then MutFailed(c, t, m, OtherError, now)
    else MutDone(c, t, m, before, s, true, now)
  }

  // ------------------------------------------------- decisions on a snapshot

  function StartRecovery(c: Cell, t: Tid, rec: Rec, s: Snap): Cell
    requires t in c.threads
  {
    if !s.flag.Disabled() then Goto(c, t, Retiring)
    else if rec.saveRev.None? || !s.HasRev() then Goto(c, t, Reviewing(DisableRevisionUnavailable))
    else if s.body != rec.hash then Goto(c, t, Retiring)
    else if s.Rev() != rec.saveRev.value then Goto(c, t, Retiring)
    else Goto(c, t, WriteAhead(rec))
  }

  function ProcessReady(c: Cell, t: Tid, rec: Rec, s: Snap): Cell
    requires t in c.threads
  {
    if (rec.authId != "" && s.Id() != "" && s.Id() != rec.authId) || (rec.fileName != "" && s.name != rec.fileName) then
      Goto(c, t, Retiring)
    else if rec.authId != "" && s.runtime.Some? && s.Id() == "" then
      Goto(c, t, Reviewing(OwnershipGuardFailed))
    else match rec.phase
      case OwnedDisabled => StartRecovery(c, t, rec, s)
      case RestorePending =>
        if s.flag.Disabled() then StartRecovery(c, t, rec, s)
        else Goto(c, t, Reviewing(UnverifiablePendingEnable))
      case ProbePending =>
        if !s.HasRev() then Goto(c, t, Reviewing(PostEnableGuardUnavailable))
        else if s.flag.Disabled() then Goto(c, t, Retiring)
        else if !GuardMatchesPostEnable(s, rec) then Goto(c, t, Retiring)
        else Goto(c, t, Probing(rec, s))
      case ManualReview => Leave(c, t, Done)
  }

  /** The guarded re-read both probe outcomes share; `next` is where a match goes. */
  function GuardedReread(c: Cell, t: Tid, rec: Rec, s: Snap, next: PC): Cell
    requires t in c.threads
  {
    if !s.HasRev() then Goto(c, t, Reviewing(PostEnableGuardUnavailable))
    else if s.flag.Disabled() then Goto(c, t, Retiring)
    else if !GuardMatchesPostEnable(s, rec) then Goto(c, t, Retiring)
    else Goto(c, t, next)
  }

  function QuotaReady(c: Cell, t: Tid, s: Snap): Cell
    requires t in c.threads && c.threads[t].job.QuotaJob?
  {
    var usageId := c.threads[t].job.usageId;
    if usageId != "" && (s.Id() == "" || TrimSpace(usageId) != TrimSpace(s.Id())) then Leave(c, t, Done)
    else if s.flag.Disabled() then Leave(c, t, Done)
    else if !s.HasRev() then Leave(c, t, Failed)
    else Goto(c, t, QuotaLoad(s))
  }

  function SnapReady(c: Cell, t: Tid, k: Cont, s: Snap, now: Time): Cell
    requires t in c.threads
  {
    match k
    case ProcessSnap(rec) => ProcessReady(c, t, rec, s)
    case ProbeOk(rec) =>
      var c' := GuardedReread(c, t, rec, s, RecordHealth);
      if c'.threads[t].pc == RecordHealth then c'.(confirmed := c'.confirmed + {rec.attempt}) else c'
    case FailSnap(rec, reason) => GuardedReread(c, t, rec, s, ReadJSON(Before(RedisableMut(rec, reason))))
    case QuotaSnap => if c.threads[t].job.QuotaJob? then QuotaReady(c, t, s) else Leave(c, t, Done)
    case Before(m) => BeforeReady(c, t, m, s, now)
    case After(m, before) => AfterReady(c, t, m, before, s, now)
  }

  function SnapFailed(c: Cell, t: Tid, k: Cont, canceled: bool, now: Time): Cell
    requires t in c.threads
  {
    match k
    case Before(m) => MutFailed(c, t, m, if canceled then ContextCanceled else OtherError, now)
    case After(m, _) => MutFailed(c, t, m, OtherError, now)
    case _ => Leave(c, t, if canceled then Canceled else Failed)
  }

  // ------------------------------------------------- one action of a goroutine

  function LoadStep(c: Cell, t: Tid, now: Time): Cell
    requires t in c.threads
  {
    match c.threads[t].pc
    case Loading =>
      if c.record.None? || !Due(c.record.value, now) then Leave(c, t, Done)
      else if c.record.value.phase == ManualReview || !c.record.value.wasEnabled then Leave(c, t, Done)
      else Goto(c, t, ReadJSON(ProcessSnap(c.record.value)))
    case LoadPending(rec) =>
      if c.record.None? then Leave(c, t, Done)
      else Goto(c, t, ReadJSON(Before(EnableMut(rec, c.record.value))))
    case LoadProbe(after) =>
      if c.record.None? then Leave(c, t, Done) else Goto(c, t, Probing(c.record.value, after))
    case QuotaLoad(snap) =>
      if c.record.Some? || !snap.HasRev() then Leave(c, t, Done)
      else Goto(c, t, ReadJSON(Before(DisableMut(snap.body, snap.Rev()))))
    case ErrLoad =>
      if c.record.None? || c.threads[t].job.QuotaJob? || c.record.value.attempt != c.threads[t].job.outer.attempt then
        Remove(c, t)
      else
        Goto(c, t, ErrSave(Backed(c.cfg, c.record.value, now, HostError)))
    case _ => c
  }

  function GetStep(c: Cell, t: Tid, now: Time, res: Exit): Cell
    requires t in c.threads && c.threads[t].pc.ReadJSON?
  {
    var k := c.threads[t].pc.k;
    if res != Done || c.Host().None? then SnapFailed(c, t, k, res == Canceled, now)
    else
      var h := c.Host().value;
      Goto(c, t, ReadRuntime(k, h.flag, h.body, h.name))
  }

  function GetRuntimeStep(c: Cell, t: Tid, now: Time, answer: RuntimeAnswer): Cell
    requires t in c.threads && c.threads[t].pc.ReadRuntime?
  {
    var pc := c.threads[t].pc;
    if answer == RuntimeFails || c.Host().None? then
      SnapReady(c, t, pc.k, Snap(pc.flag, pc.body, pc.name, None), now)
    else
      var h := c.Host().value;
      if h.name != pc.name then SnapFailed(c, t, pc.k, false, now)
      else
        var rev := if answer == RuntimeOk then Some(h.rev) else None;
        SnapReady(c, t, pc.k, Snap(pc.flag, pc.body, pc.name, Some(Runtime(h.id, rev))), now)
  }

  /** The save writes the whole document read before, with one field changed. The Host may
      fail before or after the write took place. */
  function SaveStep(c: Cell, t: Tid, now: Time, applied: bool, rev: Rev, res: Exit): Cell
    requires t in c.threads && c.threads[t].pc.Saving?
  {
    var m, before := c.threads[t].pc.m, c.threads[t].pc.before;
    var id := if c.Host().Some? then c.Host().value.id else "";
    var written := Cred(Bool(m.Target()), before.body, id, before.name, rev);
    var c' := if applied then AppendWrite(c, m.Kind(), Some(written)) else c;
    if res == Done then Goto(c', t, ReadJSON(After(m, before)))
    else MutFailed(c', t, m, if res == Canceled then ContextCanceled else OtherError, now)
  }

  function CommitStep(c: Cell, t: Tid, ok: bool): Cell
    requires t in c.threads
  {
    var exit := if ok then Done else Failed;
    match c.threads[t].pc
    case Retiring => Leave(if ok then c.(record := None) else c, t, exit)
    case Reviewing(reason) =>
      Leave(if ok && c.record.Some? then c.(record := Some(c.record.value.(phase := ManualReview, reason := reason))) else c, t, exit)
    case WriteAhead(rec) =>
      var c' := c.(nextAttempt := c.nextAttempt + 1);
      if !ok then Leave(c', t, Failed)
      else if c.record.None? then Goto(c', t, LoadPending(rec))
      else
        var pending := c.record.value.(phase := RestorePending, attempt := c.nextAttempt, reason := rec.reason);
        Goto(c'.(record := Some(pending)), t, LoadPending(rec))
    case SetProbePending(_, after) =>
      if !ok then Leave(c, t, Failed)
      else if c.record.None? || !after.HasRev() then Goto(c, t, LoadProbe(after))
      else
        var bound := c.record.value.(phase := ProbePending, postHash := Some(after.body), postRev := Some(after.Rev()));
        Goto(c.(record := Some(bound)), t, LoadProbe(after))
    case Backing(rec) =>
      Leave(if ok && c.record.Some? then c.(record := Some(rec)) else c, t, exit)
    case FinishDisabled(after, level, nextCheck, reason) =>
      if !ok || c.record.None? || !after.HasRev() then Leave(c, t, exit)
      else
        var owned := c.record.value.(phase := OwnedDisabled, level := level, nextCheck := Some(nextCheck),
          reason := reason, hash := after.body, saveRev := Some(after.Rev()), postHash := None, postRev := None);
        Leave(c.(record := Some(owned)), t, Done)
    case RecordHealth => if ok then Goto(c, t, Retiring) else Leave(c, t, Failed)
    case QuotaRecord(rec) => Leave(if ok then c.(record := Some(rec)) else c, t, exit)
    case ErrSave(rec) =>
      Remove(if ok && c.record.Some? && c.record.value.attempt == rec.attempt then c.(record := Some(rec)) else c, t)
    case _ => c
  }

  function ProbeStep(c: Cell, t: Tid, available: bool, success: bool, reason: Reason): Cell
    requires t in c.threads && c.threads[t].pc.Probing?
  {
    var rec, s := c.threads[t].pc.rec, c.threads[t].pc.snap;
    if !available then Goto(c, t, ReadJSON(FailSnap(rec, ProbeUnavailable)))
    else
      GuardedReread(c, t, rec, s, if success then ReadJSON(ProbeOk(rec)) else ReadJSON(FailSnap(rec, reason)))
  }

  /** The event is a health request that is really sent. */
  predicate SendsProbe(c: Cell, e: Event) {
    && e.Act? && e.op.Probe? && e.op.available
    && e.t in c.threads && c.threads[e.t].pc.Probing?
    && GuardMatchesPostEnable(c.threads[e.t].pc.snap, c.threads[e.t].pc.rec)
  }

  function LockStep(c: Cell, t: Tid): Cell
    requires t in c.threads
  {
    if !c.token || !c.threads[t].pc.WantLock? then c
    else Goto(c.(token := false), t, if c.threads[t].job.ScanJob? then Loading else ReadJSON(QuotaSnap))
  }

  /** Returning from WithLock gives the token back; a scan then records a real error
      outside the lock. */
  function UnlockStep(c: Cell, t: Tid): Cell
    requires t in c.threads && c.threads[t].pc.Leaving?
  {
    var c' := c.(token := true);
    if c.threads[t].pc.exit == Failed && c.threads[t].job.ScanJob? then Goto(c', t, ErrLoad) else Remove(c', t)
  }

  function ActStep(c: Cell, t: Tid, now: Time, op: Op): Cell
    requires t in c.threads
  {
    var pc := c.threads[t].pc;
    match op
    case Lock => LockStep(c, t)
    case GiveUp => if pc.WantLock? then Remove(c, t) else c
    case Load => LoadStep(c, t, now)
    case Unlock => if pc.Leaving? then UnlockStep(c, t) else c
    case Get(res) => if pc.ReadJSON? then GetStep(c, t, now, res) else c
    case GetRuntime(answer) => if pc.ReadRuntime? then GetRuntimeStep(c, t, now, answer) else c
    case Save(applied, rev, res) => if pc.Saving? then SaveStep(c, t, now, applied, rev, res) else c
    case Commit(ok) => CommitStep(c, t, ok)
    case Probe(available, success, reason) =>
      if pc.Probing? then ProbeStep(c, t, available, success, reason) else c
  }

  predicate MayBegin(c: Cell, t: Tid, job: Job, now: Time) {
    t !in c.threads &&
    match job
    case ScanJob(outer) => c.record == Some(outer) && Due(outer, now)
    case QuotaJob(usageId, entryId, _, _) => usageId == "" || usageId == entryId
  }

  /** One event; an event that is not possible in the state changes nothing. */
  function Step(c: Cell, e: Event): Cell {
    match e
    case Begin(t, job, now) =>
      if MayBegin(c, t, job, now) then c.(threads := c.threads[t := Thread(job, WantLock)]) else c
    case Act(t, now, op) => if t in c.threads then ActStep(c, t, now, op) else c
    case Outside(cred) => AppendWrite(c, External, cred)
    case Crash => c.(threads := map[], token := true)
  }

  function Run(c: Cell, es: seq<Event>): Cell
    decreases es
  {
    if es == [] then c else Run(Step(c, es[0]), es[1..])
  }

  lemma {:induction false} RunConcat(c: Cell, a: seq<Event>, b: seq<Event>)
    ensures Run(c, a + b) == Run(Run(c, a), b)
    decreases a
  {
    if a == [] {
      assert a + b == b;
    } else {
      assert (a + b)[0] == a[0] && (a + b)[1..] == a[1..] + b;
      RunConcat(Step(c, a[0]), a[1..], b);
    }
  }

  // ------------------------------------------------- assumptions on the environment

  /** Inside the get, guard, save, re-get span of MutateAndSaveLocked. */
  predicate InSpan(pc: PC) {
    match pc
    case ReadRuntime(k, _, _, _) => k.Before? || k.After?
    case Saving(_, _) => true
    case ReadJSON(k) => k.After?
    case _ => false
  }

  /** No outside write lands inside a span. */
  predicate Clean(c: Cell, e: Event) {
    e.Outside? ==> forall t :: t in c.threads ==> !InSpan(c.threads[t].pc)
  }

  /** Every Host write gets a revision never seen before. */
  predicate NewRevision(c: Cell, e: Event) {
    match e
    case Outside(cred) => cred.Some? ==> cred.value.rev !in c.origin
    case Act(_, _, op) => op.Save? ==> op.rev !in c.origin
    case _ => true
  }

  predicate CleanRun(c: Cell, es: seq<Event>)
    decreases es
  {
    es == [] || (Clean(c, es[0]) && CleanRun(Step(c, es[0]), es[1..]))
  }

  predicate FreshRun(c: Cell, es: seq<Event>)
    decreases es
  {
    es == [] || (NewRevision(c, es[0]) && FreshRun(Step(c, es[0]), es[1..]))
  }
}
