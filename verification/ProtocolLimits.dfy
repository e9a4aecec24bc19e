/** What the protocol guarantees with fewer assumptions, and where the assumption about
    outside writes is needed exactly. */
module ProtocolLimits {
  import opened Basics
  import opened Protocol
  import opened OwnershipInvariant
  import opened OwnershipSafety

  // ------------------------------------------------- no lost update, without fresh revisions

  /** A plugin write replaced exactly what the Host had, up to `disabled`. */
  ghost predicate KeepsContent(log: seq<Write>, k: nat)
    requires k < |log|
  {
    && log[k].onto == (if k == 0 then None else log[k - 1].cred)
    && (!log[k].kind.External? ==> OnlyFlagChanged(log[k]))
  }

  ghost predicate SpanOk(c: Cell, t: Tid) {
    t in c.threads ==>
      match c.threads[t].pc
      case ReadRuntime(k, flag, body, name) => k.Before? ==> SawHost(c, flag, body, name)
      case Saving(_, before) => SawHost(c, before.flag, before.body, before.name)
      case _ => true
  }

  ghost predicate SpanInv(c: Cell) {
    && LockOk(c)
    && (forall t :: SpanOk(c, t))
    && (forall k: nat :: k < |c.log| ==> KeepsContent(c.log, k))
  }

  /** What every action but taking the lock does to the goroutines: `t` ends, or goes on
      without entering the lock; the token comes back only when a holder leaves. */
  ghost predicate Shape(c: Cell, d: Cell, t: Tid) {
    && t in c.threads
    && (d.threads == c.threads - {t} || (t in d.threads && d.threads == c.threads[t := d.threads[t]]))
    && (Holds(d, t) ==> Holds(c, t) && d.token == c.token)
    && (d.token != c.token ==> d.token && Holds(c, t))
  }

  /** The same for the Host side: nothing written, and a guarded snapshot is kept as read. */
  ghost predicate Quiet(c: Cell, d: Cell, t: Tid) {
    d.log == c.log && (t in d.threads ==> !d.threads[t].pc.ReadRuntime? && !d.threads[t].pc.Saving?)
  }

  /** `t` goes on inside the lock, neither reading nor saving a guarded snapshot. */
  ghost predicate Advances(c: Cell, d: Cell, t: Tid) {
    && t in c.threads && t in d.threads
    && d == c.(record := d.record, nextAttempt := d.nextAttempt, confirmed := d.confirmed, threads := d.threads)
    && d.threads == c.threads[t := Thread(c.threads[t].job, d.threads[t].pc)]
    && Tame(d.threads[t].pc)
  }

  predicate Tame(pc: PC) {
    !pc.WantLock? && !pc.ErrLoad? && !pc.ErrSave? && !pc.ReadRuntime? && !pc.Saving?
  }

  lemma GotoAdvances(c: Cell, t: Tid, pc: PC)
    requires t in c.threads && Tame(pc)
    ensures Advances(c, Goto(c, t, pc), t)
  {
  }

  lemma AdvancesShape(c: Cell, d: Cell, t: Tid)
    requires Holds(c, t) && Advances(c, d, t)
    ensures Shape(c, d, t) && Quiet(c, d, t)
  {
  }

  lemma MutShape(c: Cell, t: Tid, m: Mutation, err: MutErr, now: Time)
    requires Holds(c, t)
    ensures var d := MutFailed(c, t, m, err, now); Shape(c, d, t) && Quiet(c, d, t)
  {
  }

  lemma MutDoneShape(c: Cell, t: Tid, m: Mutation, before: Snap, after: Snap, changed: bool, now: Time)
    requires Holds(c, t) && after.HasRev()
    ensures var d := MutDone(c, t, m, before, after, changed, now); Shape(c, d, t) && Quiet(c, d, t)
  {
  }

  lemma ProcessShape(c: Cell, t: Tid, rec: Rec, s: Snap)
    requires Holds(c, t)
    ensures var d := ProcessReady(c, t, rec, s); Shape(c, d, t) && Quiet(c, d, t) && t in d.threads
  {
    ProcessAdvances(c, t, rec, s);
    AdvancesShape(c, ProcessReady(c, t, rec, s), t);
  }

  lemma ProcessAdvances(c: Cell, t: Tid, rec: Rec, s: Snap)
    requires t in c.threads
    ensures Advances(c, ProcessReady(c, t, rec, s), t)
  {
    GotoAdvances(c, t, Retiring);
    GotoAdvances(c, t, Reviewing(OwnershipGuardFailed));
    match rec.phase
    case OwnedDisabled => RecoveryAdvances(c, t, rec, s);
    case RestorePending =>
      RecoveryAdvances(c, t, rec, s);
      GotoAdvances(c, t, Reviewing(UnverifiablePendingEnable));
    case ProbePending =>
      GotoAdvances(c, t, Reviewing(PostEnableGuardUnavailable));
      GotoAdvances(c, t, Probing(rec, s));
    case ManualReview => GotoAdvances(c, t, Leaving(Done));
  }

  lemma RecoveryAdvances(c: Cell, t: Tid, rec: Rec, s: Snap)
    requires t in c.threads
    ensures Advances(c, StartRecovery(c, t, rec, s), t)
  {
    GotoAdvances(c, t, Retiring);
    GotoAdvances(c, t, Reviewing(DisableRevisionUnavailable));
    GotoAdvances(c, t, WriteAhead(rec));
  }

  lemma RereadShape(c: Cell, t: Tid, rec: Rec, s: Snap, next: PC)
    requires Holds(c, t) && !Unlocked(next) && !next.ReadRuntime? && !next.Saving?
    ensures var d := GuardedReread(c, t, rec, s, next); Shape(c, d, t) && Quiet(c, d, t) && t in d.threads
  {
    RereadAdvances(c, t, rec, s, next);
    AdvancesShape(c, GuardedReread(c, t, rec, s, next), t);
  }

  lemma RereadAdvances(c: Cell, t: Tid, rec: Rec, s: Snap, next: PC)
    requires t in c.threads && !Unlocked(next) && !next.ReadRuntime? && !next.Saving?
    ensures Advances(c, GuardedReread(c, t, rec, s, next), t)
  {
    GotoAdvances(c, t, Reviewing(PostEnableGuardUnavailable));
    GotoAdvances(c, t, Retiring);
    GotoAdvances(c, t, next);
  }

  lemma SnapShape(c: Cell, t: Tid, k: Cont, s: Snap, now: Time)
    requires Holds(c, t)
    ensures var d := SnapReady(c, t, k, s, now);
            && Shape(c, d, t) && d.log == c.log && t in d.threads && !d.threads[t].pc.ReadRuntime?
            && (d.threads[t].pc.Saving? ==> k.Before? && d.threads[t].pc.before == s)
  {
    match k
    case Before(m) =>
      if !s.HasRev() {
        MutShape(c, t, m, RevisionUnavailable, now);
      } else if !m.Guard(s) {
        MutShape(c, t, m, RevisionMismatch, now);
      } else if s.flag == Bool(m.Target()) {
        MutDoneShape(c, t, m, s, s, false, now);
      }
    case After(m, before) =>
      MutShape(c, t, m, OtherError, now);
      if s.HasRev() {
        MutDoneShape(c, t, m, before, s, true, now);
      }
    case ProcessSnap(rec) => ProcessShape(c, t, rec, s);
    case ProbeOk(rec) => RereadShape(c, t, rec, s, RecordHealth);
    case FailSnap(rec, reason) => RereadShape(c, t, rec, s, ReadJSON(Before(RedisableMut(rec, reason))));
    case QuotaSnap =>
  }

  lemma SnapFailedShape(c: Cell, t: Tid, k: Cont, canceled: bool, now: Time)
    requires Holds(c, t)
    ensures var d := SnapFailed(c, t, k, canceled, now); Shape(c, d, t) && Quiet(c, d, t)
  {
    match k
    case Before(m) => MutShape(c, t, m, if canceled then ContextCanceled else OtherError, now);
    case After(m, _) => MutShape(c, t, m, OtherError, now);
    case _ =>
  }

  lemma GetRuntimeShape(c: Cell, t: Tid, now: Time, answer: RuntimeAnswer)
    requires t in c.threads && c.threads[t].pc.ReadRuntime?
    ensures var d := GetRuntimeStep(c, t, now, answer); Shape(c, d, t) && d.log == c.log && (SpanOk(c, t) ==> SpanOk(d, t))
  {
    var pc := c.threads[t].pc;
    if answer == RuntimeFails || c.Host().None? {
      SnapShape(c, t, pc.k, Snap(pc.flag, pc.body, pc.name, None), now);
    } else {
      var h := c.Host().value;
      var rev := if answer == RuntimeOk then Some(h.rev) else None;
      SnapShape(c, t, pc.k, Snap(pc.flag, pc.body, pc.name, Some(Runtime(h.id, rev))), now);
      SnapFailedShape(c, t, pc.k, false, now);
    }
  }

  lemma GetShape(c: Cell, t: Tid, now: Time, res: Exit)
    requires t in c.threads && c.threads[t].pc.ReadJSON?
    ensures var d := GetStep(c, t, now, res); Shape(c, d, t) && d.log == c.log && SpanOk(d, t)
  {
    SnapFailedShape(c, t, c.threads[t].pc.k, res == Canceled, now);
  }

  lemma SaveShape(c: Cell, t: Tid, now: Time, applied: bool, rev: Rev, res: Exit)
    requires t in c.threads && c.threads[t].pc.Saving?
    ensures var d := SaveStep(c, t, now, applied, rev, res);
            Shape(c, d, t) && (t in d.threads ==> !d.threads[t].pc.ReadRuntime? && !d.threads[t].pc.Saving?)
            && d.log == if applied then AppendWrite(c, c.threads[t].pc.m.Kind(), Some(Written(c, c.threads[t].pc.m, c.threads[t].pc.before, rev))).log else c.log
  {
    var m, before := c.threads[t].pc.m, c.threads[t].pc.before;
    var e := if applied then AppendWrite(c, m.Kind(), Some(Written(c, m, before, rev))) else c;
    MutShape(e, t, m, if res == Canceled then ContextCanceled else OtherError, now);
  }

  lemma LoadShape(c: Cell, t: Tid, now: Time)
    requires t in c.threads
    ensures var d := LoadStep(c, t, now); d == c || (Shape(c, d, t) && Quiet(c, d, t))
  {
  }

  lemma CommitShape(c: Cell, t: Tid, ok: bool)
    requires t in c.threads
    ensures var d := CommitStep(c, t, ok); d == c || (Shape(c, d, t) && Quiet(c, d, t))
  {
    if c.threads[t].pc.ErrSave? {
      var d := CommitStep(c, t, ok);
      assert d.threads == c.threads - {t} && d.token == c.token && d.log == c.log;
    } else {
      CommitAdvances(c, t, ok);
      if CommitStep(c, t, ok) != c {
        AdvancesShape(c, CommitStep(c, t, ok), t);
      }
    }
  }

  lemma CommitAdvances(c: Cell, t: Tid, ok: bool)
    requires t in c.threads && !c.threads[t].pc.ErrSave?
    ensures var d := CommitStep(c, t, ok); d == c || (Holds(c, t) && Advances(c, d, t))
  {
    var d := CommitStep(c, t, ok);
    if d != c {
      var e := c.(record := d.record, nextAttempt := d.nextAttempt);
      GotoAdvances(e, t, d.threads[t].pc);
      assert d == Goto(e, t, d.threads[t].pc);
    }
  }

  lemma ProbeShape(c: Cell, t: Tid, available: bool, success: bool, reason: Reason)
    requires t in c.threads && c.threads[t].pc.Probing?
    ensures var d := ProbeStep(c, t, available, success, reason); Shape(c, d, t) && Quiet(c, d, t)
  {
  }

  lemma ActShape(c: Cell, t: Tid, now: Time, op: Op)
    requires t in c.threads && !op.Lock?
    ensures var d := ActStep(c, t, now, op);
            d == c || (Shape(c, d, t) && (op.Save? || (d.log == c.log && (SpanOk(c, t) ==> SpanOk(d, t)))))
  {
    var pc := c.threads[t].pc;
    match op
    case GiveUp =>
    case Load => LoadShape(c, t, now);
    case Unlock =>
    case Get(res) => if pc.ReadJSON? { GetShape(c, t, now, res); }
    case GetRuntime(answer) => if pc.ReadRuntime? { GetRuntimeShape(c, t, now, answer); }
    case Save(applied, rev, res) => if pc.Saving? { SaveShape(c, t, now, applied, rev, res); }
    case Commit(ok) => CommitShape(c, t, ok);
    case Probe(available, success, reason) => if pc.Probing? { ProbeShape(c, t, available, success, reason); }
  }

  lemma ShapeKeeps(c: Cell, d: Cell, t: Tid)
    requires Shape(c, d, t)
    ensures OthersKept(c, d, t)
    ensures LockOk(c) ==> LockOk(d)
  {
    forall u ensures u != t ==> Kept(c, d, u) {
    }
    forall u ensures Holds(d, u) ==> Holds(c, u) {
      assert u == t || Kept(c, d, u);
    }
  }

  lemma ActSpan(c: Cell, t: Tid, now: Time, op: Op)
    requires SpanInv(c) && t in c.threads && !op.Save? && !op.Lock?
    ensures SpanInv(ActStep(c, t, now, op))
  {
    var d := ActStep(c, t, now, op);
    ActShape(c, t, now, op);
    if d != c {
      ShapeKeeps(c, d, t);
      forall u ensures SpanOk(d, u) {
        assert SpanOk(c, u) && (u == t || Kept(c, d, u));
      }
    }
  }

  lemma LockSpan(c: Cell, t: Tid)
    requires SpanInv(c) && t in c.threads
    ensures SpanInv(LockStep(c, t))
  {
    var d := LockStep(c, t);
    if d != c {
      forall u ensures SpanOk(d, u) && (Holds(d, u) ==> u == t) {
        assert SpanOk(c, u) && (u == t || !Holds(c, u));
      }
    }
  }

  lemma SaveSpan(c: Cell, t: Tid, now: Time, applied: bool, rev: Rev, res: Exit)
    requires SpanInv(c) && t in c.threads && c.threads[t].pc.Saving?
    ensures SpanInv(SaveStep(c, t, now, applied, rev, res))
  {
    var d := SaveStep(c, t, now, applied, rev, res);
    SaveShape(c, t, now, applied, rev, res);
    ShapeKeeps(c, d, t);
    assert SpanOk(c, t) && Holds(c, t);
    forall k: nat | k < |d.log| ensures KeepsContent(d.log, k) {
      if k < |c.log| {
        assert KeepsContent(c.log, k);
      }
    }
    forall u ensures SpanOk(d, u) {
      if u != t && u in d.threads {
        assert Kept(c, d, u) && !Holds(c, u);
      }
    }
  }

  lemma StepSpan(c: Cell, e: Event)
    requires SpanInv(c) && Clean(c, e)
    ensures SpanInv(Step(c, e))
  {
    match e
    case Begin(t, job, now) =>
      var d := Step(c, e);
      forall u ensures SpanOk(d, u) && (Holds(d, u) <==> Holds(c, u)) {
        assert SpanOk(c, u);
      }
    case Act(t, now, op) =>
      if t in c.threads {
        match op
        case Save(applied, rev, res) =>
          if c.threads[t].pc.Saving? {
            SaveSpan(c, t, now, applied, rev, res);
          }
        case Lock => LockSpan(c, t);
        case _ => ActSpan(c, t, now, op);
      }
    case Outside(cred) =>
      var d := Step(c, e);
      forall k: nat | k < |d.log| ensures KeepsContent(d.log, k) {
        if k < |c.log| {
          assert KeepsContent(c.log, k);
        }
      }
      forall u ensures SpanOk(d, u) && (Holds(d, u) <==> Holds(c, u)) {
        assert SpanOk(c, u);
      }
    case Crash =>
  }

  /** Even when the Host repeats a revision, no write of the plugin loses somebody's edit. */
  lemma {:induction false} NoLostUpdate(c: Cell, es: seq<Event>)
    requires SpanInv(c) && CleanRun(c, es)
    ensures SpanInv(Run(c, es))
    decreases es
  {
    if es != [] {
      StepSpan(c, es[0]);
      NoLostUpdate(Step(c, es[0]), es[1..]);
    }
  }

  // ------------------------------------------------- mutual exclusion, with no assumption

  lemma ActLock(c: Cell, t: Tid, now: Time, op: Op)
    requires LockOk(c) && t in c.threads
    ensures LockOk(ActStep(c, t, now, op))
  {
    var d := ActStep(c, t, now, op);
    if op.Lock? {
      forall u ensures Holds(d, u) ==> u == t || Holds(c, u) {
      }
    } else {
      ActShape(c, t, now, op);
      if d != c {
        ShapeKeeps(c, d, t);
      }
    }
  }

  /** At most one goroutine is ever inside the lock of an auth index: at most one
      transaction, hence at most one probe, is in progress. */
  lemma {:induction false} OneTransaction(c: Cell, es: seq<Event>)
    requires LockOk(c)
    ensures LockOk(Run(c, es))
    decreases es
  {
    if es != [] {
      var d := Step(c, es[0]);
      match es[0] {
        case Begin(t, _, _) =>
          forall u ensures Holds(d, u) <==> Holds(c, u) {
          }
        case Act(t, now, op) => if t in c.threads { ActLock(c, t, now, op); }
        case Outside(_) =>
          forall u ensures Holds(d, u) <==> Holds(c, u) {
          }
        case Crash =>
      }
      OneTransaction(d, es[1..]);
    }
  }

  // ------------------------------------------------- what others leave alone

  /** Something another goroutine or an outside writer may do; a crash ends them all. */
  predicate Elsewhere(e: Event, me: Tid) {
    match e
    case Begin(t, _, _) => t != me
    case Act(t, _, _) => t != me
    case Outside(_) => true
    case Crash => false
  }

  lemma ElsewhereKeeps(c: Cell, e: Event, me: Tid)
    requires Elsewhere(e, me)
    ensures me in c.threads <==> me in Step(c, e).threads
    ensures me in c.threads ==> Step(c, e).threads[me] == c.threads[me]
  {
    if e.Act? && e.t in c.threads && !e.op.Lock? {
      ActShape(c, e.t, e.now, e.op);
    }
  }

  // ------------------------------------------------- the configuration

  lemma SnapCfg(c: Cell, t: Tid, k: Cont, s: Snap, now: Time)
    requires t in c.threads
    ensures SnapReady(c, t, k, s, now).cfg == c.cfg
  {
    match k
    case Before(m) => assert BeforeReady(c, t, m, s, now).cfg == c.cfg;
    case After(m, before) => assert AfterReady(c, t, m, before, s, now).cfg == c.cfg;
    case ProcessSnap(rec) => assert ProcessReady(c, t, rec, s).cfg == c.cfg;
    case _ =>
  }

  lemma RuntimeCfg(c: Cell, t: Tid, now: Time, answer: RuntimeAnswer)
    requires t in c.threads && c.threads[t].pc.ReadRuntime?
    ensures GetRuntimeStep(c, t, now, answer).cfg == c.cfg
  {
    var pc := c.threads[t].pc;
    SnapCfg(c, t, pc.k, Snap(pc.flag, pc.body, pc.name, None), now);
    if c.Host().Some? {
      var h := c.Host().value;
      SnapCfg(c, t, pc.k, Snap(pc.flag, pc.body, pc.name, Some(Runtime(h.id, if answer == RuntimeOk then Some(h.rev) else None))), now);
    }
  }

  lemma CommitCfg(c: Cell, t: Tid, ok: bool)
    requires t in c.threads
    ensures CommitStep(c, t, ok).cfg == c.cfg
  {
  }

  lemma OtherCfg(c: Cell, t: Tid, now: Time, op: Op)
    requires t in c.threads && !op.GetRuntime? && !op.Commit?
    ensures ActStep(c, t, now, op).cfg == c.cfg
  {
  }

  /** No event touches the configuration. */
  lemma CfgKept(c: Cell, e: Event)
    ensures Step(c, e).cfg == c.cfg
  {
    if e.Act? && e.t in c.threads {
      match e.op
      case GetRuntime(answer) => if c.threads[e.t].pc.ReadRuntime? { RuntimeCfg(c, e.t, e.now, answer); }
      case Commit(ok) => CommitCfg(c, e.t, ok);
      case _ => OtherCfg(c, e.t, e.now, e.op);
    }
  }

  // ------------------------------------------------- the span assumption is exact

  ghost predicate OnlyOutside(es: seq<Event>) {
    forall i :: 0 <= i < |es| ==> es[i].Outside?
  }

  lemma {:induction false} OutsideRun(c: Cell, es: seq<Event>)
    requires OnlyOutside(es)
    ensures var d := Run(c, es);
            && d == c.(log := d.log, origin := d.origin) && |d.log| == |c.log| + |es|
            && (es == [] ==> d == c)
            && (es != [] ==> d.log != [] && LastWrite(d).kind.External?)
            && (HostKnown(c) ==> HostKnown(d)) && c.origin.Keys <= d.origin.Keys
    decreases es
  {
    if es != [] {
      OutsideRun(Step(c, es[0]), es[1..]);
    }
  }

  /** The origin of the revision the Host has now is the last write. */
  ghost predicate HostKnown(c: Cell) {
    c.Host().Some? ==> c.Host().value.rev in c.origin && c.origin[c.Host().value.rev] == LastWrite(c)
  }

  lemma {:induction false} OutsideFresh(c: Cell, es: seq<Event>)
    requires OnlyOutside(es) && FreshRun(c, es) && es != []
    ensures Run(c, es).Host().Some? ==> Run(c, es).Host().value.rev !in c.origin
    decreases es
  {
    if |es| > 1 {
      OutsideFresh(Step(c, es[0]), es[1..]);
    } else {
      assert Run(c, es) == Step(c, es[0]);
    }
  }

  // --------------------------------- from the get that opens the transaction to its get_runtime

  lemma GuardRefuses(c: Cell, d: Cell, t: Tid, m: Mutation, s: Snap, now: Time)
    requires Inv(c) && Holds(c, t) && MutOk(c, c.threads[t].job, m)
    requires t in d.threads && d.threads[t] == c.threads[t] && (s.HasRev() ==> s.Rev() !in c.origin)
    ensures var err := if s.HasRev() then RevisionMismatch else RevisionUnavailable;
            BeforeReady(d, t, m, s, now) == MutFailed(d, t, m, err, now)
  {
  }

  /** Here outside writes do no harm: the document read is old and the revision is new, so the
      guard refuses it. Whatever the answer, nothing is saved and no guard is bound. */
  lemma GuardHalfIsHarmless(c: Cell, t: Tid, es: seq<Event>, now: Time, answer: RuntimeAnswer)
    requires Inv(c) && t in c.threads && c.threads[t].pc.ReadRuntime? && c.threads[t].pc.k.Before?
    requires OnlyOutside(es) && FreshRun(c, es) && es != []
    ensures var d := Run(c, es);
            t in d.threads && exists err :: Step(d, Act(t, now, GetRuntime(answer))) == MutFailed(d, t, c.threads[t].pc.k.m, err, now)
  {
    var d := Run(c, es);
    OutsideRun(c, es);
    OutsideFresh(c, es);
    assert ThreadOk(c, t) && Holds(c, t);
    var pc := c.threads[t].pc;
    var e := Step(d, Act(t, now, GetRuntime(answer)));
    if answer == RuntimeFails || d.Host().None? {
      GuardRefuses(c, d, t, pc.k.m, Snap(pc.flag, pc.body, pc.name, None), now);
    } else if d.Host().value.name == pc.name {
      var h := d.Host().value;
      var rev := if answer == RuntimeOk then Some(h.rev) else None;
      GuardRefuses(c, d, t, pc.k.m, Snap(pc.flag, pc.body, pc.name, Some(Runtime(h.id, rev))), now);
    } else {
      assert e == MutFailed(d, t, pc.k.m, OtherError, now);
    }
  }

  // --------------------------------- from that get_runtime to the save

  /** Here any outside write breaks it: each of the three saves lands on the snapshot its
      guard was checked on if and only if there was none. */
  lemma SaveHalfIsExact(c: Cell, t: Tid, es: seq<Event>, now: Time, rev: Rev, res: Exit)
    requires Inv(c) && t in c.threads && c.threads[t].pc.Saving?
    requires OnlyOutside(es) && FreshRun(c, es)
    ensures var before := c.threads[t].pc.before;
            var e := Step(Run(c, es), Act(t, now, Save(true, rev, res)));
            && e.log != [] && LastWrite(e).kind == c.threads[t].pc.m.Kind() && before.HasRev()
            && (LastWrite(e).onto.Some? && LastWrite(e).onto.value.rev == before.Rev() <==> es == [])
  {
    var d := Run(c, es);
    OutsideRun(c, es);
    SaveShape(d, t, now, true, rev, res);
    assert ThreadOk(c, t);
    if es != [] {
      OutsideFresh(c, es);
    }
  }

  lemma SavedLog(d: Cell, t: Tid, now: Time, rev: Rev, res: Exit)
    requires t in d.threads && d.threads[t].pc.Saving?
    ensures var m, before := d.threads[t].pc.m, d.threads[t].pc.before;
            Step(d, Act(t, now, Save(true, rev, res))).log == d.log + [Write(m.Kind(), d.Host(), Some(Written(d, m, before, rev)))]
  {
    SaveShape(d, t, now, true, rev, res);
  }

  lemma UndisturbedSaveLands(c: Cell, t: Tid, rev: Rev)
    requires Inv(c) && t in c.threads && c.threads[t].pc.Saving?
    ensures var m, before := c.threads[t].pc.m, c.threads[t].pc.before;
            EntryOk(c.log + [Write(m.Kind(), c.Host(), Some(Written(c, m, before, rev)))], |c.log|)
  {
    assert ThreadOk(c, t);
    SaveLands(c, c.threads[t].job, c.threads[t].pc.m, c.threads[t].pc.before, rev);
  }

  /** For the enable and the re-disable that is the difference between safe and unsafe: the
      entry meets the safety property if and only if there was no outside write. */
  lemma SpanIsExact(c: Cell, t: Tid, es: seq<Event>, now: Time, rev: Rev, res: Exit)
    requires Inv(c) && t in c.threads && c.threads[t].pc.Saving? && !c.threads[t].pc.m.DisableMut?
    requires OnlyOutside(es)
    ensures var e := Step(Run(c, es), Act(t, now, Save(true, rev, res)));
            (|e.log| > 0 && EntryOk(e.log, |e.log| - 1)) <==> es == []
  {
    var d := Run(c, es);
    OutsideRun(c, es);
    SavedLog(d, t, now, rev, res);
    if es == [] {
      UndisturbedSaveLands(c, t, rev);
    } else {
      var e := Step(d, Act(t, now, Save(true, rev, res)));
      assert e.log[|e.log| - 2] == LastWrite(d);
    }
  }

  // --------------------------------- from the save to the re-get and its get_runtime

  /** The revision a transaction that ended well is about to put into the record. */
  function BoundRevision(pc: PC): Option<Rev> {
    match pc
    case SetProbePending(_, after) => if after.HasRev() then Some(after.Rev()) else None
    case FinishDisabled(after, _, _, _) => if after.HasRev() then Some(after.Rev()) else None
    case QuotaRecord(rec) => rec.saveRev
    case _ => None
  }

  /** The re-get binds what it reads when the value and a new revision are there. */
  lemma BindsWhatItReads(c: Cell, t: Tid, m: Mutation, before: Snap, s: Snap, now: Time)
    requires t in c.threads && (m.DisableMut? ==> c.threads[t].job.QuotaJob?)
    ensures var d := AfterReady(c, t, m, before, s, now);
            t in d.threads && BoundRevision(d.threads[t].pc)
            == if s.HasRev() && before.HasRev() && s.Rev() != before.Rev() && s.flag.Disabled() == m.Target()
               then Some(s.Rev()) else None
  {
  }

  ghost predicate Rereading(c: Cell, t: Tid) {
    t in c.threads && c.threads[t].pc.ReadJSON? && c.threads[t].pc.k.After?
  }

  /** A re-get with outside writes before it and before its get_runtime. */
  function Reget(c: Cell, t: Tid, es: seq<Event>, now: Time): Cell {
    Step(Run(c, es), Act(t, now, Get(Done)))
  }

  function Reread(c: Cell, t: Tid, es: seq<Event>, more: seq<Event>, now: Time, answer: RuntimeAnswer): Cell {
    Step(Run(Reget(c, t, es, now), more), Act(t, now, GetRuntime(answer)))
  }

  lemma RegetReads(c: Cell, t: Tid, es: seq<Event>, now: Time)
    requires Rereading(c, t) && OnlyOutside(es)
    ensures var d, g, k := Run(c, es), Reget(c, t, es, now), c.threads[t].pc.k;
            && t in g.threads && g.log == d.log && g.origin == d.origin && g.threads[t].job == c.threads[t].job
            && if d.Host().Some?
               then g.threads[t].pc == ReadRuntime(k, d.Host().value.flag, d.Host().value.body, d.Host().value.name)
               else !g.threads[t].pc.ReadRuntime? && BoundRevision(g.threads[t].pc).None?
  {
    OutsideRun(c, es);
  }

  lemma FailedQuiet(c: Cell, t: Tid, m: Mutation, err: MutErr, now: Time)
    requires t in c.threads
    ensures var d := MutFailed(c, t, m, err, now); d.log == c.log && d.origin == c.origin && t in d.threads
  {
  }

  lemma AfterQuiet(c: Cell, t: Tid, m: Mutation, before: Snap, s: Snap, now: Time)
    requires t in c.threads
    ensures var d := AfterReady(c, t, m, before, s, now); d.log == c.log && d.origin == c.origin && t in d.threads
  {
    FailedQuiet(c, t, m, OtherError, now);
  }

  lemma RuntimeQuiet(f: Cell, t: Tid, now: Time, answer: RuntimeAnswer)
    requires t in f.threads && f.threads[t].pc.ReadRuntime? && f.threads[t].pc.k.After?
    ensures var e := Step(f, Act(t, now, GetRuntime(answer))); e.log == f.log && e.origin == f.origin && t in e.threads
  {
    var pc := f.threads[t].pc;
    if answer == RuntimeFails || f.Host().None? {
      AfterQuiet(f, t, pc.k.m, pc.k.before, Snap(pc.flag, pc.body, pc.name, None), now);
    } else if f.Host().value.name == pc.name {
      var rev := if answer == RuntimeOk then Some(f.Host().value.rev) else None;
      AfterQuiet(f, t, pc.k.m, pc.k.before, Snap(pc.flag, pc.body, pc.name, Some(Runtime(f.Host().value.id, rev))), now);
    } else {
      FailedQuiet(f, t, pc.k.m, OtherError, now);
    }
  }

  lemma RuntimeBinds(f: Cell, t: Tid, now: Time, answer: RuntimeAnswer)
    requires t in f.threads && f.threads[t].pc.ReadRuntime? && f.threads[t].pc.k.After? && f.threads[t].pc.k.before.HasRev()
    requires f.threads[t].pc.k.m.DisableMut? ==> f.threads[t].job.QuotaJob?
    ensures var e, pc, h := Step(f, Act(t, now, GetRuntime(answer))), f.threads[t].pc, f.Host();
            t in e.threads && BoundRevision(e.threads[t].pc)
               == if && h.Some? && answer == RuntimeOk && h.value.name == pc.name
                     && h.value.rev != pc.k.before.Rev() && pc.flag.Disabled() == pc.k.m.Target()
                  then Some(h.value.rev) else None
  {
    var pc := f.threads[t].pc;
    if answer == RuntimeFails || f.Host().None? {
      BindsWhatItReads(f, t, pc.k.m, pc.k.before, Snap(pc.flag, pc.body, pc.name, None), now);
    } else if f.Host().value.name == pc.name {
      var rev := if answer == RuntimeOk then Some(f.Host().value.rev) else None;
      BindsWhatItReads(f, t, pc.k.m, pc.k.before, Snap(pc.flag, pc.body, pc.name, Some(Runtime(f.Host().value.id, rev))), now);
    }
  }

  lemma RereadingKnows(c: Cell, t: Tid)
    requires Inv(c) && Rereading(c, t)
    ensures SavedOk(c, c.threads[t].job, c.threads[t].pc.k.m, c.threads[t].pc.k.before) && HostKnown(c)
  {
    assert ThreadOk(c, t);
  }

  /** Where the re-get stands before its get_runtime. */
  lemma RegetStands(c: Cell, t: Tid, es: seq<Event>, more: seq<Event>, now: Time)
    requires Rereading(c, t) && HostKnown(c) && OnlyOutside(es) && OnlyOutside(more)
    ensures var f := Run(Reget(c, t, es, now), more);
            && t in f.threads && f.threads[t].job == c.threads[t].job && HostKnown(f)
            && (es == more == [] ==> f.log == c.log && f.origin == c.origin)
            && (es != [] || more != [] ==> f.log != [] && LastWrite(f).kind.External?)
            && if f.threads[t].pc.ReadRuntime? then f.threads[t].pc.k == c.threads[t].pc.k else BoundRevision(f.threads[t].pc).None?
  {
    OutsideRun(c, es);
    RegetReads(c, t, es, now);
    OutsideRun(Reget(c, t, es, now), more);
  }

  /** Here an outside edit can pass for the plugin's own write: whenever the transaction ends
      well, the revision it binds is that of its own save if and only if there was no outside
      write. */
  lemma RereadIsExact(c: Cell, t: Tid, es: seq<Event>, more: seq<Event>, now: Time, answer: RuntimeAnswer)
    requires Inv(c) && Rereading(c, t) && OnlyOutside(es) && OnlyOutside(more)
    ensures var e := Reread(c, t, es, more, now, answer);
            t in e.threads && BoundRevision(e.threads[t].pc).Some? ==>
              var rev := BoundRevision(e.threads[t].pc).value;
              rev in e.origin && (e.origin[rev].kind == c.threads[t].pc.k.m.Kind() <==> es == more == [])
  {
    RereadingKnows(c, t);
    RegetStands(c, t, es, more, now);
    BoundIsOwn(c, Run(Reget(c, t, es, now), more), t, es == more == [], now, answer);
  }

  lemma BoundIsOwn(c: Cell, f: Cell, t: Tid, undisturbed: bool, now: Time, answer: RuntimeAnswer)
    requires Rereading(c, t) && SavedOk(c, c.threads[t].job, c.threads[t].pc.k.m, c.threads[t].pc.k.before)
    requires t in f.threads && f.threads[t].job == c.threads[t].job && HostKnown(f)
    requires if undisturbed then f.log == c.log && f.origin == c.origin else f.log != [] && LastWrite(f).kind.External?
    requires if f.threads[t].pc.ReadRuntime? then f.threads[t].pc.k == c.threads[t].pc.k else BoundRevision(f.threads[t].pc).None?
    ensures var e := Step(f, Act(t, now, GetRuntime(answer)));
            t in e.threads && BoundRevision(e.threads[t].pc).Some? ==>
              var rev := BoundRevision(e.threads[t].pc).value;
              rev in e.origin && (e.origin[rev].kind == c.threads[t].pc.k.m.Kind() <==> undisturbed)
  {
    if f.threads[t].pc.ReadRuntime? {
      BoundIsHost(f, t, now, answer);
    }
  }

  lemma BoundIsHost(f: Cell, t: Tid, now: Time, answer: RuntimeAnswer)
    requires t in f.threads && f.threads[t].pc.ReadRuntime? && f.threads[t].pc.k.After? && f.threads[t].pc.k.before.HasRev()
    requires f.threads[t].pc.k.m.DisableMut? ==> f.threads[t].job.QuotaJob?
    ensures var e := Step(f, Act(t, now, GetRuntime(answer)));
            && e.log == f.log && e.origin == f.origin && t in e.threads
            && (BoundRevision(e.threads[t].pc).Some? ==>
                  && f.Host().Some? && BoundRevision(e.threads[t].pc).value == f.Host().value.rev
                  && f.Host().value.rev != f.threads[t].pc.k.before.Rev())
  {
    RuntimeQuiet(f, t, now, answer);
    RuntimeBinds(f, t, now, answer);
  }

  /** And any edit that leaves `disabled` at the plugin's value does pass. */
  lemma EditIsBound(c: Cell, t: Tid, edit: Cred, now: Time)
    requires Inv(c) && Rereading(c, t)
    requires edit.flag.Disabled() == c.threads[t].pc.k.m.Target()
    requires c.threads[t].pc.k.before.HasRev() ==> edit.rev != c.threads[t].pc.k.before.Rev()
    ensures var e := Reread(c, t, [Outside(Some(edit))], [], now, RuntimeOk);
            t in e.threads && BoundRevision(e.threads[t].pc) == Some(edit.rev)
  {
    var es := [Outside(Some(edit))];
    var d := Step(c, es[0]);
    assert Run(c, es) == Run(d, []);
    RereadingKnows(c, t);
    OutsideRun(c, es);
    RegetReads(c, t, es, now);
    RuntimeBinds(Reget(c, t, es, now), t, now, RuntimeOk);
  }
}
