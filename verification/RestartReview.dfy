/** A crash between the write-ahead commit and the post-enable commit leaves an enabled
    credential whose record is still "restore pending". Nothing the plugin does from there
    touches the Host again: the record can only end in manual review. */
module RestartReview {
  import opened Basics
  import opened Protocol
  import opened OwnershipInvariant
  import opened OwnershipSafety

  ghost predicate WaitRec(c: Cell, v: Rec) {
    v.phase in {RestorePending, ManualReview} && c.Host().Some? && IdOk(v, c.Host().value)
  }

  ghost predicate WaitCont(c: Cell, k: Cont) {
    match k
    case ProcessSnap(rec) => rec.phase == RestorePending && WaitRec(c, rec)
    case QuotaSnap => true
    case _ => false
  }

  ghost predicate ThreadWaits(c: Cell, t: Tid) {
    t in c.threads ==>
      match c.threads[t].pc
      case ReadJSON(k) => WaitCont(c, k)
      case ReadRuntime(k, flag, _, name) =>
        WaitCont(c, k) && (k.ProcessSnap? ==> !flag.Disabled() && name == c.Host().value.name)
      case ErrSave(rec) => WaitRec(c, rec)
      case WantLock => true
      case Loading => true
      case QuotaLoad(_) => true
      case Reviewing(_) => true
      case Leaving(_) => true
      case ErrLoad => true
      case _ => false
  }

  /** The Host has the credential enabled and the record waits for a human. */
  ghost predicate Waits(c: Cell) {
    && c.Host().Some? && !c.Host().value.flag.Disabled()
    && c.record.Some? && WaitRec(c, c.record.value)
    && forall t :: ThreadWaits(c, t)
  }

  ghost predicate Follows(c: Cell, d: Cell, t: Tid) {
    && d.log == c.log && d.record.Some? && WaitRec(d, d.record.value)
    && (d.threads == c.threads - {t} || (t in d.threads && d.threads == c.threads[t := d.threads[t]]))
    && ThreadWaits(d, t)
  }

  lemma LoadWaits(c: Cell, t: Tid, now: Time)
    requires Waits(c) && t in c.threads
    ensures Follows(c, LoadStep(c, t, now), t)
  {
    assert ThreadWaits(c, t);
  }

  lemma CommitWaits(c: Cell, t: Tid, ok: bool)
    requires Waits(c) && t in c.threads
    ensures Follows(c, CommitStep(c, t, ok), t)
  {
    assert ThreadWaits(c, t);
  }

  lemma GetWaits(c: Cell, t: Tid, now: Time, res: Exit)
    requires Waits(c) && t in c.threads && c.threads[t].pc.ReadJSON?
    ensures Follows(c, GetStep(c, t, now, res), t)
  {
    assert ThreadWaits(c, t);
  }

  lemma ProcessWaits(c: Cell, t: Tid, rec: Rec, s: Snap)
    requires Waits(c) && t in c.threads && rec.phase == RestorePending && WaitRec(c, rec)
    requires !s.flag.Disabled() && s.name == c.Host().value.name && (s.Id() == "" || s.Id() == c.Host().value.id)
    ensures Follows(c, ProcessReady(c, t, rec, s), t)
  {
  }

  lemma SnapWaits(c: Cell, t: Tid, k: Cont, s: Snap, now: Time)
    requires Waits(c) && t in c.threads && WaitCont(c, k) && (k.QuotaSnap? || k.ProcessSnap?)
    requires k.ProcessSnap? ==> !s.flag.Disabled() && s.name == c.Host().value.name && (s.Id() == "" || s.Id() == c.Host().value.id)
    ensures Follows(c, SnapReady(c, t, k, s, now), t)
  {
    if k.ProcessSnap? {
      ProcessWaits(c, t, k.rec, s);
    }
  }

  lemma RuntimeWaits(c: Cell, t: Tid, now: Time, answer: RuntimeAnswer)
    requires Waits(c) && t in c.threads && c.threads[t].pc.ReadRuntime?
    ensures Follows(c, GetRuntimeStep(c, t, now, answer), t)
  {
    assert ThreadWaits(c, t);
    var pc, h := c.threads[t].pc, c.Host().value;
    if answer == RuntimeFails {
      SnapWaits(c, t, pc.k, Snap(pc.flag, pc.body, pc.name, None), now);
    } else if h.name == pc.name {
      var rev := if answer == RuntimeOk then Some(h.rev) else None;
      SnapWaits(c, t, pc.k, Snap(pc.flag, pc.body, pc.name, Some(Runtime(h.id, rev))), now);
    }
  }

  lemma ActWaits(c: Cell, t: Tid, now: Time, op: Op)
    requires Waits(c) && t in c.threads
    ensures var d := ActStep(c, t, now, op); d == c || Follows(c, d, t)
    ensures !SendsProbe(c, Act(t, now, op))
  {
    assert ThreadWaits(c, t);
    var pc := c.threads[t].pc;
    match op
    case Lock =>
    case GiveUp =>
    case Load => LoadWaits(c, t, now);
    case Unlock =>
    case Get(res) => if pc.ReadJSON? { GetWaits(c, t, now, res); }
    case GetRuntime(answer) => if pc.ReadRuntime? { RuntimeWaits(c, t, now, answer); }
    case Save(_, _, _) =>
    case Commit(ok) => CommitWaits(c, t, ok);
    case Probe(_, _, _) =>
  }

  lemma StepWaits(c: Cell, e: Event)
    requires Waits(c) && !e.Outside?
    ensures Waits(Step(c, e)) && Step(c, e).log == c.log && !SendsProbe(c, e)
  {
    match e
    case Begin(t, job, now) => BeginWaits(c, t, job, now);
    case Act(t, now, op) =>
      if t in c.threads {
        ActWaits(c, t, now, op);
        if ActStep(c, t, now, op) != c {
          FollowsWaits(c, ActStep(c, t, now, op), t);
        }
      }
    case Crash =>
  }

  lemma BeginWaits(c: Cell, t: Tid, job: Job, now: Time)
    requires Waits(c)
    ensures Waits(Step(c, Begin(t, job, now)))
  {
    forall u ensures ThreadWaits(Step(c, Begin(t, job, now)), u) {
      assert ThreadWaits(c, u);
    }
  }

  lemma FollowsWaits(c: Cell, d: Cell, t: Tid)
    requires Waits(c) && Follows(c, d, t)
    ensures Waits(d) && d.log == c.log
  {
    forall u ensures ThreadWaits(d, u) {
      assert ThreadWaits(c, u);
    }
  }

  /** No event of the run is a probe that is really sent. */
  ghost predicate NoProbe(c: Cell, es: seq<Event>)
    decreases es
  {
    es == [] || (!SendsProbe(c, es[0]) && NoProbe(Step(c, es[0]), es[1..]))
  }

  ghost predicate NoOutside(es: seq<Event>) {
    forall i :: 0 <= i < |es| ==> !es[i].Outside?
  }

  lemma {:induction false} WaitsForever(c: Cell, es: seq<Event>)
    requires Waits(c) && NoOutside(es)
    ensures Waits(Run(c, es)) && Run(c, es).log == c.log && NoProbe(c, es)
    decreases es
  {
    if es != [] {
      StepWaits(c, es[0]);
      WaitsForever(Step(c, es[0]), es[1..]);
    }
  }

  /** Take any reachable state whose last Host write is an unconfirmed enable and whose
      record is still "restore pending", and crash there. Whatever scans, quota events,
      Host errors, failed commits and further crashes follow, until somebody else writes
      the credential: no Host write, no probe, and the record stays in restore pending or
      manual review. */
  lemma RestartOnlyReviews(cfg: Cfg, es: seq<Event>, later: seq<Event>)
    requires CleanRun(Fresh(cfg), es) && FreshRun(Fresh(cfg), es) && NoOutside(later)
    requires var c := Run(Fresh(cfg), es);
             Unconfirmed(c) && c.record.Some? && c.record.value.phase == RestorePending
    ensures var c := Step(Run(Fresh(cfg), es), Crash);
            var d := Run(c, later);
            && d.log == c.log && NoProbe(c, later)
            && d.record.Some? && d.record.value.phase in {RestorePending, ManualReview}
  {
    FreshInv(cfg);
    RunInv(Fresh(cfg), es);
    var b := Run(Fresh(cfg), es);
    UnconfirmedIsEnabled(b);
    var c := Step(b, Crash);
    assert c.Host() == b.Host();
    forall t ensures ThreadWaits(c, t) {
    }
    WaitsForever(c, later);
  }
}
