/** A scan waits for the next check: before it, nothing is enabled, probed or put on record,
    whoever runs and whatever fails in the meantime. */
module NextCheck {
  import opened Basics
  import opened Backoff
  import opened Protocol
  import opened OwnershipInvariant
  import opened ProtocolLimits
  import opened RecoveryCycles
  import opened CalmRuns

  /** The instant of an event lies before `limit`; a crash may come at any time, and nobody
      else writes. */
  predicate Early(e: Event, limit: Time) {
    match e
    case Begin(_, _, now) => now < limit
    case Act(_, now, _) => now < limit
    case Outside(_) => false
    case Crash => true
  }

  predicate AllEarly(es: seq<Event>, limit: Time) {
    forall i :: 0 <= i < |es| ==> Early(es[i], limit)
  }

  /** The credential is disabled and owned, and whoever is there waits for the lock. */
  ghost predicate Resting(c: Cell) {
    Settled(c.(threads := map[])) && forall t :: t in c.threads ==> c.threads[t].pc.WantLock?
  }

  /** Where a goroutine can be until the next check. */
  predicate Idles(th: Thread) {
    match th.pc
    case WantLock => true
    case Leaving(exit) => th.job.ScanJob? ==> exit == Done
    case Loading => th.job.ScanJob?
    case ReadJSON(k) => th.job.QuotaJob? && k.QuotaSnap?
    case ReadRuntime(k, flag, _, _) => th.job.QuotaJob? && k.QuotaSnap? && flag == Bool(true)
    case _ => false
  }

  ghost predicate Sleeps(c: Cell, since: Cell) {
    c.log == since.log && c.record == since.record && forall t :: t in c.threads ==> Idles(c.threads[t])
  }

  lemma GotoSleeps(c: Cell, since: Cell, t: Tid, pc: PC)
    requires Sleeps(c, since) && t in c.threads && Idles(c.threads[t].(pc := pc))
    ensures Sleeps(Goto(c, t, pc), since)
  {
  }

  lemma SnapSleeps(c: Cell, since: Cell, t: Tid, s: Snap, now: Time)
    requires Sleeps(c, since) && t in c.threads && c.threads[t].job.QuotaJob? && s.flag == Bool(true)
    ensures Sleeps(SnapReady(c, t, QuotaSnap, s, now), since)
  {
    GotoSleeps(c, since, t, Leaving(Done));
  }

  lemma GetSleeps(c: Cell, since: Cell, t: Tid, now: Time, res: Exit)
    requires Sleeps(c, since) && Resting(since) && t in c.threads && c.threads[t].pc.ReadJSON?
    ensures Sleeps(GetStep(c, t, now, res), since)
  {
    assert Idles(c.threads[t]);
    var h := since.Host().value;
    assert c.Host() == since.Host() && since.(threads := map[]).Host() == since.Host();
    GotoSleeps(c, since, t, Leaving(if res == Canceled then Canceled else Failed));
    GotoSleeps(c, since, t, ReadRuntime(QuotaSnap, h.flag, h.body, h.name));
  }

  lemma RuntimeSleeps(c: Cell, since: Cell, t: Tid, now: Time, answer: RuntimeAnswer)
    requires Sleeps(c, since) && t in c.threads && c.threads[t].pc.ReadRuntime?
    ensures Sleeps(GetRuntimeStep(c, t, now, answer), since)
  {
    assert Idles(c.threads[t]);
    var pc := c.threads[t].pc;
    if answer == RuntimeFails || c.Host().None? {
      SnapSleeps(c, since, t, Snap(pc.flag, pc.body, pc.name, None), now);
    } else if c.Host().value.name != pc.name {
      GotoSleeps(c, since, t, Leaving(Failed));
    } else {
      var h := c.Host().value;
      var rev := if answer == RuntimeOk then Some(h.rev) else None;
      SnapSleeps(c, since, t, Snap(pc.flag, pc.body, pc.name, Some(Runtime(h.id, rev))), now);
    }
  }

  /** The one that holds the lock finds the record not due and leaves. */
  lemma LoadSleeps(c: Cell, since: Cell, t: Tid, now: Time, limit: Time)
    requires Sleeps(c, since) && Resting(since) && t in c.threads && since.record.value.nextCheck == Some(limit) && now < limit
    ensures Sleeps(LoadStep(c, t, now), since)
  {
    assert Idles(c.threads[t]);
    if c.threads[t].pc.Loading? {
      GotoSleeps(c, since, t, Leaving(Done));
    }
  }

  lemma LockSleeps(c: Cell, since: Cell, t: Tid)
    requires Sleeps(c, since) && t in c.threads
    ensures Sleeps(LockStep(c, t), since)
    ensures c.threads[t].pc.Leaving? ==> Sleeps(UnlockStep(c, t), since)
  {
    assert Idles(c.threads[t]);
  }

  lemma ActSleeps(c: Cell, since: Cell, t: Tid, now: Time, op: Op, limit: Time)
    requires Sleeps(c, since) && Resting(since) && t in c.threads && since.record.value.nextCheck == Some(limit) && now < limit
    ensures Sleeps(ActStep(c, t, now, op), since)
  {
    assert Idles(c.threads[t]);
    match op
    case Lock => LockSleeps(c, since, t);
    case GiveUp =>
    case Load => LoadSleeps(c, since, t, now, limit);
    case Unlock => LockSleeps(c, since, t);
    case Get(res) => if c.threads[t].pc.ReadJSON? { GetSleeps(c, since, t, now, res); }
    case GetRuntime(answer) => if c.threads[t].pc.ReadRuntime? { RuntimeSleeps(c, since, t, now, answer); }
    case Save(_, _, _) =>
    case Commit(ok) => assert CommitStep(c, t, ok) == c;
    case Probe(_, _, _) =>
  }

  lemma StepSleeps(c: Cell, since: Cell, e: Event, limit: Time)
    requires Sleeps(c, since) && Resting(since) && since.record.value.nextCheck == Some(limit) && Early(e, limit)
    ensures Sleeps(Step(c, e), since) && !SendsProbe(c, e)
  {
    match e
    case Begin(t, job, now) =>
    case Act(t, now, op) =>
      if t in c.threads {
        assert Idles(c.threads[t]);
        ActSleeps(c, since, t, now, op, limit);
      }
    case Crash =>
  }

  /** No event of the run sends a health request. */
  ghost predicate NoProbe(c: Cell, es: seq<Event>)
    decreases es
  {
    es == [] || (!SendsProbe(c, es[0]) && NoProbe(Step(c, es[0]), es[1..]))
  }

  lemma {:induction false} RunSleeps(c: Cell, since: Cell, es: seq<Event>, limit: Time)
    requires Sleeps(c, since) && Resting(since) && since.record.value.nextCheck == Some(limit) && AllEarly(es, limit)
    ensures Sleeps(Run(c, es), since) && NoProbe(c, es)
    decreases es
  {
    if es != [] {
      StepSleeps(c, since, es[0], limit);
      RunSleeps(Step(c, es[0]), since, es[1..], limit);
    }
  }

  /** While the next check lies ahead, every run without outside writes leaves the Host and the
      record as they are and probes nothing: whichever scans come, whoever still waits for the
      lock from before, whatever quota events, Host errors, failed commits and crashes occur. */
  lemma NothingBeforeNextCheck(c: Cell, es: seq<Event>, limit: Time)
    requires Resting(c) && c.record.value.nextCheck == Some(limit) && AllEarly(es, limit)
    ensures Run(c, es).log == c.log && Run(c, es).record == c.record && NoProbe(c, es)
  {
    RunSleeps(c, c, es, limit);
  }

  /** So after k failed attempts the back-off is kept: until the closed-form delay after the
      last failure has passed, nothing is written, recorded or probed. */
  lemma BackoffIsKept(c: Cell, es: seq<Event>, later: seq<Event>)
    requires Settled(c) && c.Host().value.rev in c.origin && 0 <= c.record.value.level <= MAX_LEVEL && CalmRun(c, es)
    requires Failures(c, es) != [] && (forall t :: !Holds(Run(c, es), t))
    requires var fs := Failures(c, es);
             var level: nat := Min(MAX_LEVEL, c.record.value.level + |fs|);
             AllEarly(later, fs[|fs| - 1] + Doubling(EffectiveInitial(c.cfg.initial) as int,
                                                     EffectiveMaximum(c.cfg.initial, c.cfg.maximum) as int, level - 1))
    ensures var d := Run(c, es);
            Run(d, later).log == d.log && Run(d, later).record == d.record && NoProbe(d, later)
  {
    CalmRunsSettle(c, es);
    CalmWaiters(c, es);
    NothingBeforeNextCheck(Run(c, es), later, Run(c, es).record.value.nextCheck.value);
  }

  lemma CalmWaiters(c: Cell, es: seq<Event>)
    requires Settled(c) && c.Host().value.rev in c.origin && 0 <= c.record.value.level <= MAX_LEVEL && CalmRun(c, es)
    requires forall t :: !Holds(Run(c, es), t)
    ensures forall t :: t in Run(c, es).threads ==> Run(c, es).threads[t].pc.WantLock?
  {
    SettledIsCalm(c);
    RunCalm(c, es, c.record.value.level, c.record.value.nextCheck);
    var d := Run(c, es);
    forall t | t in d.threads ensures d.threads[t].pc.WantLock? {
      assert ThreadAt(d, t) && !Holds(d, t);
    }
  }

  // ------------------------------------------------- when a scan begins and goes on

  /** The record asks for a check at this instant. */
  predicate CheckCame(rec: Rec, now: Time) {
    rec.nextCheck.None? || rec.nextCheck.value <= now
  }

  /** A scan takes a record up exactly when its check has come. */
  lemma ScanBeginsExactly(c: Cell, t: Tid, outer: Rec, now: Time)
    requires t !in c.threads
    ensures t in Step(c, Begin(t, ScanJob(outer), now)).threads <==> c.record == Some(outer) && CheckCame(outer, now)
  {
  }

  /** Inside the lock it goes on exactly when the record then found asks for it: its check has
      come, it is not in manual review, and the credential was enabled before. */
  lemma ScanGoesOnExactly(c: Cell, e: Event, t: Tid)
    requires t in c.threads && c.threads[t].pc.Loading?
    ensures var d := Step(c, e);
            t in d.threads && !d.threads[t].pc.Loading? && !d.threads[t].pc.Leaving?
            <==> && e.Act? && e.t == t && e.op.Load? && c.record.Some?
                 && CheckCame(c.record.value, e.now) && c.record.value.phase != ManualReview && c.record.value.wasEnabled
  {
    if Elsewhere(e, t) {
      ElsewhereKeeps(c, e, t);
    }
  }

  /** Over every run, whatever its assumptions. */
  lemma ScansWait(c: Cell, es: seq<Event>, k: nat, t: Tid)
    requires k < |es|
    requires var now, next := Run(c, es[..k]), Run(c, es[..k + 1]);
             && t in now.threads && now.threads[t].pc.Loading?
             && t in next.threads && !next.threads[t].pc.Loading? && !next.threads[t].pc.Leaving?
    ensures var d := Run(c, es[..k]);
            es[k].Act? && d.record.Some? && CheckCame(d.record.value, es[k].now)
  {
    var d := Run(c, es[..k]);
    assert es[..k + 1] == es[..k] + [es[k]];
    RunConcat(c, es[..k], [es[k]]);
    assert Run(d, [es[k]]) == Step(d, es[k]) by {
      assert [es[k]][1..] == [];
    }
    ScanGoesOnExactly(d, es[k], t);
  }
}
