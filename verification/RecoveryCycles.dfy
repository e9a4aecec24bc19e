/** Undisturbed behaviour of the protocol: what one goroutine does when every Host call and
    every commit succeeds and nobody else writes. The proofs replay runs step by step, so
    automatic induction is switched off throughout. */
module RecoveryCycles {
  import opened Basics
  import opened Backoff
  import opened Protocol

  /** `t` holds the lock; whoever else is about stands still. */
  function Inside(c: Cell, t: Tid, job: Job, pc: PC): Cell {
    c.(token := false, threads := c.threads[t := Thread(job, pc)])
  }

  function ReadOk(t: Tid, now: Time): seq<Event> {
    [Act(t, now, Get(Done)), Act(t, now, GetRuntime(RuntimeOk))]
  }

  function SnapOf(h: Cred): Snap {
    Snap(h.flag, h.body, h.name, Some(Runtime(h.id, Some(h.rev))))
  }

  lemma {:induction false} Two(c: Cell, a: Event, b: Event)
    ensures Run(c, [a, b]) == Step(Step(c, a), b)
  {
    assert [a, b][1..] == [b] && [b][1..] == [];
    assert Run(Step(c, a), [b]) == Run(Step(Step(c, a), b), []);
  }

  lemma {:induction false} One(c: Cell, a: Event)
    ensures Run(c, [a]) == Step(c, a)
  {
    assert [a][1..] == [];
  }

  lemma {:induction false} InsideGoto(c: Cell, t: Tid, job: Job, pc: PC, next: PC)
    ensures Goto(Inside(c, t, job, pc), t, next) == Inside(c, t, job, next)
  {
    assert Inside(c, t, job, pc).threads[t := Thread(job, next)] == Inside(c, t, job, next).threads;
  }

  /** A clean read hands the continuation the Host's current credential. */
  lemma {:induction false} Reads(c: Cell, t: Tid, job: Job, k: Cont, now: Time)
    requires c.Host().Some?
    ensures Run(Inside(c, t, job, ReadJSON(k)), ReadOk(t, now))
         == SnapReady(Inside(c, t, job, ReadRuntime(k, c.Host().value.flag, c.Host().value.body, c.Host().value.name)), t, k, SnapOf(c.Host().value), now)
  {
    var h := c.Host().value;
    var c0 := Inside(c, t, job, ReadJSON(k));
    var c1 := Inside(c, t, job, ReadRuntime(k, h.flag, h.body, h.name));
    Two(c0, Act(t, now, Get(Done)), Act(t, now, GetRuntime(RuntimeOk)));
    assert c0.Host() == c.Host() && c1.Host() == c.Host();
    assert Step(c0, Act(t, now, Get(Done))) == c1 by {
      assert c0.threads[t := Thread(job, ReadRuntime(k, h.flag, h.body, h.name))] == c1.threads;
    }
  }

  function MutationEvents(t: Tid, now: Time, rev: Rev): seq<Event> {
    ReadOk(t, now) + [Act(t, now, Save(true, rev, Done))] + ReadOk(t, now)
  }

  function NewCred(h: Cred, target: bool, rev: Rev): Cred {
    h.(flag := Bool(target), rev := rev)
  }

  lemma {:induction false} GuardPasses(c: Cell, t: Tid, job: Job, m: Mutation, now: Time)
    requires c.Host().Some? && m.Guard(SnapOf(c.Host().value)) && c.Host().value.flag != Bool(m.Target())
    ensures Run(Inside(c, t, job, ReadJSON(Before(m))), ReadOk(t, now)) == Inside(c, t, job, Saving(m, SnapOf(c.Host().value)))
  {
    var h := c.Host().value;
    Reads(c, t, job, Before(m), now);
    InsideGoto(c, t, job, ReadRuntime(Before(m), h.flag, h.body, h.name), Saving(m, SnapOf(h)));
  }

  lemma {:induction false} Saves(c: Cell, t: Tid, job: Job, m: Mutation, now: Time, rev: Rev)
    requires c.Host().Some?
    ensures var h := c.Host().value;
            Step(Inside(c, t, job, Saving(m, SnapOf(h))), Act(t, now, Save(true, rev, Done)))
            == Inside(AppendWrite(c, m.Kind(), Some(NewCred(h, m.Target(), rev))), t, job, ReadJSON(After(m, SnapOf(h))))
  {
    var h := c.Host().value;
    var c1 := Inside(c, t, job, Saving(m, SnapOf(h)));
    var d := AppendWrite(c, m.Kind(), Some(NewCred(h, m.Target(), rev)));
    assert c1.Host() == c.Host();
    InsideGoto(d, t, job, Saving(m, SnapOf(h)), ReadJSON(After(m, SnapOf(h))));
  }

  lemma {:induction false} RereadMatches(d: Cell, t: Tid, job: Job, m: Mutation, before: Cred, now: Time)
    requires d.Host().Some? && d.Host().value.flag == Bool(m.Target()) && d.Host().value.rev != before.rev
    ensures var s := SnapOf(d.Host().value);
            Run(Inside(d, t, job, ReadJSON(After(m, SnapOf(before)))), ReadOk(t, now))
            == MutDone(Inside(d, t, job, ReadRuntime(After(m, SnapOf(before)), s.flag, s.body, s.name)), t, m, SnapOf(before), s, true, now)
  {
    Reads(d, t, job, After(m, SnapOf(before)), now);
  }

  /** One get, guard, save, re-get transaction that finds what its guard expects. */
  lemma {:induction false} MutationRuns(c: Cell, t: Tid, job: Job, m: Mutation, now: Time, rev: Rev)
    requires c.Host().Some? && m.Guard(SnapOf(c.Host().value))
    requires c.Host().value.flag != Bool(m.Target()) && rev != c.Host().value.rev
    ensures var h := c.Host().value;
            var d := AppendWrite(c, m.Kind(), Some(NewCred(h, m.Target(), rev)));
            var s := SnapOf(NewCred(h, m.Target(), rev));
            Run(Inside(c, t, job, ReadJSON(Before(m))), MutationEvents(t, now, rev))
            == MutDone(Inside(d, t, job, ReadRuntime(After(m, SnapOf(h)), s.flag, s.body, s.name)), t, m, SnapOf(h), s, true, now)
  {
    var h := c.Host().value;
    var d := AppendWrite(c, m.Kind(), Some(NewCred(h, m.Target(), rev)));
    var save := Act(t, now, Save(true, rev, Done));
    GuardPasses(c, t, job, m, now);
    Saves(c, t, job, m, now, rev);
    assert d.Host() == Some(NewCred(h, m.Target(), rev));
    RereadMatches(d, t, job, m, h, now);
    One(Inside(c, t, job, Saving(m, SnapOf(h))), save);
    RunConcat(Inside(c, t, job, ReadJSON(Before(m))), ReadOk(t, now), [save]);
    RunConcat(Inside(c, t, job, ReadJSON(Before(m))), ReadOk(t, now) + [save], ReadOk(t, now));
  }

  // ------------------------------------------------- runs with fresh revisions

  lemma {:induction false} FreshConcat(c: Cell, a: seq<Event>, b: seq<Event>)
    requires FreshRun(c, a) && FreshRun(Run(c, a), b)
    ensures FreshRun(c, a + b)
    decreases a
  {
    if a == [] {
      assert a + b == b;
    } else {
      assert (a + b)[0] == a[0] && (a + b)[1..] == a[1..] + b;
      FreshConcat(Step(c, a[0]), a[1..], b);
    }
  }

  ghost predicate Writeless(es: seq<Event>) {
    forall i :: 0 <= i < |es| ==> !es[i].Outside? && !(es[i].Act? && es[i].op.Save?)
  }

  lemma {:induction false} WritelessFresh(c: Cell, es: seq<Event>)
    requires Writeless(es)
    ensures FreshRun(c, es)
    decreases es
  {
    if es != [] {
      WritelessFresh(Step(c, es[0]), es[1..]);
    }
  }

  lemma {:induction false} MutationFresh(c: Cell, t: Tid, job: Job, m: Mutation, now: Time, rev: Rev)
    requires c.Host().Some? && m.Guard(SnapOf(c.Host().value)) && c.Host().value.flag != Bool(m.Target())
    requires rev !in c.origin
    ensures FreshRun(Inside(c, t, job, ReadJSON(Before(m))), MutationEvents(t, now, rev))
  {
    var start, save := Inside(c, t, job, ReadJSON(Before(m))), Act(t, now, Save(true, rev, Done));
    var mid := Inside(c, t, job, Saving(m, SnapOf(c.Host().value)));
    GuardPasses(c, t, job, m, now);
    WritelessFresh(start, ReadOk(t, now));
    assert FreshRun(mid, [save]) by {
      assert [save][1..] == [];
    }
    WritelessFresh(Run(mid, [save]), ReadOk(t, now));
    FreshConcat(start, ReadOk(t, now), [save]);
    RunConcat(start, ReadOk(t, now), [save]);
    FreshConcat(start, ReadOk(t, now) + [save], ReadOk(t, now));
  }

  /** The plugin owns a disabled credential and nothing is in progress. */
  ghost predicate Settled(c: Cell) {
    && c.threads == map[] && c.token
    && c.record.Some? && c.Host().Some?
    && var rec, h := c.record.value, c.Host().value;
       && rec.phase == OwnedDisabled && rec.wasEnabled
       && h.flag == Bool(true) && rec.hash == h.body && rec.saveRev == Some(h.rev)
       && (rec.authId == "" || rec.authId == h.id) && (rec.fileName == "" || rec.fileName == h.name)
  }

  /** One recovery attempt: when it began, when its probe and what follows took place, the two
      revisions the Host hands out, and the probe's reason. */
  datatype Cycle = Cycle(began: Time, ended: Time, enableRev: Rev, redisableRev: Rev, why: Reason)

  function Checks(t: Tid, job: Job, now: Time): seq<Event> {
    [Begin(t, job, now), Act(t, now, Lock)] + [Act(t, now, Load)] + ReadOk(t, now)
  }

  function Announces(t: Tid, now: Time): seq<Event> {
    [Act(t, now, Commit(true)), Act(t, now, Load)]
  }

  function Finishes(t: Tid, now: Time): seq<Event> {
    [Act(t, now, Commit(true)), Act(t, now, Unlock)]
  }

  function FailedAttempt(t: Tid, job: Job, y: Cycle): seq<Event> {
    Checks(t, job, y.began) + Announces(t, y.began) + MutationEvents(t, y.began, y.enableRev)
    + Announces(t, y.ended) + [Act(t, y.ended, Probe(true, false, y.why))] + ReadOk(t, y.ended)
    + MutationEvents(t, y.ended, y.redisableRev) + Finishes(t, y.ended)
  }

  lemma {:induction false} ChecksRun(c: Cell, t: Tid, now: Time)
    requires Settled(c) && Due(c.record.value, now)
    ensures Run(c, Checks(t, ScanJob(c.record.value), now)) == Inside(c, t, ScanJob(c.record.value), WriteAhead(c.record.value))
  {
    var rec, h := c.record.value, c.Host().value;
    var job := ScanJob(rec);
    var waiting := c.(threads := map[t := Thread(job, WantLock)]);
    Two(c, Begin(t, job, now), Act(t, now, Lock));
    assert c.threads[t := Thread(job, WantLock)] == waiting.threads;
    assert waiting.threads[t := Thread(job, Loading)] == Inside(c, t, job, Loading).threads;
    One(Inside(c, t, job, Loading), Act(t, now, Load));
    InsideGoto(c, t, job, Loading, ReadJSON(ProcessSnap(rec)));
    Reads(c, t, job, ProcessSnap(rec), now);
    InsideGoto(c, t, job, ReadRuntime(ProcessSnap(rec), h.flag, h.body, h.name), WriteAhead(rec));
    RunConcat(c, [Begin(t, job, now), Act(t, now, Lock)], [Act(t, now, Load)]);
    RunConcat(c, [Begin(t, job, now), Act(t, now, Lock)] + [Act(t, now, Load)], ReadOk(t, now));
  }

  function PendingRec(c: Cell): Rec
    requires c.record.Some?
  {
    c.record.value.(phase := RestorePending, attempt := c.nextAttempt)
  }

  /** The write-ahead commit and the read that follows it. */
  lemma {:induction false} AnnouncesEnable(c: Cell, t: Tid, job: Job, now: Time)
    requires c.record.Some?
    ensures Run(Inside(c, t, job, WriteAhead(c.record.value)), Announces(t, now))
         == Inside(c.(record := Some(PendingRec(c)), nextAttempt := c.nextAttempt + 1), t, job,
                   ReadJSON(Before(EnableMut(c.record.value, PendingRec(c)))))
  {
    var rec := c.record.value;
    var d := c.(record := Some(PendingRec(c)), nextAttempt := c.nextAttempt + 1);
    Two(Inside(c, t, job, WriteAhead(rec)), Act(t, now, Commit(true)), Act(t, now, Load));
    InsideGoto(d, t, job, WriteAhead(rec), LoadPending(rec));
    InsideGoto(d, t, job, LoadPending(rec), ReadJSON(Before(EnableMut(rec, PendingRec(c)))));
  }

  function BoundRec(rec: Rec, s: Snap): Rec
    requires s.HasRev()
  {
    rec.(phase := ProbePending, postHash := Some(s.body), postRev := Some(s.Rev()))
  }

  /** The commit of the post-enable guard and the read that follows it. */
  lemma {:induction false} AnnouncesProbe(c: Cell, t: Tid, job: Job, s: Snap, now: Time)
    requires c.record.Some? && s.HasRev()
    ensures Run(Inside(c, t, job, SetProbePending(c.record.value, s)), Announces(t, now))
         == Inside(c.(record := Some(BoundRec(c.record.value, s))), t, job, Probing(BoundRec(c.record.value, s), s))
  {
    var rec := c.record.value;
    var d := c.(record := Some(BoundRec(rec, s)));
    Two(Inside(c, t, job, SetProbePending(rec, s)), Act(t, now, Commit(true)), Act(t, now, Load));
    InsideGoto(d, t, job, SetProbePending(rec, s), LoadProbe(s));
    InsideGoto(d, t, job, LoadProbe(s), Probing(BoundRec(rec, s), s));
  }

  /** A failed probe of the guarded credential leads to the guarded re-disable. */
  lemma {:induction false} ProbeFails(c: Cell, t: Tid, job: Job, rec: Rec, now: Time, why: Reason)
    requires c.Host().Some? && GuardMatchesPostEnable(SnapOf(c.Host().value), rec)
    ensures Run(Inside(c, t, job, Probing(rec, SnapOf(c.Host().value))), [Act(t, now, Probe(true, false, why))] + ReadOk(t, now))
         == Inside(c, t, job, ReadJSON(Before(RedisableMut(rec, why))))
  {
    var h := c.Host().value;
    var c0 := Inside(c, t, job, Probing(rec, SnapOf(h)));
    One(c0, Act(t, now, Probe(true, false, why)));
    InsideGoto(c, t, job, Probing(rec, SnapOf(h)), ReadJSON(FailSnap(rec, why)));
    Reads(c, t, job, FailSnap(rec, why), now);
    InsideGoto(c, t, job, ReadRuntime(FailSnap(rec, why), h.flag, h.body, h.name), ReadJSON(Before(RedisableMut(rec, why))));
    RunConcat(c0, [Act(t, now, Probe(true, false, why))], ReadOk(t, now));
  }

  function OwnedAgain(rec: Rec, s: Snap, level: int, nextCheck: Time, why: Reason): Rec
    requires s.HasRev()
  {
    rec.(phase := OwnedDisabled, level := level, nextCheck := Some(nextCheck), reason := why,
         hash := s.body, saveRev := Some(s.Rev()), postHash := None, postRev := None)
  }

  lemma {:induction false} FinishesRun(c: Cell, t: Tid, job: Job, s: Snap, level: int, nextCheck: Time, why: Reason, now: Time)
    requires c.record.Some? && s.HasRev() && t !in c.threads && c.token
    ensures Run(Inside(c, t, job, FinishDisabled(s, level, nextCheck, why)), Finishes(t, now))
         == c.(record := Some(OwnedAgain(c.record.value, s, level, nextCheck, why)))
  {
    var d := c.(record := Some(OwnedAgain(c.record.value, s, level, nextCheck, why)));
    Two(Inside(c, t, job, FinishDisabled(s, level, nextCheck, why)), Act(t, now, Commit(true)), Act(t, now, Unlock));
    InsideGoto(d, t, job, FinishDisabled(s, level, nextCheck, why), Leaving(Done));
    assert Inside(d, t, job, Leaving(Done)).threads - {t} == d.threads;
  }

  /** The Host after the enable, and after the re-disable as well. */
  function Enabled(c: Cell, y: Cycle): Cell
    requires c.record.Some? && c.Host().Some?
  {
    AppendWrite(c.(record := Some(PendingRec(c)), nextAttempt := c.nextAttempt + 1),
                PluginEnable(c.nextAttempt), Some(NewCred(c.Host().value, false, y.enableRev)))
  }

  lemma {:induction false} EnableRuns(c: Cell, t: Tid, job: Job, y: Cycle)
    requires Settled(c) && y.enableRev != c.Host().value.rev
    ensures var c1 := c.(record := Some(PendingRec(c)), nextAttempt := c.nextAttempt + 1);
            Run(Inside(c1, t, job, ReadJSON(Before(EnableMut(c.record.value, PendingRec(c))))), MutationEvents(t, y.began, y.enableRev))
              == Inside(Enabled(c, y), t, job, SetProbePending(PendingRec(c), SnapOf(NewCred(c.Host().value, false, y.enableRev))))
  {
    var h := c.Host().value;
    var c1 := c.(record := Some(PendingRec(c)), nextAttempt := c.nextAttempt + 1);
    var m := EnableMut(c.record.value, PendingRec(c));
    var s := SnapOf(NewCred(h, false, y.enableRev));
    assert c1.Host() == c.Host();
    MutationRuns(c1, t, job, m, y.began, y.enableRev);
    InsideGoto(Enabled(c, y), t, job, ReadRuntime(After(m, SnapOf(h)), s.flag, s.body, s.name), SetProbePending(PendingRec(c), s));
  }

  lemma {:induction false} EnableHalf(c: Cell, t: Tid, y: Cycle)
    requires Settled(c) && Due(c.record.value, y.began) && y.enableRev != c.Host().value.rev
    ensures var job := ScanJob(c.record.value);
            Run(c, Checks(t, job, y.began) + Announces(t, y.began) + MutationEvents(t, y.began, y.enableRev))
              == Inside(Enabled(c, y), t, job, SetProbePending(PendingRec(c), SnapOf(NewCred(c.Host().value, false, y.enableRev))))
  {
    var job := ScanJob(c.record.value);
    ChecksRun(c, t, y.began);
    AnnouncesEnable(c, t, job, y.began);
    EnableRuns(c, t, job, y);
    RunConcat(c, Checks(t, job, y.began), Announces(t, y.began));
    RunConcat(c, Checks(t, job, y.began) + Announces(t, y.began), MutationEvents(t, y.began, y.enableRev));
  }

  /** From the bound post-enable guard to the state the next attempt can start from. */
  function Redisabled(c: Cell, y: Cycle, bound: Rec): Cell
    requires c.Host().Some?
  {
    var level := NextLevel(bound.level);
    var after := NewCred(c.Host().value, true, y.redisableRev);
    AppendWrite(c, PluginRedisable(bound.attempt), Some(after))
      .(record := Some(OwnedAgain(bound, SnapOf(after), level, y.ended + Delay(c.cfg, level), y.why)))
  }

  lemma {:induction false} RedisableSaves(c: Cell, t: Tid, job: Job, y: Cycle, bound: Rec)
    requires c.Host().Some? && y.redisableRev != c.Host().value.rev
    requires GuardMatchesPostEnable(SnapOf(c.Host().value), bound)
    ensures var level := NextLevel(bound.level);
            var after := NewCred(c.Host().value, true, y.redisableRev);
            Run(Inside(c, t, job, ReadJSON(Before(RedisableMut(bound, y.why)))), MutationEvents(t, y.ended, y.redisableRev))
            == Inside(AppendWrite(c, PluginRedisable(bound.attempt), Some(after)), t, job,
                   FinishDisabled(SnapOf(after), level, y.ended + Delay(c.cfg, level), y.why))
  {
    var h := c.Host().value;
    var m := RedisableMut(bound, y.why);
    var after := SnapOf(NewCred(h, true, y.redisableRev));
    var level := NextLevel(bound.level);
    var d := AppendWrite(c, m.Kind(), Some(NewCred(h, true, y.redisableRev)));
    MutationRuns(c, t, job, m, y.ended, y.redisableRev);
    InsideGoto(d, t, job, ReadRuntime(After(m, SnapOf(h)), after.flag, after.body, after.name),
               FinishDisabled(after, level, y.ended + Delay(c.cfg, level), y.why));
  }

  lemma RedisabledIs(c: Cell, y: Cycle, bound: Rec)
    requires c.record == Some(bound) && c.Host().Some?
    ensures var after := NewCred(c.Host().value, true, y.redisableRev);
            var level := NextLevel(bound.level);
            var d := AppendWrite(c, PluginRedisable(bound.attempt), Some(after));
            && d.record == c.record && d.threads == c.threads && d.token == c.token
            && d.(record := Some(OwnedAgain(bound, SnapOf(after), level, y.ended + Delay(c.cfg, level), y.why))) == Redisabled(c, y, bound)
  {
  }

  lemma {:induction false} RedisableFinishes(c: Cell, t: Tid, job: Job, y: Cycle, bound: Rec)
    requires c.record == Some(bound) && c.Host().Some? && t !in c.threads && c.token
    ensures var level := NextLevel(bound.level);
            var after := NewCred(c.Host().value, true, y.redisableRev);
            Run(Inside(AppendWrite(c, PluginRedisable(bound.attempt), Some(after)), t, job,
                       FinishDisabled(SnapOf(after), level, y.ended + Delay(c.cfg, level), y.why)), Finishes(t, y.ended))
            == Redisabled(c, y, bound)
  {
    var after := NewCred(c.Host().value, true, y.redisableRev);
    var level := NextLevel(bound.level);
    var d := AppendWrite(c, PluginRedisable(bound.attempt), Some(after));
    var next := y.ended + Delay(c.cfg, level);
    RedisabledIs(c, y, bound);
    FinishesRun(d, t, job, SnapOf(after), level, next, y.why, y.ended);
    assert d.record.value == bound;
  }

  lemma {:induction false} RedisableRuns(c: Cell, t: Tid, job: Job, y: Cycle, bound: Rec)
    requires c.record == Some(bound) && c.Host().Some? && t !in c.threads && c.token && y.redisableRev != c.Host().value.rev
    requires GuardMatchesPostEnable(SnapOf(c.Host().value), bound)
    ensures Run(Inside(c, t, job, ReadJSON(Before(RedisableMut(bound, y.why)))), MutationEvents(t, y.ended, y.redisableRev) + Finishes(t, y.ended))
         == Redisabled(c, y, bound)
  {
    RedisableSaves(c, t, job, y, bound);
    RedisableFinishes(c, t, job, y, bound);
    RunConcat(Inside(c, t, job, ReadJSON(Before(RedisableMut(bound, y.why)))), MutationEvents(t, y.ended, y.redisableRev), Finishes(t, y.ended));
  }

  lemma {:induction false} RedisableHalf(c: Cell, t: Tid, job: Job, y: Cycle, pending: Rec)
    requires c.record == Some(pending) && c.Host().Some? && c.threads == map[] && c.token
    requires c.Host().value.flag == Bool(false) && y.redisableRev != c.Host().value.rev
    requires pending.authId == "" || pending.authId == c.Host().value.id
    ensures var s := SnapOf(c.Host().value);
            Run(Inside(c, t, job, SetProbePending(pending, s)),
                Announces(t, y.ended) + ([Act(t, y.ended, Probe(true, false, y.why))] + ReadOk(t, y.ended))
                + (MutationEvents(t, y.ended, y.redisableRev) + Finishes(t, y.ended)))
              == Redisabled(c.(record := Some(BoundRec(pending, s))), y, BoundRec(pending, s))
  {
    var s := SnapOf(c.Host().value);
    var bound := BoundRec(pending, s);
    var c0 := Inside(c, t, job, SetProbePending(pending, s));
    var c1 := c.(record := Some(bound));
    var probe := [Act(t, y.ended, Probe(true, false, y.why))] + ReadOk(t, y.ended);
    AnnouncesProbe(c, t, job, s, y.ended);
    assert c1.Host() == c.Host();
    ProbeFails(c1, t, job, bound, y.ended, y.why);
    RedisableRuns(c1, t, job, y, bound);
    RunConcat(c0, Announces(t, y.ended), probe);
    RunConcat(c0, Announces(t, y.ended) + probe, MutationEvents(t, y.ended, y.redisableRev) + Finishes(t, y.ended));
  }

  ghost predicate NewRevs(c: Cell, y: Cycle) {
    c.Host().Some? && y.enableRev != c.Host().value.rev && y.redisableRev != y.enableRev
  }

  lemma {:induction false} FailedAttemptSplits(t: Tid, job: Job, y: Cycle)
    ensures FailedAttempt(t, job, y)
         == (Checks(t, job, y.began) + Announces(t, y.began) + MutationEvents(t, y.began, y.enableRev))
          + (Announces(t, y.ended) + ([Act(t, y.ended, Probe(true, false, y.why))] + ReadOk(t, y.ended))
             + (MutationEvents(t, y.ended, y.redisableRev) + Finishes(t, y.ended)))
  {
  }

  function AfterAttempt(c: Cell, y: Cycle): Cell
    requires c.record.Some? && c.Host().Some?
  {
    var e := Enabled(c, y);
    var bound := BoundRec(PendingRec(c), SnapOf(NewCred(c.Host().value, false, y.enableRev)));
    Redisabled(e.(record := Some(bound)), y, bound)
  }

  lemma {:induction false} AttemptRuns(c: Cell, t: Tid, y: Cycle)
    requires Settled(c) && Due(c.record.value, y.began) && NewRevs(c, y)
    ensures Run(c, FailedAttempt(t, ScanJob(c.record.value), y)) == AfterAttempt(c, y)
  {
    var job := ScanJob(c.record.value);
    var e := Enabled(c, y);
    EnableHalf(c, t, y);
    assert e.Host() == Some(NewCred(c.Host().value, false, y.enableRev));
    RedisableHalf(e, t, job, y, PendingRec(c));
    FailedAttemptSplits(t, job, y);
    RunConcat(c, Checks(t, job, y.began) + Announces(t, y.began) + MutationEvents(t, y.began, y.enableRev),
              Announces(t, y.ended) + ([Act(t, y.ended, Probe(true, false, y.why))] + ReadOk(t, y.ended))
              + (MutationEvents(t, y.ended, y.redisableRev) + Finishes(t, y.ended)));
  }

  /** One whole failed attempt: enabled, probed, disabled again, and ready for the next. */
  lemma {:induction false} AttemptFails(c: Cell, t: Tid, y: Cycle)
    requires Settled(c) && Due(c.record.value, y.began) && NewRevs(c, y)
    ensures var d := Run(c, FailedAttempt(t, ScanJob(c.record.value), y));
            var level := NextLevel(c.record.value.level);
            && Settled(d) && d.cfg == c.cfg
            && |d.log| == |c.log| + 2
            && d.log[|c.log|].kind.PluginEnable? && d.log[|c.log| + 1].kind.PluginRedisable?
            && d.Host() == Some(NewCred(c.Host().value, true, y.redisableRev))
            && d.record.value.level == level
            && d.record.value.nextCheck == Some(y.ended + Delay(c.cfg, level))
            && d.record.value.hash == c.record.value.hash
  {
    AttemptRuns(c, t, y);
    assert AfterAttempt(c, y).Host() == Some(NewCred(c.Host().value, true, y.redisableRev));
  }

  /** Attempts made one after another, each by a scan that finds the record due. */
  function Attempts(c: Cell, t: Tid, ys: seq<Cycle>): Cell
    decreases ys
  {
    if ys == [] || c.record.None? then c
    else Attempts(Run(c, FailedAttempt(t, ScanJob(c.record.value), ys[0])), t, ys[1..])
  }

  ghost predicate Undisturbed(c: Cell, t: Tid, ys: seq<Cycle>)
    decreases ys
  {
    ys == [] ||
    (&& c.record.Some? && Due(c.record.value, ys[0].began) && NewRevs(c, ys[0])
     && Undisturbed(Run(c, FailedAttempt(t, ScanJob(c.record.value), ys[0])), t, ys[1..]))
  }

  /** After k consecutive failed probes the credential is disabled, the record owns it with
      matching hash and revision, the level is min(32, start + k), and the next check is the
      closed-form delay after the last failure. */
  lemma {:induction false} FailedCycles(c: Cell, t: Tid, ys: seq<Cycle>)
    requires Settled(c) && 0 <= c.record.value.level <= MAX_LEVEL && Undisturbed(c, t, ys)
    ensures AfterCycles(c, Attempts(c, t, ys), ys)
    decreases ys
  {
    if ys != [] {
      AttemptFails(c, t, ys[0]);
      var d := Run(c, FailedAttempt(t, ScanJob(c.record.value), ys[0]));
      FailedCycles(d, t, ys[1..]);
      OneMoreCycle(c, d, Attempts(d, t, ys[1..]), ys);
    }
  }

  ghost predicate AfterCycles(c: Cell, d: Cell, ys: seq<Cycle>)
    requires Settled(c) && 0 <= c.record.value.level
  {
    && Settled(d) && d.cfg == c.cfg && |d.log| == |c.log| + 2 * |ys|
    && d.record.value.level == Min(MAX_LEVEL, c.record.value.level + |ys|)
    && (if ys == [] then d == c
        else d.record.value.nextCheck == Some(ys[|ys| - 1].ended
               + Doubling(EffectiveInitial(c.cfg.initial) as int, EffectiveMaximum(c.cfg.initial, c.cfg.maximum) as int,
                          d.record.value.level - 1)))
  }

  lemma OneMoreCycle(c: Cell, d: Cell, e: Cell, ys: seq<Cycle>)
    requires Settled(c) && Settled(d) && ys != [] && d.cfg == c.cfg && |d.log| == |c.log| + 2
    requires 0 <= c.record.value.level <= MAX_LEVEL && d.record.value.level == NextLevel(c.record.value.level)
    requires d.record.value.nextCheck == Some(ys[0].ended + Delay(c.cfg, d.record.value.level))
    requires AfterCycles(d, e, ys[1..])
    ensures AfterCycles(c, e, ys)
  {
    if |ys| == 1 {
      FirstDelay(c.cfg, d.record.value.level);
    }
  }

  lemma FirstDelay(cfg: Cfg, level: int)
    requires 1 <= level <= MAX_LEVEL
    ensures Delay(cfg, level) == Doubling(EffectiveInitial(cfg.initial) as int, EffectiveMaximum(cfg.initial, cfg.maximum) as int, level - 1)
  {
  }

  // ------------------------------------------------- a probe that succeeds

  function SucceededAttempt(t: Tid, job: Job, y: Cycle): seq<Event> {
    (Checks(t, job, y.began) + Announces(t, y.began) + MutationEvents(t, y.began, y.enableRev))
    + (Announces(t, y.ended) + ([Act(t, y.ended, Probe(true, true, y.why))] + ReadOk(t, y.ended))
       + ([Act(t, y.ended, Commit(true))] + Finishes(t, y.ended)))
  }

  lemma {:induction false} ProbeSucceeds(c: Cell, t: Tid, job: Job, rec: Rec, now: Time, why: Reason)
    requires c.Host().Some? && GuardMatchesPostEnable(SnapOf(c.Host().value), rec)
    ensures Run(Inside(c, t, job, Probing(rec, SnapOf(c.Host().value))), [Act(t, now, Probe(true, true, why))] + ReadOk(t, now))
         == Inside(c.(confirmed := c.confirmed + {rec.attempt}), t, job, RecordHealth)
  {
    var h := c.Host().value;
    var c0 := Inside(c, t, job, Probing(rec, SnapOf(h)));
    One(c0, Act(t, now, Probe(true, true, why)));
    InsideGoto(c, t, job, Probing(rec, SnapOf(h)), ReadJSON(ProbeOk(rec)));
    Reads(c, t, job, ProbeOk(rec), now);
    InsideGoto(c, t, job, ReadRuntime(ProbeOk(rec), h.flag, h.body, h.name), RecordHealth);
    RunConcat(c0, [Act(t, now, Probe(true, true, why))], ReadOk(t, now));
  }

  lemma {:induction false} RetiresRun(e: Cell, t: Tid, job: Job, now: Time)
    requires e.token && t !in e.threads
    ensures Run(Inside(e, t, job, Retiring), Finishes(t, now)) == e.(record := None)
  {
    var d := e.(record := None);
    Two(Inside(e, t, job, Retiring), Act(t, now, Commit(true)), Act(t, now, Unlock));
    InsideGoto(d, t, job, Retiring, Leaving(Done));
    assert Inside(d, t, job, Leaving(Done)).threads - {t} == d.threads;
  }

  lemma {:induction false} HealthRecorded(c: Cell, t: Tid, job: Job, now: Time)
    requires c.threads == map[] && c.token
    ensures Run(Inside(c, t, job, RecordHealth), [Act(t, now, Commit(true))] + Finishes(t, now)) == c.(record := None)
  {
    One(Inside(c, t, job, RecordHealth), Act(t, now, Commit(true)));
    InsideGoto(c, t, job, RecordHealth, Retiring);
    RetiresRun(c, t, job, now);
    RunConcat(Inside(c, t, job, RecordHealth), [Act(t, now, Commit(true))], Finishes(t, now));
  }

  lemma {:induction false} ConfirmHalf(c: Cell, t: Tid, job: Job, y: Cycle, pending: Rec)
    requires c.record == Some(pending) && c.Host().Some? && c.threads == map[] && c.token
    requires c.Host().value.flag == Bool(false)
    requires pending.authId == "" || pending.authId == c.Host().value.id
    ensures Run(Inside(c, t, job, SetProbePending(pending, SnapOf(c.Host().value))),
                Announces(t, y.ended) + ([Act(t, y.ended, Probe(true, true, y.why))] + ReadOk(t, y.ended))
                + ([Act(t, y.ended, Commit(true))] + Finishes(t, y.ended)))
              == c.(record := None, confirmed := c.confirmed + {pending.attempt})
  {
    var s := SnapOf(c.Host().value);
    var bound := BoundRec(pending, s);
    var c0 := Inside(c, t, job, SetProbePending(pending, s));
    var c1 := c.(record := Some(bound));
    var probe := [Act(t, y.ended, Probe(true, true, y.why))] + ReadOk(t, y.ended);
    AnnouncesProbe(c, t, job, s, y.ended);
    assert c1.Host() == c.Host();
    ProbeSucceeds(c1, t, job, bound, y.ended, y.why);
    HealthRecorded(c1.(confirmed := c.confirmed + {pending.attempt}), t, job, y.ended);
    RunConcat(c0, Announces(t, y.ended), probe);
    RunConcat(c0, Announces(t, y.ended) + probe, [Act(t, y.ended, Commit(true))] + Finishes(t, y.ended));
  }

  /** An attempt whose probe succeeds ends with the credential enabled and no record. */
  lemma {:induction false} AttemptSucceeds(c: Cell, t: Tid, y: Cycle)
    requires Settled(c) && Due(c.record.value, y.began) && y.enableRev != c.Host().value.rev
    ensures var d := Run(c, SucceededAttempt(t, ScanJob(c.record.value), y));
            && d.record.None? && d.threads == map[] && d.token
            && d.Host() == Some(NewCred(c.Host().value, false, y.enableRev))
            && |d.log| == |c.log| + 1 && c.nextAttempt in d.confirmed
  {
    var job := ScanJob(c.record.value);
    var e := Enabled(c, y);
    EnableHalf(c, t, y);
    assert e.Host() == Some(NewCred(c.Host().value, false, y.enableRev));
    ConfirmHalf(e, t, job, y, PendingRec(c));
    RunConcat(c, Checks(t, job, y.began) + Announces(t, y.began) + MutationEvents(t, y.began, y.enableRev),
              Announces(t, y.ended) + ([Act(t, y.ended, Probe(true, true, y.why))] + ReadOk(t, y.ended))
              + ([Act(t, y.ended, Commit(true))] + Finishes(t, y.ended)));
  }

  // ------------------------------------------------- the quota event that starts it all

  function QuotaEvents(t: Tid, job: Job, now: Time, rev: Rev): seq<Event> {
    ([Begin(t, job, now), Act(t, now, Lock)] + (ReadOk(t, now) + [Act(t, now, Load)]))
    + MutationEvents(t, now, rev) + Finishes(t, now)
  }

  lemma {:induction false} QuotaEnters(c: Cell, t: Tid, job: Job, now: Time)
    requires c.threads == map[] && c.token && job.QuotaJob? && (job.usageId == "" || job.usageId == job.entryId)
    ensures Run(c, [Begin(t, job, now), Act(t, now, Lock)]) == Inside(c, t, job, ReadJSON(QuotaSnap))
  {
    var waiting := c.(threads := map[t := Thread(job, WantLock)]);
    Two(c, Begin(t, job, now), Act(t, now, Lock));
    assert c.threads[t := Thread(job, WantLock)] == waiting.threads;
    assert waiting.threads[t := Thread(job, ReadJSON(QuotaSnap))] == Inside(c, t, job, ReadJSON(QuotaSnap)).threads;
  }

  lemma {:induction false} QuotaReads(c: Cell, t: Tid, job: Job, now: Time)
    requires c.record.None? && c.Host().Some? && !c.Host().value.flag.Disabled()
    requires job.QuotaJob? && (job.usageId == "" || job.usageId == c.Host().value.id)
    ensures Run(Inside(c, t, job, ReadJSON(QuotaSnap)), ReadOk(t, now) + [Act(t, now, Load)])
         == Inside(c, t, job, ReadJSON(Before(DisableMut(c.Host().value.body, c.Host().value.rev))))
  {
    var h := c.Host().value;
    Reads(c, t, job, QuotaSnap, now);
    InsideGoto(c, t, job, ReadRuntime(QuotaSnap, h.flag, h.body, h.name), QuotaLoad(SnapOf(h)));
    One(Inside(c, t, job, QuotaLoad(SnapOf(h))), Act(t, now, Load));
    InsideGoto(c, t, job, QuotaLoad(SnapOf(h)), ReadJSON(Before(DisableMut(h.body, h.rev))));
    RunConcat(Inside(c, t, job, ReadJSON(QuotaSnap)), ReadOk(t, now), [Act(t, now, Load)]);
  }

  lemma {:induction false} QuotaChecks(c: Cell, t: Tid, job: Job, now: Time)
    requires c.threads == map[] && c.token && c.record.None? && c.Host().Some? && !c.Host().value.flag.Disabled()
    requires job.QuotaJob? && (job.usageId == "" || (job.usageId == job.entryId && job.usageId == c.Host().value.id))
    ensures Run(c, [Begin(t, job, now), Act(t, now, Lock)] + (ReadOk(t, now) + [Act(t, now, Load)]))
         == Inside(c, t, job, ReadJSON(Before(DisableMut(c.Host().value.body, c.Host().value.rev))))
  {
    QuotaEnters(c, t, job, now);
    QuotaReads(c, t, job, now);
    RunConcat(c, [Begin(t, job, now), Act(t, now, Lock)], ReadOk(t, now) + [Act(t, now, Load)]);
  }

  /** The first check is at the reset the decision names, if that lies ahead; else after the
      initial back-off, which is a quarter of an hour unless one is configured. */
  function FirstCheck(cfg: Cfg, resetAt: Option<Time>, now: Time): Time {
    if resetAt.Some? && now < resetAt.value then resetAt.value
    else now + if cfg.initial > 0 then cfg.initial as int else 900_000_000_000
  }

  lemma {:induction false} QuotaDisables(c: Cell, t: Tid, job: Job, now: Time, rev: Rev)
    requires c.threads == map[] && c.token && c.record.None? && c.Host().Some? && !c.Host().value.flag.Disabled()
    requires job.QuotaJob? && (job.usageId == "" || (job.usageId == job.entryId && job.usageId == c.Host().value.id))
    requires job.usageId == "" ==> job.entryId == "" || job.entryId == c.Host().value.id
    requires rev != c.Host().value.rev
    ensures var d := Run(c, QuotaEvents(t, job, now, rev));
            && Settled(d) && d.cfg == c.cfg && d.record.value.level == 0
            && |d.log| == |c.log| + 1 && d.origin.Keys == c.origin.Keys + {rev}
            && d.Host() == Some(NewCred(c.Host().value, true, rev))
            && d.record.value.nextCheck == Some(FirstCheck(c.cfg, job.resetAt, now)) && d.record.value.reason == job.why
            && d.record.value.hash == c.Host().value.body && d.record.value.fileName == c.Host().value.name
            && d.record.value.authId == (if job.usageId == "" then job.entryId else job.usageId)
  {
    QuotaRuns(c, t, job, now, rev);
    assert QuotaOwned(c, job, now, rev).Host() == Some(NewCred(c.Host().value, true, rev));
  }

  function QuotaOwned(c: Cell, job: Job, now: Time, rev: Rev): Cell
    requires c.Host().Some? && job.QuotaJob?
  {
    var after := NewCred(c.Host().value, true, rev);
    AppendWrite(c, PluginDisable, Some(after))
      .(nextAttempt := c.nextAttempt + 1, record := Some(QuotaRec(c, job, SnapOf(c.Host().value), SnapOf(after), now)))
  }

  lemma {:induction false} QuotaRuns(c: Cell, t: Tid, job: Job, now: Time, rev: Rev)
    requires c.threads == map[] && c.token && c.record.None? && c.Host().Some? && !c.Host().value.flag.Disabled()
    requires job.QuotaJob? && (job.usageId == "" || (job.usageId == job.entryId && job.usageId == c.Host().value.id))
    requires rev != c.Host().value.rev
    ensures Run(c, QuotaEvents(t, job, now, rev)) == QuotaOwned(c, job, now, rev)
  {
    var h := c.Host().value;
    var after := NewCred(h, true, rev);
    var d := AppendWrite(c, PluginDisable, Some(after)).(nextAttempt := c.nextAttempt + 1);
    var rec := QuotaRec(c, job, SnapOf(h), SnapOf(after), now);
    var checks := [Begin(t, job, now), Act(t, now, Lock)] + (ReadOk(t, now) + [Act(t, now, Load)]);
    QuotaChecks(c, t, job, now);
    QuotaSaves(c, t, job, now, rev);
    assert d.threads == map[] && d.token;
    QuotaFinishes(d, t, job, rec, now);
    RunConcat(c, checks, MutationEvents(t, now, rev));
    RunConcat(c, checks + MutationEvents(t, now, rev), Finishes(t, now));
  }

  lemma {:induction false} QuotaSaves(c: Cell, t: Tid, job: Job, now: Time, rev: Rev)
    requires c.Host().Some? && !c.Host().value.flag.Disabled() && job.QuotaJob? && rev != c.Host().value.rev
    ensures var h := c.Host().value;
            var after := NewCred(h, true, rev);
            Run(Inside(c, t, job, ReadJSON(Before(DisableMut(h.body, h.rev)))), MutationEvents(t, now, rev))
            == Inside(AppendWrite(c, PluginDisable, Some(after)).(nextAttempt := c.nextAttempt + 1), t, job,
                      QuotaRecord(QuotaRec(c, job, SnapOf(h), SnapOf(after), now)))
  {
    var h := c.Host().value;
    var m := DisableMut(h.body, h.rev);
    var after := SnapOf(NewCred(h, true, rev));
    var c1 := AppendWrite(c, PluginDisable, Some(NewCred(h, true, rev)));
    var at := ReadRuntime(After(m, SnapOf(h)), after.flag, after.body, after.name);
    var rec := QuotaRec(c, job, SnapOf(h), after, now);
    MutationRuns(c, t, job, m, now, rev);
    assert QuotaRec(Inside(c1, t, job, at), job, SnapOf(h), after, now) == rec;
    InsideGoto(c1.(nextAttempt := c.nextAttempt + 1), t, job, at, QuotaRecord(rec));
  }

  lemma {:induction false} QuotaFinishes(c: Cell, t: Tid, job: Job, rec: Rec, now: Time)
    requires c.threads == map[] && c.token
    ensures Run(Inside(c, t, job, QuotaRecord(rec)), Finishes(t, now)) == c.(record := Some(rec))
  {
    var d := c.(record := Some(rec));
    Two(Inside(c, t, job, QuotaRecord(rec)), Act(t, now, Commit(true)), Act(t, now, Unlock));
    InsideGoto(d, t, job, QuotaRecord(rec), Leaving(Done));
    assert Inside(d, t, job, Leaving(Done)).threads - {t} == d.threads;
  }
}
