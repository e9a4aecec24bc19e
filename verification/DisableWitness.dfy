/** Every event on the list that loses track of a disable can really occur: for each there is
    a run with fresh revisions, without outside writes inside a transaction and without any
    other event of the list, that ends with it. */
module DisableWitness {
  import opened Basics
  import opened Protocol
  import opened OwnershipInvariant
  import opened RecoveryCycles
  import opened StaleError
  import opened DisableRecord

  // ------------------------------------------------- runs that lose nothing

  ghost predicate Fine(c: Cell, e: Event) {
    Clean(c, e) && NewRevision(c, e) && !Loses(c, e)
  }

  ghost predicate FineRun(c: Cell, es: seq<Event>)
    decreases es
  {
    es == [] || (Fine(c, es[0]) && FineRun(Step(c, es[0]), es[1..]))
  }

  lemma {:induction false} FineMeans(c: Cell, es: seq<Event>)
    requires FineRun(c, es)
    ensures CleanRun(c, es) && FreshRun(c, es) && NeverLoses(c, es)
    decreases es
  {
    if es != [] {
      FineMeans(Step(c, es[0]), es[1..]);
    }
  }

  lemma {:induction false} FineConcat(c: Cell, a: seq<Event>, b: seq<Event>)
    requires FineRun(c, a) && FineRun(Run(c, a), b)
    ensures FineRun(c, a + b)
    decreases a
  {
    if a == [] {
      assert a + b == b;
    } else {
      assert (a + b)[0] == a[0] && (a + b)[1..] == a[1..] + b;
      FineConcat(Step(c, a[0]), a[1..], b);
    }
  }

  lemma {:induction false} FineOne(c: Cell, e: Event)
    requires Fine(c, e)
    ensures FineRun(c, [e]) && Run(c, [e]) == Step(c, e)
  {
    assert [e][1..] == [];
  }

  /** Events that never write, never commit and never fail. */
  predicate Plain(e: Event) {
    match e
    case Begin(_, _, _) => true
    case Act(_, _, op) => !op.Save? && !op.Commit? && (op.Get? ==> op.res == Done) && (op.GetRuntime? ==> op.answer == RuntimeOk)
    case _ => false
  }

  lemma {:induction false} PlainFine(c: Cell, es: seq<Event>)
    requires forall i :: 0 <= i < |es| ==> Plain(es[i])
    ensures FineRun(c, es)
    decreases es
  {
    if es != [] {
      PlainFine(Step(c, es[0]), es[1..]);
    }
  }

  /** `c` is reached without losing track of anything. */
  ghost predicate Reached(cfg: Cfg, c: Cell) {
    exists es :: FineRun(Fresh(cfg), es) && Run(Fresh(cfg), es) == c
  }

  lemma ReachOn(cfg: Cfg, c: Cell, es: seq<Event>)
    requires Reached(cfg, c) && FineRun(c, es)
    ensures Reached(cfg, Run(c, es))
  {
    var before :| FineRun(Fresh(cfg), before) && Run(Fresh(cfg), before) == c;
    FineConcat(Fresh(cfg), before, es);
    RunConcat(Fresh(cfg), before, es);
    assert FineRun(Fresh(cfg), before + es);
  }

  lemma ReachPlain(cfg: Cfg, c: Cell, es: seq<Event>)
    requires Reached(cfg, c) && forall i :: 0 <= i < |es| ==> Plain(es[i])
    ensures Reached(cfg, Run(c, es))
  {
    PlainFine(c, es);
    ReachOn(cfg, c, es);
  }

  lemma ReachOne(cfg: Cfg, c: Cell, e: Event)
    requires Reached(cfg, c) && Fine(c, e)
    ensures Reached(cfg, Step(c, e))
  {
    FineOne(c, e);
    ReachOn(cfg, c, [e]);
  }

  /** A reached state in which an event of one kind loses track, and does so at once. */
  ghost predicate Witness(cfg: Cfg, c: Cell, e: Event) {
    Reached(cfg, c) && Clean(c, e) && NewRevision(c, e) && Loses(c, e) && !Accounted(Step(c, e))
  }

  lemma LosesAtOnce(cfg: Cfg, c: Cell, e: Event)
    requires Reached(cfg, c) && Clean(c, e) && NewRevision(c, e) && Loses(c, e)
    ensures Witness(cfg, c, e)
  {
    var es :| FineRun(Fresh(cfg), es) && Run(Fresh(cfg), es) == c;
    FineMeans(Fresh(cfg), es);
    FreshTrack(cfg, es);
    StepTracks(c, e);
  }

  lemma FreshTrack(cfg: Cfg, es: seq<Event>)
    requires CleanRun(Fresh(cfg), es) && FreshRun(Fresh(cfg), es) && NeverLoses(Fresh(cfg), es)
    ensures Track(Run(Fresh(cfg), es))
  {
    assert Inv(Fresh(cfg));
    RunTracks(Fresh(cfg), es);
  }

  // ------------------------------------------------- around the quota disable

  const T: Tid := 0
  const USER := Cred(Absent, 7, "user-1", "auth.json", 0)

  /** The credential as the only Host write so far. */
  function Present(cfg: Cfg): Cell {
    AppendWrite(Fresh(cfg), External, Some(USER))
  }

  /** A quota event that was resolved to the entry `id`. */
  function Quota(id: string): Job {
    QuotaJob("", id, None, Given("codex_usage_limit_reached"))
  }

  const GUARD := DisableMut(7, 0)

  lemma {:induction false} AtSaving(cfg: Cfg, id: string)
    ensures Reached(cfg, Inside(Present(cfg), T, Quota(id), Saving(GUARD, SnapOf(USER))))
  {
    var c, job := Present(cfg), Quota(id);
    assert FineRun(Fresh(cfg), []);
    assert Run(Fresh(cfg), []) == Fresh(cfg);
    ReachOne(cfg, Fresh(cfg), Outside(Some(USER)));
    assert c.Host() == Some(USER);
    var enters := [Begin(T, job, 0), Act(T, 0, Lock)];
    QuotaEnters(c, T, job, 0);
    ReachPlain(cfg, c, enters);
    QuotaReads(c, T, job, 0);
    ReachPlain(cfg, Inside(c, T, job, ReadJSON(QuotaSnap)), ReadOk(T, 0) + [Act(T, 0, Load)]);
    GuardPasses(c, T, job, GUARD, 0);
    ReachPlain(cfg, Inside(c, T, job, ReadJSON(Before(GUARD))), ReadOk(T, 0));
  }

  /** The disable is applied. */
  function Struck(cfg: Cfg): Cell {
    AppendWrite(Present(cfg), PluginDisable, Some(NewCred(USER, true, 1)))
  }

  lemma {:induction false} AtReget(cfg: Cfg, id: string)
    ensures Reached(cfg, Inside(Struck(cfg), T, Quota(id), ReadJSON(After(GUARD, SnapOf(USER)))))
  {
    var c, job := Present(cfg), Quota(id);
    AtSaving(cfg, id);
    assert c.Host() == Some(USER) && c.origin.Keys == {0};
    Saves(c, T, job, GUARD, 0, 1);
    ReachOne(cfg, Inside(c, T, job, Saving(GUARD, SnapOf(USER))), Act(T, 0, Save(true, 1, Done)));
  }

  lemma {:induction false} AtRecord(cfg: Cfg, id: string)
    ensures var rec := QuotaRec(Struck(cfg), Quota(id), SnapOf(USER), SnapOf(NewCred(USER, true, 1)), 0);
            Reached(cfg, Inside(Struck(cfg).(nextAttempt := 1), T, Quota(id), QuotaRecord(rec)))
  {
    var c, job := Struck(cfg), Quota(id);
    var h, after := NewCred(USER, true, 1), SnapOf(NewCred(USER, true, 1));
    var rec := QuotaRec(c, job, SnapOf(USER), after, 0);
    AtReget(cfg, id);
    assert c.Host() == Some(h);
    RereadMatches(c, T, job, GUARD, USER, 0);
    var at := ReadRuntime(After(GUARD, SnapOf(USER)), h.flag, h.body, h.name);
    assert QuotaRec(Inside(c, T, job, at), job, SnapOf(USER), after, 0) == rec;
    InsideGoto(c.(nextAttempt := 1), T, job, at, QuotaRecord(rec));
    ReachPlain(cfg, Inside(c, T, job, ReadJSON(After(GUARD, SnapOf(USER)))), ReadOk(T, 0));
  }

  /** The Host applies the disable and reports a failure. */
  lemma {:induction false} FailedSave(cfg: Cfg)
    ensures exists c :: Witness(cfg, c, Act(T, 0, Save(true, 1, Failed)))
  {
    var c := Inside(Present(cfg), T, Quota("user-1"), Saving(GUARD, SnapOf(USER)));
    AtSaving(cfg, "user-1");
    LosesAtOnce(cfg, c, Act(T, 0, Save(true, 1, Failed)));
  }

  /** The process dies after the disable was applied. */
  lemma {:induction false} CrashAfterSave(cfg: Cfg)
    ensures exists c :: Witness(cfg, c, Crash)
  {
    var c := Inside(Struck(cfg), T, Quota("user-1"), ReadJSON(After(GUARD, SnapOf(USER))));
    AtReget(cfg, "user-1");
    assert BookingAt(c, T);
    LosesAtOnce(cfg, c, Crash);
  }

  /** The re-get after the applied disable fails. */
  lemma {:induction false} FailedReget(cfg: Cfg)
    ensures exists c :: Witness(cfg, c, Act(T, 0, Get(Failed)))
  {
    var c := Inside(Struck(cfg), T, Quota("user-1"), ReadJSON(After(GUARD, SnapOf(USER))));
    AtReget(cfg, "user-1");
    LosesAtOnce(cfg, c, Act(T, 0, Get(Failed)));
  }

  /** The re-get yields no revision. */
  lemma {:induction false} NoRevisionAfterSave(cfg: Cfg)
    ensures exists c :: Witness(cfg, c, Act(T, 0, GetRuntime(RuntimeWithoutRevision)))
  {
    var h := NewCred(USER, true, 1);
    var before := Inside(Struck(cfg), T, Quota("user-1"), ReadJSON(After(GUARD, SnapOf(USER))));
    var c := Inside(Struck(cfg), T, Quota("user-1"), ReadRuntime(After(GUARD, SnapOf(USER)), h.flag, h.body, h.name));
    AtReget(cfg, "user-1");
    assert Struck(cfg).Host() == Some(h);
    InsideGoto(Struck(cfg), T, Quota("user-1"), ReadJSON(After(GUARD, SnapOf(USER))), c.threads[T].pc);
    ReachOne(cfg, before, Act(T, 0, Get(Done)));
    LosesAtOnce(cfg, c, Act(T, 0, GetRuntime(RuntimeWithoutRevision)));
  }

  /** The record of the disable cannot be committed. */
  lemma {:induction false} FailedRecord(cfg: Cfg)
    ensures exists c :: Witness(cfg, c, Act(T, 0, Commit(false))) && T in c.threads && c.threads[T].pc.QuotaRecord?
  {
    var rec := QuotaRec(Struck(cfg), Quota("user-1"), SnapOf(USER), SnapOf(NewCred(USER, true, 1)), 0);
    var c := Inside(Struck(cfg).(nextAttempt := 1), T, Quota("user-1"), QuotaRecord(rec));
    AtRecord(cfg, "user-1");
    LosesAtOnce(cfg, c, Act(T, 0, Commit(false)));
  }

  /** The entry the event was resolved to is not the credential that was disabled. */
  lemma {:induction false} ForeignRecord(cfg: Cfg)
    ensures exists c :: Witness(cfg, c, Act(T, 0, Commit(true))) && T in c.threads && c.threads[T].pc.QuotaRecord?
  {
    var rec := QuotaRec(Struck(cfg), Quota("user-2"), SnapOf(USER), SnapOf(NewCred(USER, true, 1)), 0);
    var c := Inside(Struck(cfg).(nextAttempt := 1), T, Quota("user-2"), QuotaRecord(rec));
    AtRecord(cfg, "user-2");
    assert c.Host() == Some(NewCred(USER, true, 1)) && rec.authId == "user-2";
    LosesAtOnce(cfg, c, Act(T, 0, Commit(true)));
  }

  // ------------------------------------------------- segments of a recovery attempt

  lemma ReachCommit(cfg: Cfg, c: Cell, t: Tid, now: Time)
    requires Reached(cfg, c) && t in c.threads && !LosesCommit(c, c.threads[t].pc, true)
    ensures Reached(cfg, Step(c, Act(t, now, Commit(true))))
  {
    ReachOne(cfg, c, Act(t, now, Commit(true)));
  }

  /** A commit and the step that follows it. */
  lemma {:induction false} ReachPair(cfg: Cfg, c: Cell, t: Tid, now: Time, e: Event)
    requires Reached(cfg, c) && t in c.threads && !LosesCommit(c, c.threads[t].pc, true) && Plain(e)
    ensures Reached(cfg, Run(c, [Act(t, now, Commit(true)), e]))
  {
    ReachCommit(cfg, c, t, now);
    ReachPlain(cfg, Step(c, Act(t, now, Commit(true))), [e]);
    One(Step(c, Act(t, now, Commit(true))), e);
    Two(c, Act(t, now, Commit(true)), e);
  }

  lemma {:induction false} ReachMutation(cfg: Cfg, c: Cell, t: Tid, job: Job, m: Mutation, now: Time, rev: Rev)
    requires Reached(cfg, Inside(c, t, job, ReadJSON(Before(m)))) && !m.DisableMut?
    requires c.Host().Some? && m.Guard(SnapOf(c.Host().value)) && c.Host().value.flag != Bool(m.Target())
    requires rev !in c.origin
    ensures Reached(cfg, Run(Inside(c, t, job, ReadJSON(Before(m))), MutationEvents(t, now, rev)))
    ensures Reached(cfg, Inside(AppendWrite(c, m.Kind(), Some(NewCred(c.Host().value, m.Target(), rev))), t, job,
                                ReadJSON(After(m, SnapOf(c.Host().value)))))
  {
    var start, s := Inside(c, t, job, ReadJSON(Before(m))), SnapOf(c.Host().value);
    var save := Act(t, now, Save(true, rev, Done));
    var mid := Inside(c, t, job, Saving(m, s));
    GuardPasses(c, t, job, m, now);
    ReachPlain(cfg, start, ReadOk(t, now));
    Saves(c, t, job, m, now, rev);
    ReachOne(cfg, mid, save);
    ReachPlain(cfg, Step(mid, save), ReadOk(t, now));
    One(mid, save);
    RunConcat(start, ReadOk(t, now), [save]);
    RunConcat(start, ReadOk(t, now) + [save], ReadOk(t, now));
  }

  /** A read that fails outside a transaction. */
  lemma {:induction false} ReachStumble(cfg: Cfg, c: Cell, t: Tid, job: Job, k: Cont, now: Time)
    requires Reached(cfg, Inside(c, t, job, ReadJSON(k))) && !k.After? && !k.Before? && c.token && job.ScanJob?
    ensures Reached(cfg, c.(threads := c.threads[t := Thread(job, ErrLoad)]))
  {
    var c0 := Inside(c, t, job, ReadJSON(k));
    StumblesRun(c, t, job, k, now);
    ReachOne(cfg, c0, Act(t, now, Get(Failed)));
    ReachPlain(cfg, Step(c0, Act(t, now, Get(Failed))), [Act(t, now, Unlock)]);
    One(Step(c0, Act(t, now, Get(Failed))), Act(t, now, Unlock));
    Two(c0, Act(t, now, Get(Failed)), Act(t, now, Unlock));
  }

  /** A scan that enters and whose read fails. */
  lemma {:induction false} ReachStumbling(cfg: Cfg, e: Cell, a: Tid, rec: Rec, now: Time)
    requires Reached(cfg, e) && e.record == Some(rec) && e.token && a !in e.threads
    requires Due(rec, now) && rec.wasEnabled && rec.phase != ManualReview
    ensures Reached(cfg, e.(threads := e.threads[a := Thread(ScanJob(rec), ErrLoad)]))
  {
    EntersRun(e, a, rec, now);
    ReachPlain(cfg, e, Enters(a, rec, now));
    ReachStumble(cfg, e, a, ScanJob(rec), ProcessSnap(rec), now);
  }

  /** The same, and it has re-read the record it is about to overwrite. */
  lemma {:induction false} ReachParked(cfg: Cfg, e: Cell, a: Tid, rec: Rec, now: Time)
    requires Reached(cfg, e) && e.record == Some(rec) && e.token && a !in e.threads
    requires Due(rec, now) && rec.wasEnabled && rec.phase != ManualReview
    ensures Reached(cfg, Parked(e, a, rec, now))
  {
    var stuck := e.(threads := e.threads[a := Thread(ScanJob(rec), ErrLoad)]);
    ReachStumbling(cfg, e, a, rec, now);
    ReachPlain(cfg, stuck, [Act(a, now, Load)]);
    One(stuck, Act(a, now, Load));
    assert stuck.threads[a := Thread(ScanJob(rec), ErrSave(Backed(e.cfg, rec, now, HostError)))] == Parked(e, a, rec, now).threads;
  }

  // ------------------------------------------------- the first attempt

  /** The settled state the quota disable leads to. */
  function Home(cfg: Cfg): Cell {
    var rec := QuotaRec(Struck(cfg), Quota("user-1"), SnapOf(USER), SnapOf(NewCred(USER, true, 1)), 0);
    Struck(cfg).(nextAttempt := 1, record := Some(rec))
  }

  lemma {:induction false} AtHome(cfg: Cfg)
    ensures Reached(cfg, Home(cfg)) && Settled(Home(cfg)) && Home(cfg).origin.Keys == {0, 1}
    ensures Home(cfg).record.value.attempt == 0 && Home(cfg).Host() == Some(NewCred(USER, true, 1))
  {
    var c, job := Struck(cfg).(nextAttempt := 1), Quota("user-1");
    var rec := QuotaRec(Struck(cfg), job, SnapOf(USER), SnapOf(NewCred(USER, true, 1)), 0);
    AtRecord(cfg, "user-1");
    assert c.Host() == Some(NewCred(USER, true, 1));
    ReachPair(cfg, Inside(c, T, job, QuotaRecord(rec)), T, 0, Act(T, 0, Unlock));
    QuotaFinishes(c, T, job, rec, 0);
  }

  /** The first attempt: it begins when it is due. */
  function First(cfg: Cfg): Cycle {
    var due := Home(cfg).record.value.nextCheck.value;
    Cycle(due, due, 2, 3, Given("timeout"))
  }

  lemma {:induction false} AtEnabled(cfg: Cfg)
    ensures var c, y := Home(cfg), First(cfg);
            Reached(cfg, Inside(Enabled(c, y), T, ScanJob(c.record.value), SetProbePending(PendingRec(c), SnapOf(NewCred(USER, false, 2)))))
  {
    var c, y := Home(cfg), First(cfg);
    AtHome(cfg);
    ChecksRun(c, T, y.began);
    ReachPlain(cfg, c, Checks(T, ScanJob(c.record.value), y.began));
    AtAnnounced(cfg, y.began);
    ReachEnabled(cfg, c, y);
  }

  lemma {:induction false} ReachEnabled(cfg: Cfg, c: Cell, y: Cycle)
    requires Settled(c) && y.enableRev !in c.origin && y.enableRev != c.Host().value.rev
    requires Reached(cfg, Inside(c.(record := Some(PendingRec(c)), nextAttempt := c.nextAttempt + 1), T, ScanJob(c.record.value),
                                 ReadJSON(Before(EnableMut(c.record.value, PendingRec(c))))))
    ensures Reached(cfg, Inside(Enabled(c, y), T, ScanJob(c.record.value),
                                SetProbePending(PendingRec(c), SnapOf(NewCred(c.Host().value, false, y.enableRev)))))
  {
    var job := ScanJob(c.record.value);
    var c1 := c.(record := Some(PendingRec(c)), nextAttempt := c.nextAttempt + 1);
    EnableRuns(c, T, job, y);
    assert c1.Host() == c.Host() && c1.origin == c.origin;
    ReachMutation(cfg, c1, T, job, EnableMut(c.record.value, PendingRec(c)), y.began, y.enableRev);
  }

  /** The attempt has enabled the credential and bound the enable; its probe is next. */
  lemma {:induction false} AtProbe(cfg: Cfg)
    ensures var c, y := Home(cfg), First(cfg);
            var s := SnapOf(NewCred(USER, false, 2));
            Reached(cfg, Inside(Waiting(c, y), T, ScanJob(c.record.value), Probing(Bound(c, y), s)))
    ensures Waiting(Home(cfg), First(cfg)).Host() == Some(NewCred(USER, false, 2))
  {
    var c, y := Home(cfg), First(cfg);
    var job, s := ScanJob(c.record.value), SnapOf(NewCred(USER, false, 2));
    var e := Enabled(c, y);
    AtHome(cfg);
    AtEnabled(cfg);
    AnnouncesProbe(e, T, job, s, y.began);
    ReachPair(cfg, Inside(e, T, job, SetProbePending(PendingRec(c), s)), T, y.began, Act(T, y.began, Load));
  }

  lemma {:induction false} AtAnnounced(cfg: Cfg, now: Time)
    requires var c := Home(cfg); Reached(cfg, Inside(c, T, ScanJob(c.record.value), WriteAhead(c.record.value)))
    ensures var c := Home(cfg);
            Reached(cfg, Inside(c.(record := Some(PendingRec(c)), nextAttempt := c.nextAttempt + 1), T, ScanJob(c.record.value),
                                ReadJSON(Before(EnableMut(c.record.value, PendingRec(c))))))
  {
    var c := Home(cfg);
    var at := Inside(c, T, ScanJob(c.record.value), WriteAhead(c.record.value));
    AtHome(cfg);
    assert at.Host() == c.Host();
    AnnouncesEnable(c, T, ScanJob(c.record.value), now);
    ReachPair(cfg, at, T, now, Act(T, now, Load));
  }

  /** An attempt bound to an enabled credential, about to be probed. */
  ghost predicate Probable(e: Cell, rec: Rec, y: Cycle) {
    && e.record == Some(rec) && e.token && e.Host().Some?
    && Due(rec, y.ended) && rec.wasEnabled && rec.phase == ProbePending
    && (rec.fileName == "" || rec.fileName == e.Host().value.name)
    && GuardMatchesPostEnable(SnapOf(e.Host().value), rec)
    && e.Host().value.flag == Bool(false)
    && y.redisableRev !in e.origin && y.redisableRev != e.Host().value.rev
  }

  lemma {:induction false} WaitingProbable(cfg: Cfg)
    ensures var c, y := Home(cfg), First(cfg);
            Probable(Waiting(c, y), Bound(c, y), y) && Waiting(c, y).threads == map[]
    ensures Bound(Home(cfg), First(cfg)).attempt == 1
  {
    AtHome(cfg);
  }

  /** Up to the guard of the re-disable. */
  lemma {:induction false} ReachGuard(cfg: Cfg, e: Cell, t: Tid, job: Job, rec: Rec, y: Cycle)
    requires Probable(e, rec, y) && Reached(cfg, Inside(e, t, job, Probing(rec, SnapOf(e.Host().value))))
    ensures Reached(cfg, Inside(e, t, job, ReadJSON(Before(RedisableMut(rec, y.why)))))
  {
    var at := Inside(e, t, job, Probing(rec, SnapOf(e.Host().value)));
    ProbeFails(e, t, job, rec, y.ended, y.why);
    ReachPlain(cfg, at, [Act(t, y.ended, Probe(true, false, y.why))] + ReadOk(t, y.ended));
  }

  /** Up to the commit that records the re-disable. */
  lemma {:induction false} ReachBooking(cfg: Cfg, e: Cell, t: Tid, job: Job, rec: Rec, y: Cycle)
    requires Probable(e, rec, y) && Reached(cfg, Inside(e, t, job, Probing(rec, SnapOf(e.Host().value))))
    ensures var level, after := NextLevel(rec.level), NewCred(e.Host().value, true, y.redisableRev);
            Reached(cfg, Inside(AppendWrite(e, PluginRedisable(rec.attempt), Some(after)), t, job,
                                FinishDisabled(SnapOf(after), level, y.ended + Delay(e.cfg, level), y.why)))
  {
    ReachGuard(cfg, e, t, job, rec, y);
    ReachMutation(cfg, e, t, job, RedisableMut(rec, y.why), y.ended, y.redisableRev);
    RedisableSaves(e, t, job, y, rec);
  }

  /** The bookkeeping of a re-disable cannot be committed. */
  lemma {:induction false} FinishFails(cfg: Cfg, e: Cell, t: Tid, job: Job, rec: Rec, y: Cycle)
    requires Probable(e, rec, y) && Reached(cfg, Inside(e, t, job, Probing(rec, SnapOf(e.Host().value))))
    ensures exists c :: Witness(cfg, c, Act(t, 0, Commit(false))) && t in c.threads && c.threads[t].pc.FinishDisabled?
  {
    var level, after := NextLevel(rec.level), NewCred(e.Host().value, true, y.redisableRev);
    var d := Inside(AppendWrite(e, PluginRedisable(rec.attempt), Some(after)), t, job,
                    FinishDisabled(SnapOf(after), level, y.ended + Delay(e.cfg, level), y.why));
    ReachBooking(cfg, e, t, job, rec, y);
    assert d.Host() == Some(after) && BookingAt(d, t);
    LosesAtOnce(cfg, d, Act(t, 0, Commit(false)));
  }

  lemma {:induction false} FailedFinish(cfg: Cfg)
    ensures exists c :: Witness(cfg, c, Act(T, 0, Commit(false))) && T in c.threads && c.threads[T].pc.FinishDisabled?
  {
    AtProbe(cfg);
    WaitingProbable(cfg);
    FinishFails(cfg, Waiting(Home(cfg), First(cfg)), T, ScanJob(Home(cfg).record.value), Bound(Home(cfg), First(cfg)), First(cfg));
  }

  lemma {:induction false} ReachReviewing(cfg: Cfg, d: Cell, t: Tid, job: Job, m: Mutation, before: Snap)
    requires Reached(cfg, Inside(d, t, job, ReadJSON(After(m, before)))) && m.RedisableMut?
    ensures Reached(cfg, Inside(d, t, job, Reviewing(RedisableFailed)))
  {
    ReachOne(cfg, Inside(d, t, job, ReadJSON(After(m, before))), Act(t, 0, Get(Failed)));
    InsideGoto(d, t, job, ReadJSON(After(m, before)), Reviewing(RedisableFailed));
  }

  /** The re-disable was applied, its re-get failed, and the move to manual review fails, too. */
  lemma {:induction false} ReviewFails(cfg: Cfg, e: Cell, t: Tid, job: Job, rec: Rec, y: Cycle)
    requires Probable(e, rec, y) && Reached(cfg, Inside(e, t, job, Probing(rec, SnapOf(e.Host().value))))
    ensures exists c :: Witness(cfg, c, Act(t, 0, Commit(false))) && t in c.threads && c.threads[t].pc.Reviewing?
  {
    var m, after := RedisableMut(rec, y.why), NewCred(e.Host().value, true, y.redisableRev);
    var d := AppendWrite(e, m.Kind(), Some(after));
    var r := Inside(d, t, job, Reviewing(RedisableFailed));
    ReachGuard(cfg, e, t, job, rec, y);
    ReachMutation(cfg, e, t, job, m, y.ended, y.redisableRev);
    ReachReviewing(cfg, d, t, job, m, SnapOf(e.Host().value));
    assert r.Host() == Some(after) && BookingAt(r, t);
    LosesAtOnce(cfg, r, Act(t, 0, Commit(false)));
  }

  lemma {:induction false} FailedReview(cfg: Cfg)
    ensures exists c :: Witness(cfg, c, Act(T, 0, Commit(false))) && T in c.threads && c.threads[T].pc.Reviewing?
  {
    AtProbe(cfg);
    WaitingProbable(cfg);
    ReviewFails(cfg, Waiting(Home(cfg), First(cfg)), T, ScanJob(Home(cfg).record.value), Bound(Home(cfg), First(cfg)), First(cfg));
  }

  // ------------------------------------------------- late error updates

  /** The re-read after the failed probe fails, and the goroutine goes home. */
  lemma {:induction false} ReachInterrupted(cfg: Cfg, e: Cell, t: Tid, job: Job, rec: Rec, y: Cycle)
    requires Probable(e, rec, y) && Reached(cfg, Inside(e, t, job, Probing(rec, SnapOf(e.Host().value))))
    requires e.threads == map[] && job.ScanJob? && job.outer.attempt != rec.attempt
    ensures Reached(cfg, e)
  {
    var s, probe := SnapOf(e.Host().value), Act(t, y.ended, Probe(true, false, y.why));
    var at := Inside(e, t, job, Probing(rec, s));
    ReachPlain(cfg, at, [probe]);
    One(at, probe);
    InsideGoto(e, t, job, Probing(rec, s), ReadJSON(FailSnap(rec, y.why)));
    ReachStumble(cfg, e, t, job, FailSnap(rec, y.why), y.ended);
    ReachGivenUp(cfg, e, t, job, rec, y.ended);
  }

  lemma {:induction false} ReachGivenUp(cfg: Cfg, e: Cell, t: Tid, job: Job, rec: Rec, now: Time)
    requires Reached(cfg, e.(threads := e.threads[t := Thread(job, ErrLoad)]))
    requires e.record == Some(rec) && e.threads == map[] && job.ScanJob? && job.outer.attempt != rec.attempt
    ensures Reached(cfg, e)
  {
    var stuck := e.(threads := e.threads[t := Thread(job, ErrLoad)]);
    ReachPlain(cfg, stuck, [Act(t, now, Load)]);
    One(stuck, Act(t, now, Load));
    assert stuck.threads - {t} == e.threads;
  }

  lemma {:induction false} AtWaiting(cfg: Cfg)
    ensures Reached(cfg, Waiting(Home(cfg), First(cfg)))
  {
    AtProbe(cfg);
    AtHome(cfg);
    WaitingProbable(cfg);
    ReachInterrupted(cfg, Waiting(Home(cfg), First(cfg)), T, ScanJob(Home(cfg).record.value), Bound(Home(cfg), First(cfg)), First(cfg));
  }

  /** A scan takes a bound attempt to its end, whoever else stands by. */
  lemma {:induction false} ReachConclusion(cfg: Cfg, e: Cell, t: Tid, rec: Rec, y: Cycle)
    requires Reached(cfg, e) && Probable(e, rec, y) && t !in e.threads
    ensures Reached(cfg, Redisabled(e, y, rec))
  {
    var job, h, now := ScanJob(rec), e.Host().value, y.ended;
    EntersRun(e, t, rec, now);
    ReachPlain(cfg, e, Enters(t, rec, now));
    Reads(e, t, job, ProcessSnap(rec), now);
    InsideGoto(e, t, job, ReadRuntime(ProcessSnap(rec), h.flag, h.body, h.name), Probing(rec, SnapOf(h)));
    ReachPlain(cfg, Inside(e, t, job, ReadJSON(ProcessSnap(rec))), ReadOk(t, now));
    ReachBooking(cfg, e, t, job, rec, y);
    ReachFinish(cfg, e, t, job, y, rec);
  }

  lemma {:induction false} ReachFinish(cfg: Cfg, e: Cell, t: Tid, job: Job, y: Cycle, rec: Rec)
    requires e.record == Some(rec) && e.token && t !in e.threads && e.Host().Some?
    requires var level, after := NextLevel(rec.level), NewCred(e.Host().value, true, y.redisableRev);
             Reached(cfg, Inside(AppendWrite(e, PluginRedisable(rec.attempt), Some(after)), t, job,
                                 FinishDisabled(SnapOf(after), level, y.ended + Delay(e.cfg, level), y.why)))
    ensures Reached(cfg, Redisabled(e, y, rec))
  {
    var level, after := NextLevel(rec.level), NewCred(e.Host().value, true, y.redisableRev);
    var d := AppendWrite(e, PluginRedisable(rec.attempt), Some(after));
    var pc := FinishDisabled(SnapOf(after), level, y.ended + Delay(e.cfg, level), y.why);
    ReachPair(cfg, Inside(d, t, job, pc), t, y.ended, Act(t, y.ended, Unlock));
    RedisableFinishes(e, t, job, y, rec);
  }

  const A: Tid := 1

  /** A late error update brings back the version from before the re-disable. */
  lemma {:induction false} UpdateIsStale(cfg: Cfg, e: Cell, rec: Rec, y: Cycle)
    requires Reached(cfg, e) && Probable(e, rec, y) && e.threads == map[]
    ensures exists c :: Witness(cfg, c, Act(A, 0, Commit(true))) && A in c.threads && c.threads[A].pc.ErrSave?
  {
    ReachParked(cfg, e, A, rec, y.ended);
    var p := Parked(e, A, rec, y.ended);
    assert p.Host() == e.Host();
    ReachConclusion(cfg, p, T, rec, y);
    var r := Redisabled(p, y, rec);
    assert r.threads == p.threads && r.Host() == Some(NewCred(e.Host().value, true, y.redisableRev));
    LateErrorIsStale(cfg, r);
  }

  lemma LateErrorIsStale(cfg: Cfg, r: Cell)
    requires Reached(cfg, r) && r.threads.Keys == {A} && r.threads[A].pc.ErrSave? && Seen(r).disabled && r.Host().Some?
    requires r.record.Some? && r.record.value.attempt == r.threads[A].pc.rec.attempt && r.threads[A].pc.rec.phase == ProbePending
    ensures exists c :: Witness(cfg, c, Act(A, 0, Commit(true))) && A in c.threads && c.threads[A].pc.ErrSave?
  {
    forall u ensures !BookingAt(r, u) {
    }
    assert !Busy(r);
    LosesAtOnce(cfg, r, Act(A, 0, Commit(true)));
  }

  lemma {:induction false} StaleUpdate(cfg: Cfg)
    ensures exists c :: Witness(cfg, c, Act(A, 0, Commit(true))) && A in c.threads && c.threads[A].pc.ErrSave?
  {
    AtWaiting(cfg);
    WaitingProbable(cfg);
    UpdateIsStale(cfg, Waiting(Home(cfg), First(cfg)), Bound(Home(cfg), First(cfg)), First(cfg));
  }

  // ------------------------------------------------- an announcement over another version

  const B: Tid := 2

  function Manual(rec: Rec): Rec {
    rec.(phase := ManualReview, reason := PostEnableGuardUnavailable)
  }

  lemma {:induction false} ReviewCommits(cfg: Cfg, e: Cell, t: Tid, rec: Rec, now: Time)
    requires e.record == Some(rec) && e.token && t !in e.threads
    requires Reached(cfg, Inside(e, t, ScanJob(rec), Reviewing(PostEnableGuardUnavailable)))
    ensures Reached(cfg, e.(record := Some(Manual(rec))))
  {
    var review := Inside(e, t, ScanJob(rec), Reviewing(PostEnableGuardUnavailable));
    var d := e.(record := Some(Manual(rec)));
    ReachPair(cfg, review, t, now, Act(t, now, Unlock));
    Two(review, Act(t, now, Commit(true)), Act(t, now, Unlock));
    InsideGoto(d, t, ScanJob(rec), Reviewing(PostEnableGuardUnavailable), Leaving(Done));
    assert Inside(d, t, ScanJob(rec), Leaving(Done)).threads - {t} == d.threads;
  }

  /** A scan that learns no revision asks for a human. */
  lemma {:induction false} ReachReview(cfg: Cfg, e: Cell, t: Tid, rec: Rec, y: Cycle)
    requires Reached(cfg, e) && Probable(e, rec, y) && t !in e.threads
    ensures Reached(cfg, e.(record := Some(Manual(rec))))
  {
    var job, h, now := ScanJob(rec), e.Host().value, y.ended;
    var at, mid := Inside(e, t, job, ReadJSON(ProcessSnap(rec))), Inside(e, t, job, ReadRuntime(ProcessSnap(rec), h.flag, h.body, h.name));
    EntersRun(e, t, rec, now);
    ReachPlain(cfg, e, Enters(t, rec, now));
    assert at.Host() == e.Host();
    InsideGoto(e, t, job, ReadJSON(ProcessSnap(rec)), mid.threads[t].pc);
    ReachOne(cfg, at, Act(t, now, Get(Done)));
    ReviewsWithoutRevision(e, t, rec, y);
    ReachOne(cfg, mid, Act(t, now, GetRuntime(RuntimeWithoutRevision)));
    ReviewCommits(cfg, e, t, rec, now);
  }

  lemma {:induction false} ReviewsWithoutRevision(e: Cell, t: Tid, rec: Rec, y: Cycle)
    requires Probable(e, rec, y)
    ensures var job, h := ScanJob(rec), e.Host().value;
            Step(Inside(e, t, job, ReadRuntime(ProcessSnap(rec), h.flag, h.body, h.name)), Act(t, y.ended, GetRuntime(RuntimeWithoutRevision)))
            == Inside(e, t, job, Reviewing(PostEnableGuardUnavailable))
  {
    var h := e.Host().value;
    var at := Inside(e, t, ScanJob(rec), ReadRuntime(ProcessSnap(rec), h.flag, h.body, h.name));
    assert at.Host() == e.Host();
    InsideGoto(e, t, ScanJob(rec), at.threads[t].pc, Reviewing(PostEnableGuardUnavailable));
  }

  /** Two versions of one attempt wait outside the lock: one still waiting for its probe, one
      already under review. */
  function TwoParked(e: Cell, rec: Rec, now: Time): Cell {
    var p := Parked(e, A, rec, now);
    p.(record := Some(Manual(rec)), threads := p.threads[B := Thread(ScanJob(rec), ErrSave(Backed(e.cfg, Manual(rec), now, HostError)))])
  }

  lemma {:induction false} LateRead(d: Cell, rec: Rec, now: Time)
    requires B in d.threads && d.threads[B] == Thread(ScanJob(rec), ErrLoad) && d.record == Some(Manual(rec))
    ensures Step(d, Act(B, now, Load))
         == d.(threads := d.threads[B := Thread(ScanJob(rec), ErrSave(Backed(d.cfg, Manual(rec), now, HostError)))])
  {
  }

  lemma {:induction false} ReachTwoParked(cfg: Cfg, e: Cell, rec: Rec, y: Cycle)
    requires Reached(cfg, e) && Probable(e, rec, y) && e.threads == map[]
    ensures Reached(cfg, TwoParked(e, rec, y.ended))
  {
    var now := y.ended;
    var p := Parked(e, A, rec, now);
    var stuck := p.(threads := p.threads[B := Thread(ScanJob(rec), ErrLoad)]);
    ReachParked(cfg, e, A, rec, now);
    ReachStumbling(cfg, p, B, rec, now);
    assert stuck.Host() == e.Host();
    ReachReview(cfg, stuck, T, rec, y);
    var d := stuck.(record := Some(Manual(rec)));
    LateRead(d, rec, now);
    ReachOne(cfg, d, Act(B, now, Load));
    assert Step(d, Act(B, now, Load)).threads == TwoParked(e, rec, now).threads;
  }

  /** The older version comes back while the credential is enabled; the younger one stays parked. */
  function Reverted(e: Cell, rec: Rec, now: Time): Cell {
    e.(record := Some(Backed(e.cfg, rec, now, HostError)),
       threads := map[B := Thread(ScanJob(rec), ErrSave(Backed(e.cfg, Manual(rec), now, HostError)))])
  }

  lemma {:induction false} ReachReverted(cfg: Cfg, e: Cell, rec: Rec, y: Cycle)
    requires Reached(cfg, e) && Probable(e, rec, y) && e.threads == map[]
    requires e.log != [] && e.log[|e.log| - 1].kind.PluginEnable?
    ensures Reached(cfg, Reverted(e, rec, y.ended))
  {
    var c := TwoParked(e, rec, y.ended);
    ReachTwoParked(cfg, e, rec, y);
    assert !Seen(c).disabled;
    ReachCommit(cfg, c, A, y.ended);
    LateWrite(c, A, y.ended);
    assert c.threads - {A} == Reverted(e, rec, y.ended).threads;
  }

  /** A scan of a settled credential is about to announce its enable. */
  lemma {:induction false} ReachAnnouncement(cfg: Cfg, r: Cell, rec: Rec, now: Time)
    requires Reached(cfg, r) && T !in r.threads && r.token
    requires r.record == Some(rec) && r.Host().Some? && rec.phase == OwnedDisabled && rec.wasEnabled && Due(rec, now)
    requires Matches(rec, r.Host()) && r.Host().value.flag == Bool(true)
    ensures Reached(cfg, Inside(r, T, ScanJob(rec), WriteAhead(rec)))
  {
    var job, h := ScanJob(rec), r.Host().value;
    EntersRun(r, T, rec, now);
    ReachPlain(cfg, r, Enters(T, rec, now));
    Reads(r, T, job, ProcessSnap(rec), now);
    InsideGoto(r, T, job, ReadRuntime(ProcessSnap(rec), h.flag, h.body, h.name), WriteAhead(rec));
    ReachPlain(cfg, Inside(r, T, job, ReadJSON(ProcessSnap(rec))), ReadOk(T, now));
  }

  /** The younger version comes in between. */
  function Swapped(r: Cell, rec: Rec, manual: Rec): Cell {
    r.(record := Some(manual), token := false, threads := map[T := Thread(ScanJob(rec), WriteAhead(rec))])
  }

  lemma {:induction false} ReachSwapped(cfg: Cfg, r: Cell, rec: Rec, manual: Rec, now: Time)
    requires Reached(cfg, r) && r.threads.Keys == {B} && r.threads[B].pc == ErrSave(manual) && r.token
    requires r.record == Some(rec) && r.Host().Some? && rec.phase == OwnedDisabled && rec.wasEnabled && Due(rec, now)
    requires Matches(rec, r.Host()) && r.Host().value.flag == Bool(true)
    requires manual.attempt == rec.attempt && manual.phase == ManualReview
    ensures Reached(cfg, Swapped(r, rec, manual))
  {
    var w := Inside(r, T, ScanJob(rec), WriteAhead(rec));
    ReachAnnouncement(cfg, r, rec, now);
    ReachCommit(cfg, w, B, now);
    LateWrite(w, B, now);
    assert w.threads - {B} == Swapped(r, rec, manual).threads;
  }

  /** The announcement is committed on top of the other version. */
  lemma {:induction false} AnnouncementIsOff(cfg: Cfg, e: Cell, rec: Rec, y: Cycle)
    requires Reached(cfg, e) && Probable(e, rec, y) && e.threads == map[]
    requires e.log != [] && e.log[|e.log| - 1].kind.PluginEnable? && rec.saveRev != Some(y.redisableRev)
    ensures exists c :: Witness(cfg, c, Act(T, 0, Commit(true))) && T in c.threads && c.threads[T].pc.WriteAhead?
  {
    var manual := Backed(e.cfg, Manual(rec), y.ended, HostError);
    var back := Backed(e.cfg, rec, y.ended, HostError);
    var e2 := Reverted(e, rec, y.ended);
    var y2 := y.(ended := back.nextCheck.value);
    ReachReverted(cfg, e, rec, y);
    RevertedIs(e, rec, y);
    ReachConclusion(cfg, e2, T, back, y2);
    RedisabledShape(e2, y2, back);
    var r := Redisabled(e2, y2, back);
    SwapIsOff(cfg, r, r.record.value, manual);
  }

  lemma RevertedIs(e: Cell, rec: Rec, y: Cycle)
    requires Probable(e, rec, y)
    ensures var e2, back := Reverted(e, rec, y.ended), Backed(e.cfg, rec, y.ended, HostError);
            e2.Host() == e.Host() && Probable(e2, back, y.(ended := back.nextCheck.value)) && T !in e2.threads
  {
  }

  lemma RedisabledShape(e: Cell, y: Cycle, rec: Rec)
    requires e.Host().Some? && IdOk(rec, e.Host().value) && rec.wasEnabled
    ensures var r := Redisabled(e, y, rec);
            && r.Host() == Some(NewCred(e.Host().value, true, y.redisableRev)) && r.threads == e.threads && r.token == e.token
            && Seen(r).disabled && r.record.Some?
            && var v := r.record.value;
               Matches(v, r.Host()) && v.phase == OwnedDisabled && v.wasEnabled && v.nextCheck.Some? && v.attempt == rec.attempt
  {
  }

  lemma {:induction false} SwapIsOff(cfg: Cfg, r: Cell, rec: Rec, manual: Rec)
    requires Reached(cfg, r) && r.threads.Keys == {B} && r.threads[B].pc == ErrSave(manual) && r.token
    requires r.record == Some(rec) && r.Host().Some? && rec.phase == OwnedDisabled && rec.wasEnabled && rec.nextCheck.Some?
    requires Matches(rec, r.Host()) && r.Host().value.flag == Bool(true) && Seen(r).disabled
    requires manual.attempt == rec.attempt && manual.phase == ManualReview && manual.saveRev != Some(r.Host().value.rev)
    ensures exists c :: Witness(cfg, c, Act(T, 0, Commit(true))) && T in c.threads && c.threads[T].pc.WriteAhead?
  {
    ReachSwapped(cfg, r, rec, manual, rec.nextCheck.value);
    var c := Swapped(r, rec, manual);
    assert c.Host() == r.Host() && c.log == r.log;
    LosesAtOnce(cfg, c, Act(T, 0, Commit(true)));
  }

  lemma {:induction false} SwappedAnnouncement(cfg: Cfg)
    ensures exists c :: Witness(cfg, c, Act(T, 0, Commit(true))) && T in c.threads && c.threads[T].pc.WriteAhead?
  {
    AtWaiting(cfg);
    WaitingProbable(cfg);
    WaitingEnabled(cfg);
    AnnouncementIsOff(cfg, Waiting(Home(cfg), First(cfg)), Bound(Home(cfg), First(cfg)), First(cfg));
  }

  lemma {:induction false} WaitingEnabled(cfg: Cfg)
    ensures var e := Waiting(Home(cfg), First(cfg));
            e.log != [] && e.log[|e.log| - 1].kind.PluginEnable? && Bound(Home(cfg), First(cfg)).saveRev == Some(1)
  {
  }

  /** No entry of the list is idle. */
  lemma EveryEntryOccurs(cfg: Cfg)
    ensures exists c :: Witness(cfg, c, Crash)
    ensures exists c :: Witness(cfg, c, Act(T, 0, Save(true, 1, Failed)))
    ensures exists c :: Witness(cfg, c, Act(T, 0, Get(Failed)))
    ensures exists c :: Witness(cfg, c, Act(T, 0, GetRuntime(RuntimeWithoutRevision)))
    ensures exists c :: Witness(cfg, c, Act(T, 0, Commit(false))) && T in c.threads && c.threads[T].pc.QuotaRecord?
    ensures exists c :: Witness(cfg, c, Act(T, 0, Commit(true))) && T in c.threads && c.threads[T].pc.QuotaRecord?
    ensures exists c :: Witness(cfg, c, Act(T, 0, Commit(false))) && T in c.threads && c.threads[T].pc.FinishDisabled?
    ensures exists c :: Witness(cfg, c, Act(T, 0, Commit(false))) && T in c.threads && c.threads[T].pc.Reviewing?
    ensures exists c :: Witness(cfg, c, Act(A, 0, Commit(true))) && A in c.threads && c.threads[A].pc.ErrSave?
    ensures exists c :: Witness(cfg, c, Act(T, 0, Commit(true))) && T in c.threads && c.threads[T].pc.WriteAhead?
  {
    CrashAfterSave(cfg);
    FailedSave(cfg);
    FailedReget(cfg);
    NoRevisionAfterSave(cfg);
    FailedRecord(cfg);
    ForeignRecord(cfg);
    FailedFinish(cfg);
    FailedReview(cfg);
    StaleUpdate(cfg);
    SwappedAnnouncement(cfg);
  }
}
