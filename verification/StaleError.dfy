/** The bookkeeping of errors outside the lock: fenced by the attempt identifier, and by
    nothing finer. Between two attempts it never overwrites the newer one; within one attempt
    it can undo a phase change, and then the plugin forgets a credential it disabled. */
module StaleError {
  import opened Basics
  import opened Protocol
  import opened ProtocolLimits
  import opened RecoveryCycles

  // ------------------------------------------------- fenced per attempt

  /** A goroutine about to record an error holds a record of the attempt it was started for. */
  ghost predicate FencedThread(c: Cell, t: Tid) {
    t in c.threads && c.threads[t].pc.ErrSave? ==>
      c.threads[t].job.ScanJob? && c.threads[t].pc.rec.attempt == c.threads[t].job.outer.attempt
  }

  ghost predicate Fenced(c: Cell) {
    forall t :: FencedThread(c, t)
  }

  /** No action but the re-read outside the lock brings a goroutine to recording an error. */
  lemma LoadFences(c: Cell, t: Tid, now: Time)
    requires t in c.threads && FencedThread(c, t)
    ensures FencedThread(LoadStep(c, t, now), t)
  {
  }

  lemma SnapFences(c: Cell, t: Tid, k: Cont, s: Snap, now: Time)
    requires t in c.threads && c.threads[t].pc.ReadRuntime?
    ensures FencedThread(SnapReady(c, t, k, s, now), t)
  {
  }

  lemma SnapFailedFences(c: Cell, t: Tid, k: Cont, canceled: bool, now: Time)
    requires t in c.threads && !c.threads[t].pc.ErrSave?
    ensures FencedThread(SnapFailed(c, t, k, canceled, now), t)
  {
  }

  lemma ActFences(c: Cell, t: Tid, now: Time, op: Op)
    requires t in c.threads && FencedThread(c, t)
    ensures FencedThread(ActStep(c, t, now, op), t)
  {
    var pc := c.threads[t].pc;
    match op
    case Load => LoadFences(c, t, now);
    case Get(res) => if pc.ReadJSON? { SnapFailedFences(c, t, pc.k, res == Canceled, now); }
    case GetRuntime(answer) =>
      if pc.ReadRuntime? {
        SnapFailedFences(c, t, pc.k, false, now);
        SnapFences(c, t, pc.k, Snap(pc.flag, pc.body, pc.name, None), now);
        if c.Host().Some? {
          var h := c.Host().value;
          SnapFences(c, t, pc.k, Snap(pc.flag, pc.body, pc.name, Some(Runtime(h.id, if answer == RuntimeOk then Some(h.rev) else None))), now);
        }
      }
    case _ =>
  }

  lemma StepFences(c: Cell, e: Event)
    requires Fenced(c)
    ensures Fenced(Step(c, e))
  {
    var d := Step(c, e);
    forall u
      ensures FencedThread(d, u)
    {
      assert FencedThread(c, u);
      if e.Act? && e.t in c.threads {
        if u == e.t {
          ActFences(c, u, e.now, e.op);
        } else if !e.op.Lock? {
          ActShape(c, e.t, e.now, e.op);
        }
      }
    }
  }

  lemma {:induction false} RunFences(c: Cell, es: seq<Event>)
    requires Fenced(c)
    ensures Fenced(Run(c, es))
    decreases es
  {
    if es != [] {
      StepFences(c, es[0]);
      RunFences(Step(c, es[0]), es[1..]);
    }
  }

  /** After any run, recording an error touches only a record of the very attempt the failed
      scan was started for: never a newer one, and it neither creates nor removes a record. */
  lemma ErrorRecordIsFenced(cfg: Cfg, es: seq<Event>, t: Tid, now: Time, ok: bool)
    requires var c := Run(Fresh(cfg), es); t in c.threads && c.threads[t].pc.ErrSave?
    ensures var c := Run(Fresh(cfg), es);
            var d := Step(c, Act(t, now, Commit(ok)));
            && c.threads[t].job.ScanJob?
            && (d.record != c.record ==> ok && c.record.Some? && d.record.Some?
                                         && c.record.value.attempt == d.record.value.attempt == c.threads[t].job.outer.attempt)
  {
    RunFences(Fresh(cfg), es);
    assert FencedThread(Run(Fresh(cfg), es), t);
  }

  // ------------------------------------------------- not fenced within an attempt

  function Enters(t: Tid, rec: Rec, now: Time): seq<Event> {
    [Begin(t, ScanJob(rec), now), Act(t, now, Lock)] + [Act(t, now, Load)]
  }

  lemma {:induction false} EntersRun(c: Cell, t: Tid, rec: Rec, now: Time)
    requires c.record == Some(rec) && c.token && t !in c.threads
    requires Due(rec, now) && rec.wasEnabled && rec.phase != ManualReview
    ensures Run(c, Enters(t, rec, now)) == Inside(c, t, ScanJob(rec), ReadJSON(ProcessSnap(rec)))
  {
    var job := ScanJob(rec);
    var waiting := c.(threads := c.threads[t := Thread(job, WantLock)]);
    Two(c, Begin(t, job, now), Act(t, now, Lock));
    assert Step(c, Begin(t, job, now)) == waiting;
    assert waiting.threads[t := Thread(job, Loading)] == Inside(c, t, job, Loading).threads;
    One(Inside(c, t, job, Loading), Act(t, now, Load));
    InsideGoto(c, t, job, Loading, ReadJSON(ProcessSnap(rec)));
    RunConcat(c, [Begin(t, job, now), Act(t, now, Lock)], [Act(t, now, Load)]);
  }

  /** A Host read fails; the goroutine leaves the lock and re-reads the record. */
  function Stumbles(t: Tid, now: Time): seq<Event> {
    [Act(t, now, Get(Failed)), Act(t, now, Unlock)]
  }

  lemma {:induction false} StumblesRun(c: Cell, t: Tid, job: Job, k: Cont, now: Time)
    requires c.token && job.ScanJob? && !k.Before? && !k.After?
    ensures Run(Inside(c, t, job, ReadJSON(k)), Stumbles(t, now)) == c.(threads := c.threads[t := Thread(job, ErrLoad)])
  {
    var c0 := Inside(c, t, job, ReadJSON(k));
    Two(c0, Act(t, now, Get(Failed)), Act(t, now, Unlock));
    InsideGoto(c, t, job, ReadJSON(k), Leaving(Failed));
    assert Inside(c, t, job, Leaving(Failed)).threads[t := Thread(job, ErrLoad)] == c.threads[t := Thread(job, ErrLoad)];
  }

  /** The first scan: enable, bind, probe, and then the Host cannot be read. */
  function Interrupted(t: Tid, job: Job, y: Cycle): seq<Event> {
    (Checks(t, job, y.began) + Announces(t, y.began) + MutationEvents(t, y.began, y.enableRev)) + Announces(t, y.began)
    + [Act(t, y.began, Probe(true, false, y.why))] + (Stumbles(t, y.began) + [Act(t, y.began, Load)])
  }

  function Bound(c: Cell, y: Cycle): Rec
    requires c.record.Some? && c.Host().Some?
  {
    BoundRec(PendingRec(c), SnapOf(NewCred(c.Host().value, false, y.enableRev)))
  }

  /** The credential enabled, its attempt waiting for a probe, nobody at work. */
  function Waiting(c: Cell, y: Cycle): Cell
    requires c.record.Some? && c.Host().Some?
  {
    Enabled(c, y).(record := Some(Bound(c, y)))
  }

  ghost predicate Situation(c: Cell, y: Cycle) {
    Settled(c) && Due(c.record.value, y.began) && NewRevs(c, y) && c.record.value.attempt != c.nextAttempt && y.began <= y.ended
  }

  lemma {:induction false} GivesUpRun(e: Cell, t: Tid, outer: Rec, rec: Rec, y: Cycle)
    requires e.record == Some(rec) && outer.attempt != rec.attempt && t !in e.threads && e.token
    ensures Run(Inside(e, t, ScanJob(outer), ReadJSON(FailSnap(rec, y.why))), Stumbles(t, y.began) + [Act(t, y.began, Load)]) == e
  {
    var job := ScanJob(outer);
    var stuck := e.(threads := e.threads[t := Thread(job, ErrLoad)]);
    StumblesRun(e, t, job, FailSnap(rec, y.why), y.began);
    One(stuck, Act(t, y.began, Load));
    assert stuck.threads - {t} == e.threads;
    RunConcat(Inside(e, t, job, ReadJSON(FailSnap(rec, y.why))), Stumbles(t, y.began), [Act(t, y.began, Load)]);
  }

  lemma {:induction false} InterruptedTail(c: Cell, t: Tid, y: Cycle)
    requires Situation(c, y)
    ensures var e := Waiting(c, y);
            var s := SnapOf(NewCred(c.Host().value, false, y.enableRev));
            Run(Inside(e, t, ScanJob(c.record.value), Probing(Bound(c, y), s)),
                [Act(t, y.began, Probe(true, false, y.why))] + (Stumbles(t, y.began) + [Act(t, y.began, Load)])) == e
  {
    var e, job := Waiting(c, y), ScanJob(c.record.value);
    var s := SnapOf(NewCred(c.Host().value, false, y.enableRev));
    var c0 := Inside(e, t, job, Probing(Bound(c, y), s));
    One(c0, Act(t, y.began, Probe(true, false, y.why)));
    InsideGoto(e, t, job, Probing(Bound(c, y), s), ReadJSON(FailSnap(Bound(c, y), y.why)));
    GivesUpRun(e, t, c.record.value, Bound(c, y), y);
    RunConcat(c0, [Act(t, y.began, Probe(true, false, y.why))], Stumbles(t, y.began) + [Act(t, y.began, Load)]);
  }

  lemma {:induction false} InterruptedRun(c: Cell, t: Tid, y: Cycle)
    requires Situation(c, y)
    ensures Run(c, Interrupted(t, ScanJob(c.record.value), y)) == Waiting(c, y)
  {
    var job := ScanJob(c.record.value);
    var s := SnapOf(NewCred(c.Host().value, false, y.enableRev));
    var opening := Checks(t, job, y.began) + Announces(t, y.began) + MutationEvents(t, y.began, y.enableRev);
    var tail := [Act(t, y.began, Probe(true, false, y.why))] + (Stumbles(t, y.began) + [Act(t, y.began, Load)]);
    EnableHalf(c, t, y);
    AnnouncesProbe(Enabled(c, y), t, job, s, y.began);
    InterruptedTail(c, t, y);
    RunConcat(c, opening, Announces(t, y.began));
    RunConcat(c, opening + Announces(t, y.began), tail);
    assert Interrupted(t, job, y) == opening + Announces(t, y.began) + tail;
  }

  /** A second scan fails to read the Host, too, and is about to say so in the record. */
  function Parks(a: Tid, rec: Rec, now: Time): seq<Event> {
    Enters(a, rec, now) + (Stumbles(a, now) + [Act(a, now, Load)])
  }

  function Parked(e: Cell, a: Tid, rec: Rec, now: Time): Cell {
    e.(threads := e.threads[a := Thread(ScanJob(rec), ErrSave(Backed(e.cfg, rec, now, HostError)))])
  }

  lemma {:induction false} ParksRun(e: Cell, a: Tid, rec: Rec, now: Time)
    requires e.record == Some(rec) && e.token && a !in e.threads
    requires Due(rec, now) && rec.wasEnabled && rec.phase != ManualReview
    ensures Run(e, Parks(a, rec, now)) == Parked(e, a, rec, now)
  {
    var stuck := e.(threads := e.threads[a := Thread(ScanJob(rec), ErrLoad)]);
    EntersRun(e, a, rec, now);
    StumblesRun(e, a, ScanJob(rec), ProcessSnap(rec), now);
    One(stuck, Act(a, now, Load));
    assert stuck.threads[a := Thread(ScanJob(rec), ErrSave(Backed(e.cfg, rec, now, HostError)))] == Parked(e, a, rec, now).threads;
    RunConcat(Inside(e, a, ScanJob(rec), ReadJSON(ProcessSnap(rec))), Stumbles(a, now), [Act(a, now, Load)]);
    RunConcat(e, Enters(a, rec, now), Stumbles(a, now) + [Act(a, now, Load)]);
  }

  /** A third scan takes the attempt to its end: probe, failure, guarded re-disable. */
  function Concludes(t: Tid, rec: Rec, y: Cycle): seq<Event> {
    (Enters(t, rec, y.ended) + ReadOk(t, y.ended)) + ([Act(t, y.ended, Probe(true, false, y.why))] + ReadOk(t, y.ended))
    + (MutationEvents(t, y.ended, y.redisableRev) + Finishes(t, y.ended))
  }

  /** Up to the guard of the re-disable. */
  lemma {:induction false} ConcludesOpening(e: Cell, t: Tid, rec: Rec, y: Cycle)
    requires e.record == Some(rec) && e.token && t !in e.threads && e.Host().Some?
    requires Due(rec, y.ended) && rec.wasEnabled && rec.phase == ProbePending
    requires rec.fileName == "" || rec.fileName == e.Host().value.name
    requires GuardMatchesPostEnable(SnapOf(e.Host().value), rec)
    ensures Run(e, (Enters(t, rec, y.ended) + ReadOk(t, y.ended)) + ([Act(t, y.ended, Probe(true, false, y.why))] + ReadOk(t, y.ended)))
         == Inside(e, t, ScanJob(rec), ReadJSON(Before(RedisableMut(rec, y.why))))
  {
    var job, h := ScanJob(rec), e.Host().value;
    EntersRun(e, t, rec, y.ended);
    Reads(e, t, job, ProcessSnap(rec), y.ended);
    InsideGoto(e, t, job, ReadRuntime(ProcessSnap(rec), h.flag, h.body, h.name), Probing(rec, SnapOf(h)));
    RunConcat(e, Enters(t, rec, y.ended), ReadOk(t, y.ended));
    ProbeFails(e, t, job, rec, y.ended, y.why);
    RunConcat(e, Enters(t, rec, y.ended) + ReadOk(t, y.ended), [Act(t, y.ended, Probe(true, false, y.why))] + ReadOk(t, y.ended));
  }

  lemma {:induction false} ConcludesRun(e: Cell, t: Tid, rec: Rec, y: Cycle)
    requires e.record == Some(rec) && e.token && t !in e.threads && e.Host().Some?
    requires Due(rec, y.ended) && rec.wasEnabled && rec.phase == ProbePending
    requires rec.fileName == "" || rec.fileName == e.Host().value.name
    requires GuardMatchesPostEnable(SnapOf(e.Host().value), rec)
    requires e.Host().value.flag == Bool(false) && y.redisableRev != e.Host().value.rev
    ensures Run(e, Concludes(t, rec, y)) == Redisabled(e, y, rec)
    ensures y.redisableRev !in e.origin ==> FreshRun(e, Concludes(t, rec, y))
  {
    var opening := (Enters(t, rec, y.ended) + ReadOk(t, y.ended)) + ([Act(t, y.ended, Probe(true, false, y.why))] + ReadOk(t, y.ended));
    var closing := MutationEvents(t, y.ended, y.redisableRev) + Finishes(t, y.ended);
    var guard := Inside(e, t, ScanJob(rec), ReadJSON(Before(RedisableMut(rec, y.why))));
    ConcludesOpening(e, t, rec, y);
    RedisableRuns(e, t, ScanJob(rec), y, rec);
    RunConcat(e, opening, closing);
    if y.redisableRev !in e.origin {
      WritelessFresh(e, opening);
      MutationFresh(e, t, ScanJob(rec), RedisableMut(rec, y.why), y.ended, y.redisableRev);
      WritelessFresh(Run(guard, MutationEvents(t, y.ended, y.redisableRev)), Finishes(t, y.ended));
      FreshConcat(guard, MutationEvents(t, y.ended, y.redisableRev), Finishes(t, y.ended));
      FreshConcat(e, opening, closing);
    }
  }

  /** A scan that finds a record waiting for a probe on a disabled credential lets go of it. */
  function LetsGo(t: Tid, rec: Rec, now: Time): seq<Event> {
    (Enters(t, rec, now) + ReadOk(t, now)) + Finishes(t, now)
  }

  lemma {:induction false} LetsGoRun(e: Cell, t: Tid, rec: Rec, now: Time)
    requires e.record == Some(rec) && e.token && t !in e.threads && e.Host().Some?
    requires Due(rec, now) && rec.wasEnabled && rec.phase == ProbePending && e.Host().value.flag == Bool(true)
    requires (rec.authId == "" || rec.authId == e.Host().value.id) && (rec.fileName == "" || rec.fileName == e.Host().value.name)
    ensures Run(e, LetsGo(t, rec, now)) == e.(record := None)
  {
    DecidesToRetire(e, t, rec, now);
    RetiresRun(e, t, ScanJob(rec), now);
    RunConcat(e, Enters(t, rec, now) + ReadOk(t, now), Finishes(t, now));
  }

  lemma {:induction false} DecidesToRetire(e: Cell, t: Tid, rec: Rec, now: Time)
    requires e.record == Some(rec) && e.token && t !in e.threads && e.Host().Some?
    requires Due(rec, now) && rec.wasEnabled && rec.phase == ProbePending && e.Host().value.flag == Bool(true)
    requires (rec.authId == "" || rec.authId == e.Host().value.id) && (rec.fileName == "" || rec.fileName == e.Host().value.name)
    ensures Run(e, Enters(t, rec, now) + ReadOk(t, now)) == Inside(e, t, ScanJob(rec), Retiring)
  {
    var job, h := ScanJob(rec), e.Host().value;
    EntersRun(e, t, rec, now);
    Reads(e, t, job, ProcessSnap(rec), now);
    InsideGoto(e, t, job, ReadRuntime(ProcessSnap(rec), h.flag, h.body, h.name), Retiring);
    RunConcat(e, Enters(t, rec, now), ReadOk(t, now));
  }

  /** Disabled by the plugin itself, with no record that says so: no scan will enable it. */
  ghost predicate Forgotten(c: Cell) {
    && c.record.None? && c.threads == map[]
    && c.Host().Some? && c.Host().value.flag == Bool(true)
    && c.log != [] && c.log[|c.log| - 1].kind.PluginRedisable?
  }

  /** The attempt is bound and the credential enabled, nobody is at work. */
  ghost predicate Ready(e: Cell, rec: Rec, y: Cycle) {
    && e.record == Some(rec) && e.token && e.threads == map[] && e.Host().Some?
    && Due(rec, y.ended) && rec.wasEnabled && rec.phase == ProbePending
    && (rec.fileName == "" || rec.fileName == e.Host().value.name)
    && GuardMatchesPostEnable(SnapOf(e.Host().value), rec)
    && e.Host().value.flag == Bool(false) && y.redisableRev != e.Host().value.rev
  }

  /** The state after the stale version went in. */
  function Overwritten(e: Cell, a: Tid, rec: Rec, y: Cycle): Cell
    requires e.Host().Some?
  {
    Redisabled(e, y, rec).(record := Some(Backed(e.cfg, rec, y.ended, HostError)), threads := map[])
  }

  lemma {:induction false} StaleGoesIn(e: Cell, t: Tid, a: Tid, rec: Rec, y: Cycle)
    requires Ready(e, rec, y) && a != t
    ensures var p := Parked(e, a, rec, y.ended);
            && p.Host() == e.Host() && Run(p, Concludes(t, rec, y)) == Redisabled(p, y, rec)
            && (y.redisableRev !in e.origin ==> FreshRun(p, Concludes(t, rec, y)))
            && Run(Redisabled(p, y, rec), [Act(a, y.ended, Commit(true))]) == Overwritten(e, a, rec, y)
  {
    var p := Parked(e, a, rec, y.ended);
    var r := Redisabled(p, y, rec);
    assert p.Host() == e.Host();
    ConcludesRun(p, t, rec, y);
    LateCommit(e, a, rec, y);
  }

  lemma {:induction false} LateWrite(d: Cell, t: Tid, now: Time)
    requires t in d.threads && d.threads[t].pc.ErrSave? && d.record.Some? && d.record.value.attempt == d.threads[t].pc.rec.attempt
    ensures Step(d, Act(t, now, Commit(true))) == d.(record := Some(d.threads[t].pc.rec), threads := d.threads - {t})
  {
  }

  lemma {:induction false} LateCommit(e: Cell, a: Tid, rec: Rec, y: Cycle)
    requires Ready(e, rec, y)
    ensures var p := Parked(e, a, rec, y.ended);
            p.Host() == e.Host() && Run(Redisabled(p, y, rec), [Act(a, y.ended, Commit(true))]) == Overwritten(e, a, rec, y)
  {
    var r := Redisabled(Parked(e, a, rec, y.ended), y, rec);
    One(r, Act(a, y.ended, Commit(true)));
    LateWrite(r, a, y.ended);
    assert r.threads - {a} == map[];
  }

  lemma {:induction false} LetsGoForgets(e: Cell, t: Tid, a: Tid, rec: Rec, y: Cycle, later: Time)
    requires Ready(e, rec, y) && later >= y.ended + Delay(e.cfg, NextLevel(rec.level))
    ensures Forgotten(Run(Overwritten(e, a, rec, y), LetsGo(t, Backed(e.cfg, rec, y.ended, HostError), later)))
  {
    var f := Overwritten(e, a, rec, y);
    assert f.Host() == Some(NewCred(e.Host().value, true, y.redisableRev));
    LetsGoRun(f, t, Backed(e.cfg, rec, y.ended, HostError), later);
  }

  lemma WritelessPieces(t: Tid, a: Tid, rec: Rec, stale: Rec, now: Time, later: Time)
    ensures Writeless(Parks(a, rec, now)) && Writeless([Act(a, now, Commit(true))]) && Writeless(LetsGo(t, stale, later))
  {
  }

  /** The stale error record goes in after the third scan, and the fourth acts on it. */
  lemma {:induction false} StaleWins(e: Cell, t: Tid, a: Tid, rec: Rec, y: Cycle, later: Time)
    requires Ready(e, rec, y) && a != t && later >= y.ended + Delay(e.cfg, NextLevel(rec.level))
    ensures var stale := Backed(e.cfg, rec, y.ended, HostError);
            var es := Parks(a, rec, y.ended) + Concludes(t, rec, y) + [Act(a, y.ended, Commit(true))] + LetsGo(t, stale, later);
            Forgotten(Run(e, es)) && (y.redisableRev !in e.origin ==> FreshRun(e, es))
  {
    var stale := Backed(e.cfg, rec, y.ended, HostError);
    var p := Parked(e, a, rec, y.ended);
    ParksRun(e, a, rec, y.ended);
    StaleGoesIn(e, t, a, rec, y);
    LetsGoForgets(e, t, a, rec, y, later);
    WritelessPieces(t, a, rec, stale, y.ended, later);
    Chain(e, p, Redisabled(p, y, rec), Overwritten(e, a, rec, y),
          Parks(a, rec, y.ended), Concludes(t, rec, y), [Act(a, y.ended, Commit(true))], LetsGo(t, stale, later));
  }

  /** Four segments, of which only the second writes. */
  lemma {:induction false} Chain(e: Cell, p: Cell, r: Cell, f: Cell, one: seq<Event>, two: seq<Event>, three: seq<Event>, four: seq<Event>)
    requires Run(e, one) == p && Run(p, two) == r && Run(r, three) == f
    requires Writeless(one) && Writeless(three) && Writeless(four)
    ensures Run(e, one + two + three + four) == Run(f, four)
    ensures FreshRun(p, two) ==> FreshRun(e, one + two + three + four)
  {
    RunConcat(e, one, two);
    RunConcat(e, one + two, three);
    RunConcat(e, one + two + three, four);
    WritelessFresh(e, one);
    WritelessFresh(r, three);
    WritelessFresh(f, four);
    if FreshRun(p, two) {
      FreshConcat(e, one, two);
      FreshConcat(e, one + two, three);
      FreshConcat(e, one + two + three, four);
    }
  }

  /** Nobody else writes, nothing crashes, and every commit succeeds. */
  predicate OrderlyEvent(e: Event) {
    !e.Outside? && !e.Crash? && !(e.Act? && e.op == Commit(false))
  }

  predicate Orderly(es: seq<Event>) {
    forall e :: e in es ==> OrderlyEvent(e)
  }

  lemma OrderlyPieces(t: Tid, job: Job, rec: Rec, y: Cycle, now: Time)
    ensures Orderly(Checks(t, job, now)) && Orderly(Announces(t, now)) && Orderly(Finishes(t, now)) && Orderly(ReadOk(t, now))
    ensures Orderly(MutationEvents(t, now, y.enableRev)) && Orderly(MutationEvents(t, now, y.redisableRev))
    ensures Orderly(Enters(t, rec, now)) && Orderly(Stumbles(t, now)) && Orderly([Act(t, now, Load)])
    ensures Orderly([Act(t, now, Probe(true, false, y.why))]) && Orderly([Act(t, now, Commit(true))])
  {
  }

  lemma OrderlyStory(t: Tid, a: Tid, job: Job, rec: Rec, stale: Rec, y: Cycle, later: Time)
    ensures Orderly(Interrupted(t, job, y) + (Parks(a, rec, y.ended) + Concludes(t, rec, y) + [Act(a, y.ended, Commit(true))] + LetsGo(t, stale, later)))
  {
    OrderlyPieces(t, job, rec, y, y.began);
    OrderlyPieces(t, job, rec, y, y.ended);
    OrderlyPieces(a, job, rec, y, y.ended);
    OrderlyPieces(t, job, stale, y, later);
    assert Orderly(Interrupted(t, job, y));
    assert Orderly(Parks(a, rec, y.ended));
    assert Orderly(Concludes(t, rec, y));
    assert Orderly(LetsGo(t, stale, later));
  }

  lemma {:induction false} OrderlyIsClean(c: Cell, es: seq<Event>)
    requires Orderly(es)
    ensures CleanRun(c, es)
    decreases es
  {
    if es != [] {
      assert es[0] in es;
      OrderlyIsClean(Step(c, es[0]), es[1..]);
    }
  }

  lemma {:induction false} InterruptedFresh(c: Cell, t: Tid, y: Cycle)
    requires Situation(c, y) && y.enableRev !in c.origin
    ensures FreshRun(c, Interrupted(t, ScanJob(c.record.value), y))
  {
    var job, m := ScanJob(c.record.value), EnableMut(c.record.value, PendingRec(c));
    var c1 := c.(record := Some(PendingRec(c)), nextAttempt := c.nextAttempt + 1);
    var opening := Checks(t, job, y.began) + Announces(t, y.began);
    var rest := Announces(t, y.began) + ([Act(t, y.began, Probe(true, false, y.why))] + (Stumbles(t, y.began) + [Act(t, y.began, Load)]));
    ChecksRun(c, t, y.began);
    AnnouncesEnable(c, t, job, y.began);
    RunConcat(c, Checks(t, job, y.began), Announces(t, y.began));
    WritelessFresh(c, opening);
    assert c1.Host() == c.Host() && c1.origin == c.origin;
    MutationFresh(c1, t, job, m, y.began, y.enableRev);
    FreshConcat(c, opening, MutationEvents(t, y.began, y.enableRev));
    WritelessFresh(Run(c, opening + MutationEvents(t, y.began, y.enableRev)), rest);
    FreshConcat(c, opening + MutationEvents(t, y.began, y.enableRev), rest);
    assert Interrupted(t, job, y) == opening + MutationEvents(t, y.began, y.enableRev) + rest;
  }

  /** From every settled state there is a clean and fresh run of four scans, two of which
      cannot read the Host at one point, that ends with the credential forgotten. */
  lemma {:induction false} ErrorRecordForgetsDisable(c: Cell, t: Tid, a: Tid, y: Cycle)
    requires Situation(c, y) && a != t && y.enableRev !in c.origin && y.redisableRev !in c.origin
    ensures exists es :: Orderly(es) && CleanRun(c, es) && FreshRun(c, es) && Forgotten(Run(c, es))
  {
    var e, rec := Waiting(c, y), Bound(c, y);
    var stale := Backed(e.cfg, rec, y.ended, HostError);
    var later := y.ended + Delay(e.cfg, NextLevel(rec.level));
    var rest := Parks(a, rec, y.ended) + Concludes(t, rec, y) + [Act(a, y.ended, Commit(true))] + LetsGo(t, stale, later);
    var es := Interrupted(t, ScanJob(c.record.value), y) + rest;
    InterruptedRun(c, t, y);
    InterruptedFresh(c, t, y);
    assert e.Host() == Some(NewCred(c.Host().value, false, y.enableRev));
    StaleWins(e, t, a, rec, y, later);
    RunConcat(c, Interrupted(t, ScanJob(c.record.value), y), rest);
    FreshConcat(c, Interrupted(t, ScanJob(c.record.value), y), rest);
    OrderlyStory(t, a, ScanJob(c.record.value), rec, stale, y, later);
    OrderlyIsClean(c, es);
  }
}
