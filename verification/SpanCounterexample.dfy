/** The assumption that nobody else writes inside a transaction cannot be dropped: a user
    edit that lands between the get and the save of the enable is overwritten by it. */
module SpanCounterexample {
  import opened Basics
  import opened Protocol
  import opened OwnershipInvariant
  import opened RecoveryCycles

  const T: Tid := 0
  const ORIGINAL := Cred(Absent, 7, "user-1", "auth.json", 0)
  const EDITED := Cred(Bool(true), 8, "user-1", "auth.json", 2)
  const QUOTA := QuotaJob("", "user-1", None, Given("codex_usage_limit_reached"))

  /** The credential appears and a quota event disables it. */
  function Setup(): seq<Event> {
    [Outside(Some(ORIGINAL))] + QuotaEvents(T, QUOTA, 0, 1)
  }

  function Owned(cfg: Cfg): Cell {
    Run(Fresh(cfg), Setup())
  }

  /** The due scan up to the point where the guard of the enable has passed. */
  function Opening(c: Cell, now: Time): seq<Event>
    requires c.record.Some?
  {
    Checks(T, ScanJob(c.record.value), now) + Announces(T, now) + ReadOk(T, now)
  }

  /** A user edit arrives, then the save goes out. */
  function Collision(now: Time): seq<Event> {
    [Outside(Some(EDITED)), Act(T, now, Save(true, 3, Done))]
  }

  lemma {:induction false} OwnedIsSettled(cfg: Cfg)
    ensures Settled(Owned(cfg)) && Owned(cfg).Host() == Some(NewCred(ORIGINAL, true, 1))
    ensures Owned(cfg).origin.Keys == {0, 1}
  {
    var c := Step(Fresh(cfg), Outside(Some(ORIGINAL)));
    assert c.Host() == Some(ORIGINAL);
    QuotaDisables(c, T, QUOTA, 0, 1);
    One(Fresh(cfg), Outside(Some(ORIGINAL)));
    RunConcat(Fresh(cfg), [Outside(Some(ORIGINAL))], QuotaEvents(T, QUOTA, 0, 1));
  }

  lemma {:induction false} OpeningRuns(c: Cell, now: Time)
    requires Settled(c) && Due(c.record.value, now)
    ensures var c1 := c.(record := Some(PendingRec(c)), nextAttempt := c.nextAttempt + 1);
            Run(c, Opening(c, now))
            == Inside(c1, T, ScanJob(c.record.value), Saving(EnableMut(c.record.value, PendingRec(c)), SnapOf(c.Host().value)))
  {
    var job := ScanJob(c.record.value);
    var c1 := c.(record := Some(PendingRec(c)), nextAttempt := c.nextAttempt + 1);
    ChecksRun(c, T, now);
    AnnouncesEnable(c, T, job, now);
    assert c1.Host() == c.Host();
    GuardPasses(c1, T, job, EnableMut(c.record.value, PendingRec(c)), now);
    RunConcat(c, Checks(T, job, now), Announces(T, now));
    RunConcat(c, Checks(T, job, now) + Announces(T, now), ReadOk(T, now));
  }

  /** The whole run uses a new revision for every write. */
  lemma {:induction false} SetupFresh(cfg: Cfg)
    ensures FreshRun(Fresh(cfg), Setup())
  {
    var c := Step(Fresh(cfg), Outside(Some(ORIGINAL)));
    var h := ORIGINAL;
    var first := [Begin(T, QUOTA, 0), Act(T, 0, Lock)] + (ReadOk(T, 0) + [Act(T, 0, Load)]);
    var d := Inside(c, T, QUOTA, ReadJSON(Before(DisableMut(h.body, h.rev))));
    var m := DisableMut(h.body, h.rev);
    var save := Act(T, 0, Save(true, 1, Done));
    assert c.Host() == Some(h);
    QuotaChecks(c, T, QUOTA, 0);
    GuardPasses(c, T, QUOTA, m, 0);
    var e := Inside(c, T, QUOTA, Saving(m, SnapOf(h)));
    One(Fresh(cfg), Outside(Some(ORIGINAL)));
    assert FreshRun(Fresh(cfg), [Outside(Some(ORIGINAL))]);
    assert FreshRun(e, [save]) by {
      assert e.origin.Keys == {0};
      assert [save][1..] == [];
    }
    WritelessFresh(c, first);
    WritelessFresh(d, ReadOk(T, 0));
    WritelessFresh(Run(e, [save]), ReadOk(T, 0));
    FreshConcat(d, ReadOk(T, 0), [save]);
    RunConcat(d, ReadOk(T, 0), [save]);
    FreshConcat(d, ReadOk(T, 0) + [save], ReadOk(T, 0));
    FreshConcat(c, first, MutationEvents(T, 0, 1));
    WritelessFresh(Run(c, first + MutationEvents(T, 0, 1)), Finishes(T, 0));
    FreshConcat(c, first + MutationEvents(T, 0, 1), Finishes(T, 0));
    FreshConcat(Fresh(cfg), [Outside(Some(ORIGINAL))], QuotaEvents(T, QUOTA, 0, 1));
  }

  lemma {:induction false} CollisionBreaks(c: Cell, job: Job, m: Mutation, now: Time)
    requires m.EnableMut? && c.Host().Some?
    requires c.origin.Keys == {0, 1}
    ensures var at := Inside(c, T, job, Saving(m, SnapOf(c.Host().value)));
            FreshRun(at, Collision(now)) && !LogOk(Run(at, Collision(now)).log)
  {
    var at := Inside(c, T, job, Saving(m, SnapOf(c.Host().value)));
    var edit, save := Outside(Some(EDITED)), Act(T, now, Save(true, 3, Done));
    var hit := Step(at, edit);
    var d := Step(hit, save);
    Two(at, edit, save);
    assert hit.origin.Keys == {0, 1, 2};
    assert Collision(now)[1..] == [save] && [save][1..] == [];
    assert d.log[|d.log| - 2].kind.External? && d.log[|d.log| - 1].kind.PluginEnable?;
    assert !EntryOk(d.log, |d.log| - 1);
  }

  lemma {:induction false} OpeningBreaks(c: Cell, now: Time)
    requires Settled(c) && Due(c.record.value, now) && c.origin.Keys == {0, 1}
    ensures FreshRun(c, Opening(c, now) + Collision(now)) && !LogOk(Run(c, Opening(c, now) + Collision(now)).log)
  {
    var c1 := c.(record := Some(PendingRec(c)), nextAttempt := c.nextAttempt + 1);
    var m := EnableMut(c.record.value, PendingRec(c));
    OpeningRuns(c, now);
    WritelessFresh(c, Opening(c, now));
    assert c1.Host() == c.Host();
    CollisionBreaks(c1, ScanJob(c.record.value), m, now);
    FreshConcat(c, Opening(c, now), Collision(now));
    RunConcat(c, Opening(c, now), Collision(now));
  }

  /** A concrete run with fresh revisions throughout whose write log is not safe: the only
      assumption it breaks is that no outside write lands inside the transaction. */
  lemma {:induction false} OutsideWriteInSpanBreaks(cfg: Cfg)
    ensures exists es :: FreshRun(Fresh(cfg), es) && !LogOk(Run(Fresh(cfg), es).log)
  {
    var c := Owned(cfg);
    OwnedIsSettled(cfg);
    SetupFresh(cfg);
    var now := if c.record.value.nextCheck.Some? then c.record.value.nextCheck.value else 0;
    var rest := Opening(c, now) + Collision(now);
    OpeningBreaks(c, now);
    FreshConcat(Fresh(cfg), Setup(), rest);
    RunConcat(Fresh(cfg), Setup(), rest);
    assert FreshRun(Fresh(cfg), Setup() + rest);
  }
}
