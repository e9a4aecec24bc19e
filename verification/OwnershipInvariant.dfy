/** The inductive invariant of the protocol, and the two safety results it carries:
    the plugin only ever writes on top of its own untouched write, and an unconfirmed
    enable is always covered by a durable record. */
module OwnershipInvariant {
  import opened Basics
  import opened Protocol

  // ------------------------------------------------- the write log

  ghost function LastWrite(c: Cell): Write
    requires c.log != []
  {
    c.log[|c.log| - 1]
  }

  ghost predicate WriteShape(w: Write) {
    && (w.kind.Disables() ==> w.cred.Some? && w.cred.value.flag == Bool(true))
    && (w.kind.PluginEnable? ==> w.cred.Some? && w.cred.value.flag == Bool(false))
  }

  ghost predicate OnlyFlagChanged(w: Write) {
    w.onto.Some? && w.cred.Some? && w.cred.value == w.onto.value.(flag := w.cred.value.flag, rev := w.cred.value.rev)
  }

  /** What the safety property demands of entry `k`: a quota disable lands on an enabled
      credential, an enable lands directly on the plugin's own disabling write, a re-disable
      lands directly on the enable of the same attempt, and only `disabled` changes. */
  ghost predicate EntryOk(log: seq<Write>, k: nat)
    requires k < |log|
  {
    var w := log[k];
    && w.onto == (if k == 0 then None else log[k - 1].cred)
    && WriteShape(w)
    && (!w.kind.External? ==> OnlyFlagChanged(w))
    && (w.kind.PluginDisable? ==> w.onto.Some? && !w.onto.value.flag.Disabled())
    && (w.kind.PluginEnable? ==> k > 0 && log[k - 1].kind.Disables())
    && (w.kind.PluginRedisable? ==> k > 0 && log[k - 1].kind == PluginEnable(w.kind.attempt))
  }

  ghost predicate LogOk(log: seq<Write>) {
    forall k: nat :: k < |log| ==> EntryOk(log, k)
  }

  ghost predicate OriginOk(c: Cell) {
    && (forall r :: r in c.origin ==> c.origin[r].cred.Some? && c.origin[r].cred.value.rev == r && WriteShape(c.origin[r]))
    && (c.Host().Some? ==> c.Host().value.rev in c.origin && c.origin[c.Host().value.rev] == LastWrite(c))
  }

  // ------------------------------------------------- versions of the ownership record

  /** The last Host write is the plugin's enable and no guarded probe success confirmed it. */
  ghost predicate Unconfirmed(c: Cell) {
    c.log != [] && LastWrite(c).kind.PluginEnable? && LastWrite(c).kind.attempt !in c.confirmed
  }

  ghost function EnableAttempt(c: Cell): nat
    requires Unconfirmed(c)
  {
    LastWrite(c).kind.attempt
  }

  ghost predicate IdOk(v: Rec, h: Cred) {
    (v.authId == "" || v.authId == h.id) && (v.fileName == "" || v.fileName == h.name)
  }

  /** A save revision in a record is one the plugin's own disabling write got. */
  ghost predicate SaveRevOk(c: Cell, v: Rec) {
    v.saveRev.Some? ==>
      && v.saveRev.value in c.origin && c.origin[v.saveRev.value].kind.Disables()
      && c.origin[v.saveRev.value].cred.Some? && c.origin[v.saveRev.value].cred.value.body == v.hash
  }

  /** The post-enable guard of a record is what the plugin's enable of that attempt got. */
  ghost predicate PostOk(c: Cell, v: Rec) {
    v.phase == ProbePending ==>
      && v.postRev.Some? && v.postHash.Some?
      && v.postRev.value in c.origin && c.origin[v.postRev.value].kind == PluginEnable(v.attempt)
      && c.origin[v.postRev.value].cred.Some? && c.origin[v.postRev.value].cred.value.body == v.postHash.value
  }

  ghost predicate Guarding(c: Cell, v: Rec) {
    && v.phase != OwnedDisabled
    && c.Host().Some?
    && (v.phase == ProbePending ==> v.postRev == Some(c.Host().value.rev))
    && IdOk(v, c.Host().value)
  }

  ghost predicate VersionOk(c: Cell, v: Rec) {
    && v.attempt < c.nextAttempt
    && SaveRevOk(c, v)
    && PostOk(c, v)
    && (Unconfirmed(c) && EnableAttempt(c) == v.attempt ==> Guarding(c, v))
  }

  /** Versions with one attempt id name the same credential. */
  ghost predicate Twin(c: Cell, v: Rec) {
    c.record.Some? && c.record.value.attempt == v.attempt ==>
      c.record.value.authId == v.authId && c.record.value.fileName == v.fileName
  }

  /** The durable record exists and belongs to attempt `a`. */
  ghost predicate Current(c: Cell, a: nat) {
    c.record.Some? && c.record.value.attempt == a
  }

  // ------------------------------------------------- goroutines

  ghost predicate Unlocked(pc: PC) {
    pc.WantLock? || pc.ErrLoad? || pc.ErrSave?
  }

  ghost predicate CannotWrite(threads: map<Tid, Thread>, u: Tid, a: nat) {
    u in threads ==>
      && (threads[u].pc.ErrLoad? ==> threads[u].job.ScanJob? && threads[u].job.outer.attempt != a)
      && (threads[u].pc.ErrSave? ==> threads[u].pc.rec.attempt != a)
  }

  /** No goroutine outside the lock can write a record of attempt `a`. */
  ghost predicate Exclusive(threads: map<Tid, Thread>, a: nat) {
    forall u :: CannotWrite(threads, u, a)
  }

  ghost predicate JobOk(c: Cell, job: Job) {
    job.ScanJob? ==> job.outer.attempt < c.nextAttempt
  }

  ghost predicate Loose(c: Cell, th: Thread) {
    && JobOk(c, th.job)
    && (th.pc.ErrLoad? ==> th.job.ScanJob?)
    && (th.pc.ErrSave? ==> VersionOk(c, th.pc.rec) && Twin(c, th.pc.rec))
  }

  ghost predicate SawHost(c: Cell, flag: Flag, body: Body, name: string) {
    c.Host().Some? && c.Host().value.flag == flag && c.Host().value.body == body && c.Host().value.name == name
  }

  ghost predicate SnapIsHost(c: Cell, s: Snap) {
    && SawHost(c, s.flag, s.body, s.name)
    && (s.HasRev() ==> s.Rev() == c.Host().value.rev && s.Id() == c.Host().value.id)
  }

  /** The record a session loaded and acts on. */
  ghost predicate SessionRec(c: Cell, rec: Rec) {
    Current(c, rec.attempt) && Twin(c, rec)
  }

  ghost predicate ProbeRec(c: Cell, rec: Rec) {
    && VersionOk(c, rec)
    && rec.phase == ProbePending
    && (Unconfirmed(c) ==> rec.attempt == EnableAttempt(c))
  }

  /** The session may enable: its disabling write is known and named by `v`. */
  ghost predicate OwnsDisable(c: Cell, rec: Rec, v: Rec) {
    && rec.saveRev.Some? && SaveRevOk(c, rec)
    && IdOk(v, c.origin[rec.saveRev.value].cred.value)
  }

  ghost predicate PendingOk(c: Cell, pending: Rec) {
    c.record == Some(pending) && pending.phase == RestorePending && Exclusive(c.threads, pending.attempt)
  }

  ghost predicate MutOk(c: Cell, job: Job, m: Mutation) {
    match m
    case EnableMut(rec, pending) => PendingOk(c, pending) && OwnsDisable(c, rec, pending)
    case RedisableMut(rec, _) => ProbeRec(c, rec)
    case DisableMut(_, rev) => c.record.None? && job.QuotaJob? && rev in c.origin
  }

  /** After the save call returned: either nothing was written or the plugin's write is last. */
  ghost predicate SavedOk(c: Cell, job: Job, m: Mutation, before: Snap) {
    && before.HasRev() && c.Host().Some?
    && c.Host().value.body == before.body
    && (c.Host().value.rev != before.Rev() ==> LastWrite(c).kind == m.Kind())
    && match m
       case EnableMut(rec, pending) => PendingOk(c, pending) && IdOk(pending, c.Host().value)
       case RedisableMut(rec, _) => true
       case DisableMut(_, _) => c.record.None? && job.QuotaJob?
  }

  ghost predicate ContOk(c: Cell, job: Job, k: Cont) {
    match k
    case ProcessSnap(rec) => VersionOk(c, rec) && SessionRec(c, rec) && rec.phase != ManualReview
    case ProbeOk(rec) => ProbeRec(c, rec)
    case FailSnap(rec, _) => ProbeRec(c, rec)
    case QuotaSnap => job.QuotaJob?
    case Before(m) => MutOk(c, job, m)
    case After(m, before) => SavedOk(c, job, m, before)
  }

  ghost predicate BoundEnable(c: Cell, attempt: nat, after: Snap) {
    && after.HasRev() && after.Rev() in c.origin
    && c.origin[after.Rev()].kind == PluginEnable(attempt)
    && c.origin[after.Rev()].cred.Some? && c.origin[after.Rev()].cred.value.body == after.body
    && (Unconfirmed(c) ==> EnableAttempt(c) == attempt && SnapIsHost(c, after))
  }

  ghost predicate HolderOk(c: Cell, th: Thread) {
    && JobOk(c, th.job)
    && match th.pc
       case ReadJSON(k) => ContOk(c, th.job, k)
       case ReadRuntime(k, flag, body, name) =>
         && ContOk(c, th.job, k)
         && (k.Before? || k.After? || Unconfirmed(c) ==> SawHost(c, flag, body, name))
       case Saving(m, before) =>
         && MutOk(c, th.job, m) && SnapIsHost(c, before) && m.Guard(before) && before.flag != Bool(m.Target())
       case WriteAhead(rec) => !Unconfirmed(c) && SessionRec(c, rec) && OwnsDisable(c, rec, rec)
       case LoadPending(rec) => c.record.Some? && PendingOk(c, c.record.value) && OwnsDisable(c, rec, c.record.value)
       case SetProbePending(pending, after) => PendingOk(c, pending) && BoundEnable(c, pending.attempt, after)
       case LoadProbe(after) =>
         && c.record.Some? && c.record.value.phase == ProbePending && Exclusive(c.threads, c.record.value.attempt)
         && BoundEnable(c, c.record.value.attempt, after)
       case Probing(rec, snap) => ProbeRec(c, rec) && (Unconfirmed(c) ==> SnapIsHost(c, snap))
       case RecordHealth => !Unconfirmed(c)
       case Retiring => !Unconfirmed(c)
       case Backing(rec) => VersionOk(c, rec) && SessionRec(c, rec)
       case FinishDisabled(after, _, _, _) =>
         && !Unconfirmed(c) && after.HasRev() && after.Rev() in c.origin
         && c.origin[after.Rev()].kind.Disables()
         && c.origin[after.Rev()].cred.Some? && c.origin[after.Rev()].cred.value.body == after.body
       case QuotaLoad(snap) => th.job.QuotaJob? && (snap.HasRev() ==> snap.Rev() in c.origin)
       case QuotaRecord(rec) => c.record.None? && VersionOk(c, rec) && Exclusive(c.threads, rec.attempt)
       case _ => true
  }

  ghost predicate ThreadOk(c: Cell, t: Tid) {
    t in c.threads ==>
      if Unlocked(c.threads[t].pc) then Loose(c, c.threads[t]) else HolderOk(c, c.threads[t])
  }

  ghost predicate Holds(c: Cell, t: Tid) {
    t in c.threads && !Unlocked(c.threads[t].pc)
  }

  /** The token is out exactly when some goroutine is inside the lock, and then only one is. */
  ghost predicate LockOk(c: Cell) {
    && (forall t :: Holds(c, t) ==> !c.token)
    && (forall t, u :: Holds(c, t) && Holds(c, u) ==> t == u)
  }

  ghost predicate StoreOk(c: Cell) {
    && (c.record.Some? ==> VersionOk(c, c.record.value))
    && (Unconfirmed(c) ==> Current(c, EnableAttempt(c)))
  }

  ghost predicate Inv(c: Cell) {
    && LogOk(c.log) && OriginOk(c) && StoreOk(c) && LockOk(c)
    && (forall t :: ThreadOk(c, t))
  }

  // ------------------------------------------------- preservation: frame lemmas

  ghost predicate Kept(c: Cell, d: Cell, u: Tid) {
    u in d.threads ==> u in c.threads && d.threads[u] == c.threads[u]
  }

  ghost predicate OthersKept(c: Cell, d: Cell, t: Tid) {
    forall u :: u != t ==> Kept(c, d, u)
  }

  lemma VersionFrame(c: Cell, d: Cell, v: Rec)
    requires d.log == c.log && d.origin == c.origin && c.nextAttempt <= d.nextAttempt && c.confirmed <= d.confirmed
    requires VersionOk(c, v)
    ensures VersionOk(d, v)
  {
  }

  lemma ExclusiveKept(c: Cell, d: Cell, t: Tid, a: nat)
    requires Exclusive(c.threads, a) && OthersKept(c, d, t)
    requires t in d.threads ==> !d.threads[t].pc.ErrLoad? && !d.threads[t].pc.ErrSave?
    ensures Exclusive(d.threads, a)
  {
    forall u ensures CannotWrite(d.threads, u, a) {
      assert Kept(c, d, u) || u == t;
      assert CannotWrite(c.threads, u, a);
    }
  }

  lemma LockKept(c: Cell, d: Cell, t: Tid)
    requires LockOk(c) && Holds(c, t) && OthersKept(c, d, t) && d.token == c.token
    ensures LockOk(d)
  {
    forall u | Holds(d, u) ensures u == t {
      assert u == t || Kept(c, d, u);
      assert u == t || Holds(c, u);
    }
  }

  lemma LooseFrame(c: Cell, d: Cell, th: Thread)
    requires d.log == c.log && d.origin == c.origin && c.nextAttempt <= d.nextAttempt && c.confirmed <= d.confirmed
    requires Loose(c, th)
    requires th.pc.ErrSave? ==> Twin(d, th.pc.rec)
    ensures Loose(d, th)
  {
  }

  ghost predicate TwinsOk(d: Cell, u: Tid) {
    u in d.threads && d.threads[u].pc.ErrSave? ==> Twin(d, d.threads[u].pc.rec)
  }

  /** The lock holder moves to another program point inside the lock, possibly committing
      a new record; the Host is untouched. */
  lemma HolderMoves(c: Cell, d: Cell, t: Tid)
    requires Inv(c) && Holds(c, t) && OthersKept(c, d, t) && d.token == c.token
    requires d.log == c.log && d.origin == c.origin && c.nextAttempt <= d.nextAttempt && c.confirmed <= d.confirmed
    requires Holds(d, t) && HolderOk(d, d.threads[t])
    requires d.record == c.record || (StoreOk(d) && forall u :: TwinsOk(d, u))
    ensures Inv(d)
  {
    LockKept(c, d, t);
    forall u ensures ThreadOk(d, u) {
      if u != t && u in d.threads {
        assert Kept(c, d, u);
        assert ThreadOk(c, u);
        if !Unlocked(c.threads[u].pc) {
          assert Holds(c, u);
        } else {
          assert TwinsOk(d, u);
          LooseFrame(c, d, c.threads[u]);
        }
      }
    }
    if c.record.Some? {
      VersionFrame(c, d, c.record.value);
    }
  }

  ghost predicate StillExclusive(c: Cell, threads: map<Tid, Thread>) {
    forall a :: Exclusive(c.threads, a) ==> Exclusive(threads, a)
  }

  lemma VersionThreads(c: Cell, threads: map<Tid, Thread>, v: Rec)
    ensures VersionOk(c, v) ==> VersionOk(c.(threads := threads), v)
    ensures ProbeRec(c, v) ==> ProbeRec(c.(threads := threads), v)
  {
  }

  lemma ContOkThreads(c: Cell, threads: map<Tid, Thread>, job: Job, k: Cont)
    requires ContOk(c, job, k) && StillExclusive(c, threads)
    ensures ContOk(c.(threads := threads), job, k)
  {
    match k
    case ProcessSnap(rec) => VersionThreads(c, threads, rec);
    case ProbeOk(rec) => VersionThreads(c, threads, rec);
    case FailSnap(rec, _) => VersionThreads(c, threads, rec);
    case QuotaSnap =>
    case Before(m) => MutOkThreads(c, threads, job, m);
    case After(_, _) =>
  }

  lemma MutOkThreads(c: Cell, threads: map<Tid, Thread>, job: Job, m: Mutation)
    requires MutOk(c, job, m) && StillExclusive(c, threads)
    ensures MutOk(c.(threads := threads), job, m)
  {
    if m.RedisableMut? {
      VersionThreads(c, threads, m.rec);
    }
  }

  /** The holder's condition depends on the other goroutines only through `Exclusive`. */
  lemma HolderOkThreads(c: Cell, threads: map<Tid, Thread>, th: Thread)
    requires HolderOk(c, th) && StillExclusive(c, threads)
    ensures HolderOk(c.(threads := threads), th)
  {
    match th.pc
    case ReadJSON(k) => ContOkThreads(c, threads, th.job, k);
    case ReadRuntime(k, _, _, _) => ContOkThreads(c, threads, th.job, k);
    case Saving(m, _) => MutOkThreads(c, threads, th.job, m);
    case Probing(rec, _) => VersionThreads(c, threads, rec);
    case Backing(rec) => VersionThreads(c, threads, rec);
    case QuotaRecord(rec) => VersionThreads(c, threads, rec);
    case _ =>
  }

  /** The common case: a new program point, the same stores. */
  lemma Moves(c: Cell, d: Cell, t: Tid)
    requires Inv(c) && Holds(c, t)
    requires d.log == c.log && d.origin == c.origin && d.record == c.record && d.token == c.token
    requires c.nextAttempt <= d.nextAttempt && c.confirmed <= d.confirmed
    requires t in d.threads && d.threads == c.threads[t := d.threads[t]]
    requires !Unlocked(d.threads[t].pc) && HolderOk(d.(threads := c.threads), d.threads[t])
    ensures Inv(d)
  {
    forall u | u != t ensures Kept(c, d, u) {
    }
    forall a | Exclusive(c.threads, a) ensures Exclusive(d.threads, a) {
      ExclusiveKept(c, d, t, a);
    }
    assert StillExclusive(d.(threads := c.threads), d.threads);
    HolderOkThreads(d.(threads := c.threads), d.threads, d.threads[t]);
    assert d == d.(threads := c.threads).(threads := d.threads);
    HolderMoves(c, d, t);
  }
}
