/** The hand-over between controllers: reconfigure, quiesce and shutdown against usage
    callbacks, management calls and the scan loop, in every interleaving. */
module Handover {
  import opened Basics

  /** One controller instance. Its wait group counts the callers inside it. */
  datatype Controller = Controller(closing: bool, scanning: bool, canceled: bool, storeClosed: bool)

  const Stopped := Controller(false, false, false, false)

  /** How far Controller.Shutdown has got. */
  datatype Stage = NotClosed | Closed | ScanEnded | Drained

  /** What the goroutine that holds the lifecycle lock is doing. */
  datatype Lifecycle =
    | Free
    | Built(next: nat)                                            // the replacement exists, nothing is touched yet
    | Swapping(next: nat, previous: Option<nat>, stage: Stage)    // holds the controller lock as well
    | Published(next: nat)                                        // controller lock released, scan loop not started
    | TakenOut(current: nat, stage: Stage)                        // quiesce or shutdown, controller lock released

  /** A call that has read the controller pointer, and one that was admitted. */
  datatype Caller = Holding(c: nat) | Inside(c: nat)

  datatype World = World(controllers: map<nat, Controller>, published: Option<nat>, lifecycle: Lifecycle, callers: map<nat, Caller>)

  const Start := World(map[], None, Free, map[])

  datatype Event =
    | Build(next: nat) | Swap | TakeOut
    | Close | AwaitScan | AwaitCallers | CloseStore | Publish | StartScan
    | Fetch(t: nat) | Admit(t: nat) | Leave(t: nat) | ScanEnds(c: nat)

  // ---------------------------------------------------------------- steps

  ghost predicate NoneInside(w: World, c: nat) {
    forall t :: t in w.callers ==> w.callers[t] != Inside(c)
  }

  /** The controller being shut down, and how far that has got. */
  function Target(w: World): Option<nat> {
    match w.lifecycle
    case Swapping(_, previous, _) => previous
    case TakenOut(current, _) => Some(current)
    case _ => None
  }

  function StageOf(w: World): Stage {
    match w.lifecycle
    case Swapping(_, _, stage) => stage
    case TakenOut(_, stage) => stage
    case _ => NotClosed
  }

  function WithStage(l: Lifecycle, stage: Stage): Lifecycle {
    match l
    case Swapping(next, previous, _) => Swapping(next, previous, stage)
    case TakenOut(current, _) => TakenOut(current, stage)
    case _ => l
  }

  function SetController(w: World, c: nat, x: Controller): World {
    w.(controllers := w.controllers[c := x])
  }

  /** The steps of Controller.Shutdown on `c`, in order. */
  ghost function ShutdownStep(w: World, c: nat, e: Event): World
    requires c in w.controllers
  {
    var x := w.controllers[c];
    match e
    case Close =>
      if StageOf(w) == NotClosed
      then SetController(w, c, x.(closing := true, canceled := true)).(lifecycle := WithStage(w.lifecycle, Closed)) else w
    case AwaitScan =>
      if StageOf(w) == Closed && !x.scanning then w.(lifecycle := WithStage(w.lifecycle, ScanEnded)) else w
    case AwaitCallers =>
      if StageOf(w) == ScanEnded && NoneInside(w, c) then w.(lifecycle := WithStage(w.lifecycle, Drained)) else w
    case CloseStore =>
      if StageOf(w) == Drained then
        var w' := SetController(w, c, x.(storeClosed := true));
        if w.lifecycle.TakenOut? then w'.(lifecycle := Free)
        else if w.lifecycle.Swapping? then w'.(lifecycle := Swapping(w.lifecycle.next, None, NotClosed), published := None) else w
      else w
    case _ => w
  }

  /** A step that is not possible changes nothing. While the controller lock is held for a
      swap nobody reads the pointer, so taking the drained controller out at once and
      publishing later is the same as replacing it. */
  ghost function Step(w: World, e: Event): World {
    match e
    case Build(next) =>
      if w.lifecycle.Free? && next !in w.controllers
      then SetController(w, next, Stopped).(lifecycle := Built(next)) else w
    case Swap => if w.lifecycle.Built? then w.(lifecycle := Swapping(w.lifecycle.next, w.published, NotClosed)) else w
    case Publish =>
      if w.lifecycle.Swapping? && w.lifecycle.previous.None?
      then w.(lifecycle := Published(w.lifecycle.next), published := Some(w.lifecycle.next)) else w
    case StartScan =>
      if !w.lifecycle.Published? || w.lifecycle.next !in w.controllers then w
      else
        var x := w.controllers[w.lifecycle.next];
        (if x.closing || x.scanning then w else SetController(w, w.lifecycle.next, x.(scanning := true))).(lifecycle := Free)
    case TakeOut =>
      if w.lifecycle.Free? && w.published.Some?
      then w.(lifecycle := TakenOut(w.published.value, NotClosed), published := None) else w
    case Fetch(t) =>
      if t !in w.callers && w.published.Some? && !w.lifecycle.Swapping?
      then w.(callers := w.callers[t := Holding(w.published.value)]) else w
    case Admit(t) =>
      if t !in w.callers || !w.callers[t].Holding? || w.callers[t].c !in w.controllers then w
      else if w.controllers[w.callers[t].c].closing then w.(callers := w.callers - {t})
      else w.(callers := w.callers[t := Inside(w.callers[t].c)])
    case Leave(t) => if t in w.callers && w.callers[t].Inside? then w.(callers := w.callers - {t}) else w
    case ScanEnds(c) =>
      if c in w.controllers && w.controllers[c].canceled then SetController(w, c, w.controllers[c].(scanning := false)) else w
    case _ => if Target(w).Some? && Target(w).value in w.controllers then ShutdownStep(w, Target(w).value, e) else w
  }

  ghost function Run(w: World, es: seq<Event>): World
    decreases es
  {
    if es == [] then w else Run(Step(w, es[0]), es[1..])
  }

  // ---------------------------------------------------------------- invariant

  /** Work is in flight: the scan loop runs or an admitted call has not returned. */
  ghost predicate Active(w: World, c: nat) {
    c in w.controllers && (w.controllers[c].scanning || !NoneInside(w, c))
  }

  /** Closed for good: no scan, no admitted call, and none can be admitted. */
  ghost predicate Retired(w: World, c: nat) {
    c in w.controllers && w.controllers[c].closing && !w.controllers[c].scanning && NoneInside(w, c)
  }

  /** Built but not yet published: nobody has seen it. */
  ghost predicate Unseen(w: World, c: nat) {
    && c in w.controllers && w.controllers[c] == Stopped && w.published != Some(c) && Target(w) != Some(c)
    && forall t :: t in w.callers ==> w.callers[t].c != c
  }

  predicate Fresh(w: World, c: nat) {
    (w.lifecycle.Built? || w.lifecycle.Swapping?) && w.lifecycle.next == c
  }

  predicate Live(w: World, c: nat) {
    w.published == Some(c) || Target(w) == Some(c)
  }

  ghost predicate Known(w: World) {
    && (w.published.Some? ==> w.published.value in w.controllers)
    && (Target(w).Some? ==> Target(w).value in w.controllers)
    && (forall t :: t in w.callers ==> w.callers[t].c in w.controllers)
  }

  /** The lifecycle lock leaves room for one live controller. */
  ghost predicate OneLive(w: World) {
    match w.lifecycle
    case Free => true
    case Built(next) => Unseen(w, next)
    case Swapping(next, previous, _) => Unseen(w, next) && previous == w.published
    case Published(next) => w.published == Some(next)
    case TakenOut(_, _) => w.published.None?
  }

  ghost predicate StageHolds(w: World) {
    Target(w).Some? && Target(w).value in w.controllers ==>
      var x := w.controllers[Target(w).value];
      && (StageOf(w) != NotClosed ==> x.closing && x.canceled)
      && (StageOf(w) == ScanEnded || StageOf(w) == Drained ==> !x.scanning)
      && (StageOf(w) == Drained ==> NoneInside(w, Target(w).value))
  }

  ghost predicate Standing(w: World, c: nat) {
    && (Live(w, c) || Fresh(w, c) || Retired(w, c))
    && (c in w.controllers && w.controllers[c].storeClosed ==> Retired(w, c) && !Live(w, c))
  }

  ghost predicate Inv(w: World) {
    && Known(w) && OneLive(w) && StageHolds(w)
    && forall c :: c in w.controllers ==> Standing(w, c)
  }

  // ---------------------------------------------------------------- preservation

  lemma BuildKeeps(w: World, next: nat)
    requires Inv(w)
    ensures Inv(Step(w, Build(next)))
  {
  }

  lemma SwapKeeps(w: World)
    requires Inv(w)
    ensures Inv(Step(w, Swap))
  {
  }

  lemma PublishKeeps(w: World)
    requires Inv(w)
    ensures Inv(Step(w, Publish))
  {
  }

  lemma StartScanKeeps(w: World)
    requires Inv(w)
    ensures Inv(Step(w, StartScan))
  {
  }

  lemma TakeOutKeeps(w: World)
    requires Inv(w)
    ensures Inv(Step(w, TakeOut))
  {
  }

  lemma FetchKeeps(w: World, t: nat)
    requires Inv(w)
    ensures Inv(Step(w, Fetch(t)))
  {
  }

  lemma AdmitKeeps(w: World, t: nat)
    requires Inv(w)
    ensures Inv(Step(w, Admit(t)))
  {
    forall c | c in w.controllers
      ensures Standing(Step(w, Admit(t)), c)
    {
      AdmitStands(w, t, c);
    }
  }

  lemma AdmitStands(w: World, t: nat, c: nat)
    requires Standing(w, c) && c in w.controllers
    ensures Standing(Step(w, Admit(t)), c)
  {
  }

  lemma LeaveKeeps(w: World, t: nat)
    requires Inv(w)
    ensures Inv(Step(w, Leave(t)))
  {
  }

  lemma ScanEndsKeeps(w: World, c: nat)
    requires Inv(w)
    ensures Inv(Step(w, ScanEnds(c)))
  {
  }

  lemma ShutdownKeeps(w: World, e: Event)
    requires Inv(w) && (e.Close? || e.AwaitScan? || e.AwaitCallers? || e.CloseStore?)
    ensures Inv(Step(w, e))
  {
  }

  lemma StepKeeps(w: World, e: Event)
    requires Inv(w)
    ensures Inv(Step(w, e))
  {
    match e
    case Build(next) => BuildKeeps(w, next);
    case Swap => SwapKeeps(w);
    case Publish => PublishKeeps(w);
    case StartScan => StartScanKeeps(w);
    case TakeOut => TakeOutKeeps(w);
    case ScanEnds(c) => ScanEndsKeeps(w, c);
    case Fetch(t) => FetchKeeps(w, t);
    case Admit(t) => AdmitKeeps(w, t);
    case Leave(t) => LeaveKeeps(w, t);
    case _ => ShutdownKeeps(w, e);
  }

  lemma {:induction false} RunKeeps(w: World, es: seq<Event>)
    requires Inv(w)
    ensures Inv(Run(w, es))
    decreases es
  {
    if es != [] {
      StepKeeps(w, es[0]);
      RunKeeps(Step(w, es[0]), es[1..]);
    }
  }

  // ---------------------------------------------------------------- what every run guarantees

  lemma InvMeansOneActive(w: World, c: nat, d: nat)
    requires Inv(w) && Active(w, c) && Active(w, d)
    ensures c == d
  {
    assert Standing(w, c) && Standing(w, d);
  }

  /** In every reachable state work is in flight in at most one controller, and a controller
      whose store is closed has none, and none that could still be admitted. */
  lemma OneControllerWorks(es: seq<Event>)
    ensures var w := Run(Start, es);
            && (forall c, d :: Active(w, c) && Active(w, d) ==> c == d)
            && (forall c :: c in w.controllers && w.controllers[c].storeClosed ==> Retired(w, c))
  {
    RunKeeps(Start, es);
    var w := Run(Start, es);
    forall c, d | Active(w, c) && Active(w, d)
      ensures c == d
    {
      InvMeansOneActive(w, c, d);
    }
    forall c | c in w.controllers && w.controllers[c].storeClosed
      ensures Retired(w, c)
    {
      assert Standing(w, c);
    }
  }

  lemma ClosingStep(w: World, e: Event, c: nat)
    requires Inv(w) && c in w.controllers && w.controllers[c].closing
    ensures var w' := Step(w, e);
            && c in w'.controllers && w'.controllers[c].closing
            && (w'.controllers[c].scanning ==> w.controllers[c].scanning)
            && (forall t :: t in w'.callers && w'.callers[t] == Inside(c) ==> t in w.callers && w.callers[t] == Inside(c))
  {
  }

  /** Once a controller is closing, no run ever admits another call to it or starts its scan
      loop again: what is inside at the end was inside at the moment of closing. */
  lemma {:induction false} NoneAdmittedAfterClosing(w: World, es: seq<Event>, c: nat)
    requires Inv(w) && c in w.controllers && w.controllers[c].closing
    ensures var w' := Run(w, es);
            && c in w'.controllers && w'.controllers[c].closing
            && (w'.controllers[c].scanning ==> w.controllers[c].scanning)
            && (forall t :: t in w'.callers && w'.callers[t] == Inside(c) ==> t in w.callers && w.callers[t] == Inside(c))
    decreases es
  {
    if es != [] {
      StepKeeps(w, es[0]);
      ClosingStep(w, es[0], c);
      NoneAdmittedAfterClosing(Step(w, es[0]), es[1..], c);
    }
  }

  // ---------------------------------------------------------------- calls get in, scans run, shutdown ends

  /** Open for work: not being shut down, with its scan loop running. */
  predicate Works(w: World, c: nat) {
    c in w.controllers && var x := w.controllers[c]; !x.closing && !x.canceled && !x.storeClosed && x.scanning
  }

  /** The published controller is open; its scan loop runs once the lifecycle call is over. */
  ghost predicate OpenInv(w: World) {
    match w.lifecycle
    case Swapping(_, Some(c), NotClosed) => Works(w, c)
    case Swapping(_, _, _) => true
    case Published(next) => next in w.controllers && w.controllers[next] == Stopped
    case TakenOut(c, NotClosed) => Works(w, c)
    case TakenOut(_, _) => true
    case _ => w.published.Some? ==> Works(w, w.published.value)
  }

  lemma StepOpen(w: World, e: Event)
    requires Inv(w) && OpenInv(w)
    ensures OpenInv(Step(w, e))
  {
  }

  lemma {:induction false} RunOpen(w: World, es: seq<Event>)
    requires Inv(w) && OpenInv(w)
    ensures Inv(Run(w, es)) && OpenInv(Run(w, es))
    decreases es
  {
    if es != [] {
      StepKeeps(w, es[0]);
      StepOpen(w, es[0]);
      RunOpen(Step(w, es[0]), es[1..]);
    }
  }

  /** In every reachable state, unless a lifecycle call is at work, the published controller
      is open and its scan loop runs; and a call made then gets inside it. */
  lemma PublishedWorks(es: seq<Event>, t: nat)
    ensures var w := Run(Start, es);
            (w.lifecycle.Free? || w.lifecycle.Built?) && w.published.Some? ==>
              && Works(w, w.published.value)
              && (t !in w.callers ==> Run(w, [Fetch(t), Admit(t)]).callers == w.callers[t := Inside(w.published.value)])
  {
    RunOpen(Start, es);
    var w := Run(Start, es);
    if (w.lifecycle.Free? || w.lifecycle.Built?) && w.published.Some? && t !in w.callers {
      TwoSteps(w, Fetch(t), Admit(t));
    }
  }

  lemma TwoSteps(w: World, d: Event, e: Event)
    ensures Run(w, [d, e]) == Step(Step(w, d), e)
  {
    assert [d, e][1..] == [e] && [e][1..] == [];
    assert Run(Step(w, d), [e]) == Step(Step(w, d), e);
  }

  /** In every reachable state a caller that holds a controller gets inside if and only if that
      is not closing by now, and is turned away otherwise; nothing else changes. */
  lemma AdmittedExactly(es: seq<Event>, t: nat, c: nat)
    requires t in Run(Start, es).callers && Run(Start, es).callers[t] == Holding(c)
    ensures var w := Run(Start, es); var w' := Step(w, Admit(t));
            && c in w.controllers
            && w' == w.(callers := w'.callers)
            && (t in w'.callers <==> !w.controllers[c].closing)
            && (t in w'.callers ==> w'.callers[t] == Inside(c))
            && (forall s :: s != t ==> (s in w'.callers <==> s in w.callers) && (s in w.callers ==> w'.callers[s] == w.callers[s]))
  {
    RunKeeps(Start, es);
  }

  ghost predicate ClosedStore(w: World, c: nat) {
    c in w.controllers && w.controllers[c].storeClosed
  }

  /** What the rest of a lifecycle call does: the old store is closed, the new controller works. */
  ghost predicate Finished(w: World, w': World) {
    && w'.lifecycle == Free
    && (forall c :: ClosedStore(w, c) ==> ClosedStore(w', c))
    && (Target(w).Some? ==> ClosedStore(w', Target(w).value))
    && match w.lifecycle
       case Free => w' == w
       case Built(next) => w'.published == Some(next) && Works(w', next) && (w.published.Some? ==> ClosedStore(w', w.published.value))
       case Swapping(next, _, _) => w'.published == Some(next) && Works(w', next)
       case Published(next) => w'.published == Some(next) && Works(w', next)
       case TakenOut(_, _) => w'.published == None
  }

  /** The next event of the lifecycle call, or one that it waits for. */
  ghost function Next(w: World): Event
    requires Inv(w) && !w.lifecycle.Free?
  {
    if w.lifecycle.Built? then Swap
    else if w.lifecycle.Published? then StartScan
    else if Target(w).None? then Publish
    else
      var c := Target(w).value;
      match StageOf(w)
      case NotClosed => Close
      case Closed => if w.controllers[c].scanning then ScanEnds(c) else AwaitScan
      case ScanEnded => if NoneInside(w, c) then AwaitCallers else (var t :| t in w.callers && w.callers[t] == Inside(c); Leave(t))
      case Drained => CloseStore
  }

  /** How many kinds of step are left. */
  function Rank(w: World): nat {
    match w.lifecycle
    case Free => 0
    case Published(_) => 1
    case Swapping(_, None, _) => 2
    case Built(_) => 8
    case _ => match StageOf(w)
              case NotClosed => 7
              case Closed => if Target(w).Some? && Target(w).value in w.controllers && w.controllers[Target(w).value].scanning then 6 else 5
              case ScanEnded => 4
              case Drained => 3
  }

  ghost predicate Advances(w: World, w': World) {
    Rank(w') < Rank(w) || (Rank(w') == Rank(w) && |w'.callers| < |w.callers|)
  }

  lemma NextAdvances(w: World)
    requires Inv(w) && OpenInv(w) && !w.lifecycle.Free?
    ensures Advances(w, Step(w, Next(w)))
  {
    if Target(w).Some? {
      ShutdownAdvances(w, Target(w).value);
    }
  }

  lemma ShutdownAdvances(w: World, c: nat)
    requires Inv(w) && Target(w) == Some(c)
    ensures Advances(w, Step(w, Next(w)))
  {
  }

  lemma ClosedStays(w: World, e: Event, c: nat)
    requires Inv(w) && ClosedStore(w, c)
    ensures ClosedStore(Step(w, e), c)
  {
  }

  /** The controller being shut down stays the same, or its store has just been closed. */
  lemma TargetServed(w: World, w': World)
    requires Inv(w) && OpenInv(w) && Target(w).Some? && Finished(Step(w, Next(w)), w')
    ensures ClosedStore(w', Target(w).value)
  {
    var v := Step(w, Next(w));
    assert Target(v) == Target(w) || ClosedStore(v, Target(w).value);
  }

  lemma NextServes(w: World, w': World)
    requires Inv(w) && OpenInv(w) && !w.lifecycle.Free? && Finished(Step(w, Next(w)), w')
    ensures Finished(w, w')
  {
    var v := Step(w, Next(w));
    forall c | ClosedStore(w, c)
      ensures ClosedStore(w', c)
    {
      ClosedStays(w, Next(w), c);
      assert ClosedStore(v, c);
    }
    if Target(w).Some? {
      TargetServed(w, w');
    }
  }

  /** From every reachable state every lifecycle call can end, once the scan loop and the calls
      inside do; then the old controller's store is closed and the new controller works. */
  lemma {:induction false} EveryCallEnds(w: World) returns (es: seq<Event>)
    requires Inv(w) && OpenInv(w)
    ensures Finished(w, Run(w, es))
    decreases Rank(w), |w.callers|
  {
    es := [];
    if !w.lifecycle.Free? {
      var v := Step(w, Next(w));
      StepKeeps(w, Next(w));
      StepOpen(w, Next(w));
      NextAdvances(w);
      var rest := EveryCallEnds(v);
      NextServes(w, Run(v, rest));
      es := [Next(w)] + rest;
      assert es[1..] == rest;
    }
  }

  /** So no reachable state is stuck. */
  lemma NeverStuck(es: seq<Event>) returns (rest: seq<Event>)
    ensures Finished(Run(Start, es), Run(Run(Start, es), rest))
  {
    RunOpen(Start, es);
    rest := EveryCallEnds(Run(Start, es));
  }
}
