/** All auth indexes together. Each has its own lock, record key and credential file, so an
    action touches one cell; a crash or restart hits all of them at once. */
module Fleet {
  import opened Basics
  import opened Protocol
  import opened OwnershipInvariant
  import opened OwnershipSafety

  type World = map<string, Cell>

  datatype FleetEvent = At(index: string, e: Event) | CrashAll

  function FleetStep(w: World, fe: FleetEvent): World {
    match fe
    case At(index, e) => if index in w then w[index := Step(w[index], e)] else w
    case CrashAll => map i | i in w :: Step(w[i], Crash)
  }

  function FleetRun(w: World, fes: seq<FleetEvent>): World
    decreases fes
  {
    if fes == [] then w else FleetRun(FleetStep(w, fes[0]), fes[1..])
  }

  /** What a run of the whole plugin looks like to one auth index. */
  function Project(fes: seq<FleetEvent>, index: string): seq<Event>
    decreases fes
  {
    if fes == [] then []
    else
      match fes[0]
      case At(i, e) => if i == index then [e] + Project(fes[1..], index) else Project(fes[1..], index)
      case CrashAll => [Crash] + Project(fes[1..], index)
  }

  lemma {:induction false} FleetProjects(w: World, fes: seq<FleetEvent>, index: string)
    requires index in w
    ensures index in FleetRun(w, fes) && FleetRun(w, fes)[index] == Run(w[index], Project(fes, index))
    decreases fes
  {
    if fes != [] {
      FleetProjects(FleetStep(w, fes[0]), fes[1..], index);
      var rest := Project(fes[1..], index);
      match fes[0] {
        case At(i, e) =>
          if i == index {
            assert ([e] + rest)[1..] == rest;
          }
        case CrashAll => assert ([Crash] + rest)[1..] == rest;
      }
    }
  }

  ghost predicate FleetAssumptions(w: World, fes: seq<FleetEvent>) {
    forall i :: i in w ==> CleanRun(w[i], Project(fes, i)) && FreshRun(w[i], Project(fes, i))
  }

  /** Ownership safety and write-ahead for every credential of the plugin at once. */
  lemma FleetIsSafe(cfg: Cfg, indexes: set<string>, fes: seq<FleetEvent>)
    requires FleetAssumptions(map i | i in indexes :: Fresh(cfg), fes)
    ensures var w := FleetRun(map i | i in indexes :: Fresh(cfg), fes);
            forall i :: i in indexes ==>
              && i in w && LogOk(w[i].log)
              && (Unconfirmed(w[i]) ==> w[i].record.Some? && w[i].record.value.phase != OwnedDisabled)
  {
    var w0: World := map i | i in indexes :: Fresh(cfg);
    forall i | i in indexes
      ensures i in FleetRun(w0, fes) && LogOk(FleetRun(w0, fes)[i].log)
      ensures Unconfirmed(FleetRun(w0, fes)[i]) ==>
        FleetRun(w0, fes)[i].record.Some? && FleetRun(w0, fes)[i].record.value.phase != OwnedDisabled
    {
      FleetProjects(w0, fes, i);
      OwnershipSafe(cfg, Project(fes, i));
      EnableIsRecorded(cfg, Project(fes, i));
    }
  }
}
