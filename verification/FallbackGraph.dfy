/** The fallback graph of the proxy catalog and the three-colour search that accepts it. */
module FallbackGraph {
  import opened Basics

  const NONE: string := "none"
  const DIRECT: string := "direct"
  const PROFILE: string := "profile"
  const MAX_PROFILES: nat := 256

  datatype Profile = Profile(id: string, remark: string, url: string, mode: string, backup: string,
                             active: bool, indexes: seq<string>)

  type Catalog = map<string, Profile>

  // ---------------------------------------------------------------- fields

  predicate AlphaNumeric(c: char) {
    'A' <= c <= 'Z' || 'a' <= c <= 'z' || '0' <= c <= '9'
  }

  predicate ValidId(id: string) {
    && 1 <= |id| <= 96 && AlphaNumeric(id[0])
    && forall i :: 0 < i < |id| ==> AlphaNumeric(id[i]) || id[i] == '_' || id[i] == '-'
  }

  predicate Printable(s: string) {
    '\0' !in s && '\r' !in s && '\n' !in s
  }

  predicate ValidIndex(index: string) {
    index != "" && |index| <= 256 && Printable(index)
  }

  predicate ModeOk(id: string, mode: string, backup: string) {
    var m := TrimSpace(mode);
    var target := TrimSpace(backup);
    if m == "" || m == NONE || m == DIRECT then target == ""
    else m == PROFILE && target != id && ValidId(target)
  }

  ghost predicate IndexesOk(indexes: seq<string>) {
    && |indexes| <= MAX_PROFILES
    && (forall i :: 0 <= i < |indexes| ==> ValidIndex(TrimSpace(indexes[i])))
    && (forall i, j :: 0 <= i < j < |indexes| ==> TrimSpace(indexes[i]) != TrimSpace(indexes[j]))
  }

  /** A fallback is active exactly when it has credentials, and never without a target mode. */
  ghost predicate FieldsOk(id: string, mode: string, backup: string, indexes: seq<string>, active: bool) {
    && ModeOk(id, mode, backup)
    && (active <==> indexes != [])
    && (active ==> TrimSpace(mode) != "" && TrimSpace(mode) != NONE)
    && IndexesOk(indexes)
  }

  method ValidateFallbackFields(id: string, rawMode: string, rawBackup: string, indexes: seq<string>, active: bool)
    returns (ok: bool)
    ensures ok <==> FieldsOk(id, rawMode, rawBackup, indexes, active)
  {
    var mode := TrimSpace(rawMode);
    var backup := TrimSpace(rawBackup);
    if mode == "" {
      mode := NONE;
    }
    if mode == NONE || mode == DIRECT {
      if backup != "" {
        return false;
      }
    } else if mode == PROFILE {
      if backup == "" || backup == id || !ValidId(backup) {
        return false;
      }
    } else {
      return false;
    }
    if active && mode == NONE {
      return false;
    }
    if (active && |indexes| == 0) || (!active && |indexes| > 0) || |indexes| > MAX_PROFILES {
      return false;
    }
    ok := ValidateIndexes(indexes);
  }

  method ValidateIndexes(indexes: seq<string>) returns (ok: bool)
    requires |indexes| <= MAX_PROFILES
    ensures ok <==> IndexesOk(indexes)
  {
    var seen: set<string> := {};
    for i := 0 to |indexes|
      invariant seen == set k | 0 <= k < i :: TrimSpace(indexes[k])
      invariant IndexesOk(indexes[..i])
    {
      var index := TrimSpace(indexes[i]);
      if !ValidIndex(index) {
        return false;
      }
      if index in seen {
        return false;
      }
      seen := seen + {index};
    }
    assert indexes[..|indexes|] == indexes;
    return true;
  }

  // ---------------------------------------------------------------- edges and walks

  function Edge(c: Catalog, id: string): Option<string> {
    if id in c && c[id].mode == PROFILE then Some(c[id].backup) else None
  }

  /** Where following fallbacks `n` times leads; None once the chain has ended. */
  function Walk(c: Catalog, id: string, n: nat): Option<string>
    decreases n
  {
    if n == 0 then Some(id)
    else if Edge(c, id).None? then None
    else Walk(c, Edge(c, id).value, n - 1)
  }

  ghost predicate OnCycle(c: Catalog, id: string) {
    exists n: nat :: n >= 1 && Walk(c, id, n) == Some(id)
  }

  ghost predicate Acyclic(c: Catalog) {
    forall id :: id in c ==> !OnCycle(c, id)
  }

  ghost predicate TargetsExist(c: Catalog) {
    forall id :: id in c && c[id].mode == PROFILE ==> c[id].backup in c
  }

  ghost predicate AllFieldsOk(c: Catalog) {
    forall id :: id in c ==> FieldsOk(id, c[id].mode, c[id].backup, c[id].indexes, c[id].active)
  }

  ghost predicate GraphOk(c: Catalog) {
    AllFieldsOk(c) && TargetsExist(c) && Acyclic(c)
  }

  lemma {:induction false} WalkJoin(c: Catalog, id: string, m: nat, n: nat)
    ensures Walk(c, id, m + n) == if Walk(c, id, m).None? then None else Walk(c, Walk(c, id, m).value, n)
    decreases m
  {
    if m > 0 && Edge(c, id).Some? {
      WalkJoin(c, Edge(c, id).value, m - 1, n);
    }
  }

  /** A walk that returns goes on for ever. */
  lemma {:induction false} CycleNeverEnds(c: Catalog, id: string, n: nat, m: nat)
    requires n >= 1 && Walk(c, id, n) == Some(id)
    ensures Walk(c, id, m).Some?
    decreases m
  {
    if m >= n {
      CycleNeverEnds(c, id, n, m - n);
      WalkJoin(c, id, n, m - n);
    } else {
      WalkJoin(c, id, m, n - m);
    }
  }

  lemma {:induction false} WalkStays(c: Catalog, id: string, n: nat)
    requires TargetsExist(c) && id in c && Walk(c, id, n).Some?
    ensures Walk(c, id, n).value in c
    decreases n
  {
    if n > 0 {
      WalkStays(c, Edge(c, id).value, n - 1);
    }
  }

  // ---------------------------------------------------------------- chains are short

  function Visited(c: Catalog, id: string, n: nat): set<string> {
    set k: nat | k < n && Walk(c, id, k).Some? :: Walk(c, id, k).value
  }

  lemma Repeats(c: Catalog, id: string, k: nat, m: nat)
    requires k < m && Walk(c, id, k).Some? && Walk(c, id, k) == Walk(c, id, m)
    ensures OnCycle(c, Walk(c, id, k).value)
  {
    WalkJoin(c, id, k, m - k);
  }

  lemma VisitedStep(c: Catalog, id: string, n: nat)
    requires n > 0 && Walk(c, id, n - 1).Some?
    ensures Visited(c, id, n) == Visited(c, id, n - 1) + {Walk(c, id, n - 1).value}
  {
  }

  lemma {:induction false} VisitedGrows(c: Catalog, id: string, n: nat)
    requires TargetsExist(c) && Acyclic(c) && id in c && (n > 0 ==> Walk(c, id, n - 1).Some?)
    ensures |Visited(c, id, n)| == n && Visited(c, id, n) <= c.Keys
    decreases n
  {
    if n > 0 {
      if n > 1 {
        WalkJoin(c, id, n - 2, 1);
      }
      VisitedGrows(c, id, n - 1);
      WalkStays(c, id, n - 1);
      NotVisited(c, id, n - 1);
      VisitedStep(c, id, n);
    }
  }

  lemma NotVisited(c: Catalog, id: string, n: nat)
    requires Acyclic(c) && Walk(c, id, n).Some?
    ensures Walk(c, id, n).value !in Visited(c, id, n)
  {
    var last := Walk(c, id, n).value;
    if last in Visited(c, id, n) {
      var k: nat :| k < n && Walk(c, id, k) == Some(last);
      Repeats(c, id, k, n);
      assert false;
    }
  }

  /** Every chain ends in fewer than |c| steps. */
  lemma ChainsAreShort(c: Catalog, id: string)
    requires TargetsExist(c) && Acyclic(c) && id in c
    ensures Walk(c, id, |c|) == None
  {
    assert |c.Keys| == |c|;
    if Walk(c, id, |c|).Some? {
      VisitedGrows(c, id, |c| + 1);
      SubsetSize(Visited(c, id, |c| + 1), c.Keys);
      assert false;
    }
  }

  // ---------------------------------------------------------------- changing one profile

  ghost predicate SameEdgesBut(c: Catalog, d: Catalog, hole: string) {
    forall x :: x != hole ==> Edge(c, x) == Edge(d, x)
  }

  /** A walk that has not yet met the changed profile is the same in both catalogs. */
  lemma {:induction false} WalkAvoids(c: Catalog, d: Catalog, hole: string, id: string, n: nat)
    requires SameEdgesBut(c, d, hole)
    requires forall k: nat :: k < n ==> Walk(c, id, k) != Some(hole)
    ensures Walk(d, id, n) == Walk(c, id, n)
    decreases n
  {
    if n > 0 {
      assert Walk(c, id, 0) != Some(hole);
      if Edge(c, id).Some? {
        var next := Edge(c, id).value;
        forall k: nat | k < n - 1
          ensures Walk(c, next, k) != Some(hole)
        {
          assert Walk(c, id, k + 1) == Walk(c, next, k);
        }
        WalkAvoids(c, d, hole, next, n - 1);
      }
    }
  }

  ghost predicate Reaches(c: Catalog, id: string, goal: string) {
    exists n: nat :: Walk(c, id, n) == Some(goal)
  }

  /** The first time a walk meets its goal. */
  lemma {:induction false} FirstArrival(c: Catalog, id: string, goal: string, n: nat) returns (first: nat)
    requires Walk(c, id, n) == Some(goal)
    ensures first <= n && Walk(c, id, first) == Some(goal)
    ensures forall k: nat :: k < first ==> Walk(c, id, k) != Some(goal)
    decreases n
  {
    if k: nat :| k < n && Walk(c, id, k) == Some(goal) {
      first := FirstArrival(c, id, goal, k);
    } else {
      first := n;
    }
  }

  /** Whether the changed profile can be reached does not depend on its own edge. */
  lemma ReachesUnchanged(c: Catalog, d: Catalog, hole: string, id: string)
    requires SameEdgesBut(c, d, hole) && Reaches(c, id, hole)
    ensures Reaches(d, id, hole)
  {
    var n: nat :| Walk(c, id, n) == Some(hole);
    var first := FirstArrival(c, id, hole, n);
    WalkAvoids(c, d, hole, id, first);
  }

  /** Replacing one profile keeps the graph acyclic exactly when the new target does not
      lead back to it. */
  lemma OneEdge(c: Catalog, id: string, p: Profile)
    requires Acyclic(c)
    ensures var d := c[id := p];
            Acyclic(d) <==> !(p.mode == PROFILE && Reaches(c, p.backup, id))
  {
    var d := c[id := p];
    assert SameEdgesBut(c, d, id) && SameEdgesBut(d, c, id);
    if p.mode == PROFILE && Reaches(c, p.backup, id) {
      ReachesUnchanged(c, d, id, p.backup);
      ReachesItself(d, id);
    } else {
      forall x | x in d
        ensures !OnCycle(d, x)
      {
        if OnCycle(d, x) {
          NewCycleUsesEdge(c, d, id, x);
          assert false;
        }
      }
    }
  }

  lemma ReachesItself(c: Catalog, id: string)
    requires Edge(c, id).Some? && Reaches(c, Edge(c, id).value, id)
    ensures OnCycle(c, id)
  {
    var n: nat :| Walk(c, Edge(c, id).value, n) == Some(id);
    assert Walk(c, id, n + 1) == Some(id);
  }

  /** A cycle that avoids the changed profile is a cycle of both catalogs. */
  lemma AvoidingCycle(d: Catalog, c: Catalog, hole: string, x: string, n: nat)
    requires SameEdgesBut(d, c, hole) && n >= 1 && Walk(d, x, n) == Some(x)
    requires forall k: nat :: k < n ==> Walk(d, x, k) != Some(hole)
    ensures x in c && OnCycle(c, x)
  {
    WalkAvoids(d, c, hole, x, n);
    assert Edge(c, x).Some?;
  }

  lemma NewCycleUsesEdge(c: Catalog, d: Catalog, id: string, x: string)
    requires Acyclic(c) && SameEdgesBut(c, d, id) && SameEdgesBut(d, c, id) && OnCycle(d, x)
    ensures Edge(d, id).Some? && Reaches(c, Edge(d, id).value, id)
  {
    var n: nat :| n >= 1 && Walk(d, x, n) == Some(x);
    if k: nat :| k < n && Walk(d, x, k) == Some(id) {
      WalkJoin(d, x, k, n - k);
      WalkJoin(d, x, n, k);
      WalkJoin(d, id, n - k, k);
      assert Walk(d, id, n) == Some(id);
      assert Edge(d, id).Some?;
      var next := Edge(d, id).value;
      assert Walk(d, next, n - 1) == Some(id);
      ReachesUnchanged(d, c, id, next);
    } else {
      AvoidingCycle(d, c, id, x, n);
      assert false;
    }
  }

  // ---------------------------------------------------------------- the search

  datatype Colour = Active | Done

  ghost predicate Ends(c: Catalog, id: string) {
    exists n: nat :: Walk(c, id, n).None?
  }

  lemma EndsBefore(c: Catalog, id: string, n: nat)
    requires Edge(c, id).Some? && Walk(c, Edge(c, id).value, n).None?
    ensures Ends(c, id)
  {
    assert Walk(c, id, n + 1).None?;
  }

  /** `path` is the chain of nodes being visited; `next` is what its last node points to. */
  ghost predicate Chain(c: Catalog, path: seq<string>, next: string) {
    forall i :: 0 <= i < |path| ==> Edge(c, path[i]) == Some(Next(path, i, next))
  }

  function Next(path: seq<string>, i: int, next: string): string
    requires 0 <= i < |path|
  {
    if i + 1 < |path| then path[i + 1] else next
  }

  lemma {:induction false} ChainWalk(c: Catalog, path: seq<string>, next: string, k: nat)
    requires Chain(c, path, next) && k < |path|
    ensures Walk(c, path[k], |path| - k) == Some(next)
    decreases |path| - k
  {
    if k + 1 < |path| {
      ChainWalk(c, path, next, k + 1);
    } else {
      assert Edge(c, path[k]) == Some(Next(path, k, next));
      assert Walk(c, path[k], 1) == Walk(c, next, 0);
    }
  }

  lemma ChainGrows(c: Catalog, path: seq<string>, id: string, target: string)
    requires Chain(c, path, id) && Edge(c, id) == Some(target)
    ensures Chain(c, path + [id], target)
  {
    forall i | 0 <= i < |path| + 1
      ensures Edge(c, (path + [id])[i]) == Some(Next(path + [id], i, target))
    {
      if i < |path| {
        assert Edge(c, path[i]) == Some(Next(path, i, id));
      }
    }
  }

  lemma ClosesCycle(c: Catalog, path: seq<string>, id: string)
    requires Chain(c, path, id) && id in path && TargetsExist(c) && id in c
    ensures !Acyclic(c)
  {
    var k :| 0 <= k < |path| && path[k] == id;
    ChainWalk(c, path, id, k);
    assert OnCycle(c, id);
  }

  lemma EndsFrom(c: Catalog, id: string)
    requires id in c && TargetsExist(c) && (c[id].mode == PROFILE ==> Ends(c, c[id].backup))
    ensures Ends(c, id)
  {
    if c[id].mode == PROFILE {
      var n: nat :| Walk(c, c[id].backup, n).None?;
      EndsBefore(c, id, n);
    } else {
      assert Walk(c, id, 1).None?;
    }
  }

  class Search {
    const profiles: Catalog
    var states: map<string, Colour>

    constructor (profiles: Catalog)
      ensures this.profiles == profiles && states == map[]
    {
      this.profiles := profiles;
      states := map[];
    }

    ghost predicate Valid(path: seq<string>)
      reads this
    {
      && states.Keys <= profiles.Keys
      && (forall id :: id in states ==> (states[id] == Active <==> id in path))
      && (forall id :: id in path ==> id in states)
      && (forall id :: id in states && states[id] == Done ==> Ends(profiles, id))
    }

    /** Colours the chain from `id`; fails exactly when it runs into a node of its own path. */
    method Visit(id: string, ghost path: seq<string>) returns (ok: bool)
      requires Valid(path) && Chain(profiles, path, id) && TargetsExist(profiles) && id in profiles
      modifies this
      ensures ok ==> Valid(path) && id in states && states[id] == Done
      ensures ok ==> forall other :: other in old(states) ==> other in states && states[other] == old(states[other])
      ensures !ok ==> !Acyclic(profiles)
      decreases profiles.Keys - states.Keys
    {
      if id in states {
        if states[id] == Active {
          ClosesCycle(profiles, path, id);
          return false;
        }
        return true;
      }
      states := states[id := Active];
      ghost var longer := path + [id];
      if profiles[id].mode == PROFILE {
        var target := profiles[id].backup;
        ChainGrows(profiles, path, id, target);
        assert id !in old(states) && id in profiles.Keys - old(states).Keys;
        ok := Visit(target, longer);
        if !ok {
          return false;
        }
      }
      EndsFrom(profiles, id);
      assert id in longer;
      states := states[id := Done];
      return true;
    }
  }

  lemma AllEndMeansAcyclic(c: Catalog)
    requires forall id :: id in c ==> Ends(c, id)
    ensures Acyclic(c)
  {
    forall id | id in c
      ensures !OnCycle(c, id)
    {
      if OnCycle(c, id) {
        var n: nat :| n >= 1 && Walk(c, id, n) == Some(id);
        var m: nat :| Walk(c, id, m).None?;
        CycleNeverEnds(c, id, n, m);
        assert false;
      }
    }
  }

  /** validateFallbackGraph: accepts exactly the well-formed acyclic catalogs, in whatever
      order the map yields the profiles. */
  method ValidateFallbackGraph(profiles: Catalog) returns (ok: bool)
    ensures ok <==> GraphOk(profiles)
  {
    ok := ValidateTargets(profiles);
    if ok {
      ok := ColourAll(profiles);
    }
  }

  method ColourAll(profiles: Catalog) returns (ok: bool)
    requires TargetsExist(profiles)
    ensures ok <==> Acyclic(profiles)
  {
    var search := new Search(profiles);
    var todo := profiles.Keys;
    while todo != {}
      invariant search.profiles == profiles && search.Valid([]) && todo <= profiles.Keys
      invariant forall id :: id in profiles.Keys - todo ==> id in search.states && search.states[id] == Done
    {
      var id :| id in todo;
      todo := todo - {id};
      if id !in search.states {
        ok := search.Visit(id, []);
        if !ok {
          return false;
        }
      }
    }
    AllEndMeansAcyclic(profiles);
    return true;
  }

  method ValidateTargets(profiles: Catalog) returns (ok: bool)
    ensures ok <==> AllFieldsOk(profiles) && TargetsExist(profiles)
  {
    var todo := profiles.Keys;
    while todo != {}
      invariant todo <= profiles.Keys
      invariant forall id :: id in profiles && id !in todo ==>
                  FieldsOk(id, profiles[id].mode, profiles[id].backup, profiles[id].indexes, profiles[id].active)
                  && (profiles[id].mode == PROFILE ==> profiles[id].backup in profiles)
    {
      var id :| id in todo;
      todo := todo - {id};
      var p := profiles[id];
      ok := ValidateFallbackFields(id, p.mode, p.backup, p.indexes, p.active);
      if !ok {
        return false;
      }
      if p.mode == PROFILE && p.backup !in profiles {
        return false;
      }
    }
    return true;
  }
}
