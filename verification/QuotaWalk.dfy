/** The two recursive walks over a quota response. Both hand flags down from object to
    object; what they find is defined here by paths alone, and proved to be what the walks
    return in whatever order objects list their keys. */
module QuotaWalk {
  import opened Basics
  import opened Domain
  import opened JsonTree
  import opened QuotaTime

  const UsedKeys: seq<string> := ["used_percent", "usedPercent", "used_percentage"]
  const SecondsKeys: seq<string> := ["limit_window_seconds", "window_seconds", "windowSeconds", "duration_seconds"]
  const WindowResetKeys: seq<string> := ["resets_at", "reset_at", "resetsAt", "resetAt", "reset_time", "resetTime"]
  const WindowAfterKeys: seq<string> := ["resets_in_seconds", "reset_after_seconds", "resetsInSeconds", "resetAfterSeconds"]

  /** Lower-case names the walk for resets looks for. */
  const AbsoluteKeys: set<string> := {"resets_at", "reset_at", "resetsat", "resetat", "reset_time", "resetime"}
  const RelativeKeys: set<string> := {"resets_in_seconds", "reset_after_seconds", "resetsinseconds", "resetafterseconds"}

  // ---------------------------------------------------------------- one window

  function ToNumber(env: Env, v: Json): Option<real> {
    match v
    case Number(text) => env.float(text)
    case Text(text) => env.float(TrimSpace(text))
    case _ => None
  }

  function NumberField(env: Env, m: map<string, Json>, keys: seq<string>): Option<real> {
    if keys == [] then None
    else if keys[0] in m && ToNumber(env, m[keys[0]]).Some? then ToNumber(env, m[keys[0]])
    else NumberField(env, m, keys[1..])
  }

  function FirstAbsolute(env: Env, m: map<string, Json>, keys: seq<string>): (r: Option<Time>)
    ensures r.Some? ==> ValidReset(r.value, env.now)
  {
    if keys == [] then None
    else if keys[0] in m && ParseTimeValue(env, m[keys[0]]).Some? then ParseTimeValue(env, m[keys[0]])
    else FirstAbsolute(env, m, keys[1..])
  }

  function FirstRelative(env: Env, m: map<string, Json>, keys: seq<string>): (r: Option<Time>)
    ensures r.Some? ==> ValidReset(r.value, env.now)
  {
    if keys == [] then None
    else if keys[0] in m && AfterSeconds(env, m[keys[0]]).Some? then AfterSeconds(env, m[keys[0]])
    else FirstRelative(env, m, keys[1..])
  }

  function WindowReset(env: Env, m: map<string, Json>): (r: Option<Time>)
    ensures r.Some? ==> ValidReset(r.value, env.now)
  {
    if FirstAbsolute(env, m, WindowResetKeys).Some? then FirstAbsolute(env, m, WindowResetKeys)
    else FirstRelative(env, m, WindowAfterKeys)
  }

  const MAX_INT64: real := 9_223_372_036_854_775_808.0

  function ParseWindow(env: Env, m: map<string, Json>, family: string): Option<QuotaWindow> {
    var used := NumberField(env, m, UsedKeys);
    var limit := BoolField(m, LimitKeys);
    var allowed := BoolField(m, AllowedKeys);
    var seconds := NumberField(env, m, SecondsKeys);
    var reset := WindowReset(env, m);
    if used.None? && limit.None? && allowed.None? && seconds.None? && reset.None? then None
    else
      var w := QuotaWindow(SafeFamily(family), used, limit == Some(true), allowed, false,
                           if reset.Some? then reset.value else ZERO_TIME,
                           if seconds.Some? && 0.0 <= seconds.value <= MAX_INT64 then seconds.value.Floor else 0);
      Some(w.(blocking := w.IsExhausted()))
  }

  /** A window's own evidence: the flags of its object, or a used percentage of 100 or more. Its
      reset, if it has one, lies within a year after now. */
  lemma OwnEvidence(env: Env, m: map<string, Json>, family: string)
    ensures var w := ParseWindow(env, m, family);
            var used := NumberField(env, m, UsedKeys);
            && (w.Some? && w.value.IsExhausted() <==> SaysLimit(m) || SaysDenied(m) || (used.Some? && used.value >= 100.0))
            && (w.Some? ==> w.value.blocking == w.value.IsExhausted()
                            && (w.value.resetAt == ZERO_TIME || ValidReset(w.value.resetAt, env.now)))
  {
  }

  /** A window under the flags handed down to it. */
  function Marked(w: QuotaWindow, limit: bool, denied: bool): QuotaWindow {
    var out := w.(limitReached := w.limitReached || limit, allowed := if denied then Some(false) else w.allowed);
    out.(blocking := out.IsExhausted())
  }

  // ---------------------------------------------------------------- reading one object

  datatype ResetClass = Absolute | Relative

  function KeyReset(env: Env, key: string, v: Json, c: ResetClass): (r: Option<Time>)
    ensures r.Some? ==> ValidReset(r.value, env.now)
  {
    var name := ToLower(TrimSpace(key));
    match c
    case Absolute => if name in AbsoluteKeys then ParseTimeValue(env, v) else None
    case Relative => if name in RelativeKeys then AfterSeconds(env, v) else None
  }

  /** A name the walk for resets looks for, in the given class. */
  predicate Collects(key: string, c: ResetClass) {
    ToLower(TrimSpace(key)) in (if c.Absolute? then AbsoluteKeys else RelativeKeys)
  }

  lemma ResetTimeName()
    ensures WindowResetKeys[5] == "resetTime" && !Collects("resetTime", Absolute) && !Collects("resetTime", Relative)
  {
    TrimSpaceClean("resetTime");
    assert ToLower("resetTime") == "resettime";
  }

  lemma AbsoluteNames(key: string)
    requires key in WindowResetKeys && key != "resetTime"
    ensures Collects(key, Absolute)
  {
    TrimSpaceClean(key);
    if key == "resetsAt" {
      assert ToLower(key) == "resetsat";
    } else if key == "resetAt" {
      assert ToLower(key) == "resetat";
    } else {
      assert ToLower(key) == key;
    }
  }

  lemma RelativeLower()
    ensures ToLower("resetsInSeconds") == "resetsinseconds" && ToLower("resetAfterSeconds") == "resetafterseconds"
  {
  }

  lemma SnakeLower()
    ensures ToLower("resets_in_seconds") == "resets_in_seconds" && ToLower("reset_after_seconds") == "reset_after_seconds"
  {
  }

  lemma RelativeNames(key: string)
    requires key in WindowAfterKeys
    ensures Collects(key, Relative)
  {
    TrimSpaceClean(key);
    RelativeLower();
    SnakeLower();
  }

  /** Of the names under which a window's reset instant is read, all but one are read alike by
      the walk for resets: it looks for a misspelt "resetime", and so misses "resetTime"
      wherever that holds a time. The names for relative resets agree. */
  lemma NamesCollected(env: Env, key: string)
    ensures key in WindowResetKeys ==>
              ((forall v :: KeyReset(env, key, v, Absolute) == ParseTimeValue(env, v))
               <==> key != "resetTime" || forall v :: ParseTimeValue(env, v).None?)
    ensures key in WindowAfterKeys ==> forall v :: KeyReset(env, key, v, Relative) == AfterSeconds(env, v)
  {
    ResetTimeName();
    if key in WindowResetKeys && key != "resetTime" {
      AbsoluteNames(key);
    }
    if key in WindowAfterKeys {
      RelativeNames(key);
    }
  }

  /** How single objects and fields are read; the walks do not depend on it. */
  datatype Reader = Reader(window: (map<string, Json>, string) -> Option<QuotaWindow>,
                           reset: (string, Json, ResetClass) -> Option<Time>)

  function ReaderFor(env: Env): Reader {
    Reader((m, family) => ParseWindow(env, m, family), (key, v, c) => KeyReset(env, key, v, c))
  }

  // ---------------------------------------------------------------- meaning, by paths

  /** The window at a path, if there is one: its own fields, and what the objects on the way
      to it say. */
  ghost function PathWindow(rd: Reader, root: Json, p: Path): Option<QuotaWindow> {
    if ObjectAt(root, p) && IsCandidate(PathText(p)) then
      var w := rd.window(At(root, p).value.fields, FamilyName(PathText(p)));
      if w.None? then None
      else Some(Marked(w.value, OnPath(root, p, LimitReached), OnPath(root, p, Denied)))
    else None
  }

  /** A window blocks exactly when it carries its own evidence or an object on its path says
      that the limit is reached or that use is not allowed; else it is as its object says. */
  lemma BlockingByPath(rd: Reader, root: Json, p: Path)
    requires PathWindow(rd, root, p).Some?
    ensures PathWindow(rd, root, p).value.blocking
            <==> rd.window(At(root, p).value.fields, FamilyName(PathText(p))).value.IsExhausted()
                 || OnPath(root, p, LimitReached) || OnPath(root, p, Denied)
    ensures var own, w := rd.window(At(root, p).value.fields, FamilyName(PathText(p))).value, PathWindow(rd, root, p).value;
            && w.family == own.family && w.usedPercent == own.usedPercent && w.resetAt == own.resetAt && w.windowSeconds == own.windowSeconds
            && (w.limitReached <==> own.limitReached || OnPath(root, p, LimitReached))
            && (w.allowed == own.allowed || (w.allowed == Some(false) && OnPath(root, p, Denied)))
  {
  }

  /** Resets written into a window that is parsed and does not block are not evidence. */
  ghost predicate IncludesResets(rd: Reader, root: Json, p: Path) {
    PathWindow(rd, root, p).None? || PathWindow(rd, root, p).value.IsExhausted()
  }

  /** The reset a field at a path contributes to a class. */
  ghost function FieldReset(rd: Reader, root: Json, p: Path, c: ResetClass): Option<Time> {
    if p != [] && p[|p| - 1].Key? && At(root, p).Some? && ObjectAt(root, p[..|p| - 1])
       && IncludesResets(rd, root, p[..|p| - 1])
    then rd.reset(p[|p| - 1].k, At(root, p).value, c)
    else None
  }

  // ---------------------------------------------------------------- regions of paths

  predicate Extends(p: Path, at: Path) {
    at <= p
  }

  ghost function Under(at: Path): iset<Path> {
    iset p: Path | Extends(p, at)
  }

  ghost function Below(at: Path, steps: set<Step>): iset<Path> {
    iset p: Path | Extends(p, at) && |at| < |p| && p[|at|] in steps
  }

  lemma BelowGrows(at: Path, steps: set<Step>, s: Step)
    requires s !in steps
    ensures Below(at, steps + {s}) == Below(at, steps) + Under(at + [s])
    ensures Below(at, steps) !! Under(at + [s])
  {
    forall p
      ensures p in Under(at + [s]) <==> p in Below(at, {s})
    {
      if at <= p && |at| < |p| && p[|at|] == s {
        assert p[..|at| + 1] == at + [s];
      }
    }
  }

  // ---------------------------------------------------------------- collecting windows

  /** `out` lists the windows of a region, each path once; `paths` names them. */
  ghost predicate Collected(rd: Reader, root: Json, region: iset<Path>, out: seq<QuotaWindow>, paths: seq<Path>) {
    Listed(rd, root, region, out, paths) && Distinct(paths) && Complete(rd, root, region, paths)
  }

  ghost predicate Listed(rd: Reader, root: Json, region: iset<Path>, out: seq<QuotaWindow>, paths: seq<Path>) {
    && |out| == |paths|
    && forall i :: 0 <= i < |paths| ==> paths[i] in region && PathWindow(rd, root, paths[i]) == Some(out[i])
  }

  ghost predicate Distinct(paths: seq<Path>) {
    forall i, j :: 0 <= i < j < |paths| ==> paths[i] != paths[j]
  }

  ghost predicate Complete(rd: Reader, root: Json, region: iset<Path>, paths: seq<Path>) {
    forall p :: p in region && PathWindow(rd, root, p).Some? ==> p in paths
  }

  lemma DistinctJoin(r1: iset<Path>, paths1: seq<Path>, r2: iset<Path>, paths2: seq<Path>)
    requires r1 !! r2 && Distinct(paths1) && Distinct(paths2)
    requires forall i :: 0 <= i < |paths1| ==> paths1[i] in r1
    requires forall i :: 0 <= i < |paths2| ==> paths2[i] in r2
    ensures Distinct(paths1 + paths2)
  {
  }

  lemma ListedJoin(rd: Reader, root: Json, r1: iset<Path>, out1: seq<QuotaWindow>, paths1: seq<Path>,
                   r2: iset<Path>, out2: seq<QuotaWindow>, paths2: seq<Path>)
    requires Listed(rd, root, r1, out1, paths1) && Listed(rd, root, r2, out2, paths2)
    ensures Listed(rd, root, r1 + r2, out1 + out2, paths1 + paths2)
  {
  }

  lemma CollectedJoin(rd: Reader, root: Json, r1: iset<Path>, out1: seq<QuotaWindow>, paths1: seq<Path>,
                      r2: iset<Path>, out2: seq<QuotaWindow>, paths2: seq<Path>)
    requires r1 !! r2 && Collected(rd, root, r1, out1, paths1) && Collected(rd, root, r2, out2, paths2)
    ensures Collected(rd, root, r1 + r2, out1 + out2, paths1 + paths2)
  {
    DistinctJoin(r1, paths1, r2, paths2);
    ListedJoin(rd, root, r1, out1, paths1, r2, out2, paths2);
    forall p | p in r1 + r2 && PathWindow(rd, root, p).Some?
      ensures p in paths1 + paths2
    {
      assert p in paths1 || p in paths2;
    }
  }

  /** Paths that lead to no window may be added to a region. */
  lemma CollectedWiden(rd: Reader, root: Json, r: iset<Path>, wider: iset<Path>, out: seq<QuotaWindow>, paths: seq<Path>)
    requires Collected(rd, root, r, out, paths) && r <= wider
    requires forall p :: p in wider && p !in r ==> PathWindow(rd, root, p).None?
    ensures Collected(rd, root, wider, out, paths)
  {
  }

  /** One more child of the node at `at`. */
  lemma CollectedStep(rd: Reader, root: Json, at: Path, here: iset<Path>, steps: set<Step>, s: Step,
                      out: seq<QuotaWindow>, paths: seq<Path>, more: seq<QuotaWindow>, morePaths: seq<Path>)
    requires s !in steps && here <= iset{at}
    requires Collected(rd, root, here + Below(at, steps), out, paths)
    requires Collected(rd, root, Under(at + [s]), more, morePaths)
    ensures Collected(rd, root, here + Below(at, steps + {s}), out + more, paths + morePaths)
  {
    BelowGrows(at, steps, s);
    CollectedJoin(rd, root, here + Below(at, steps), out, paths, Under(at + [s]), more, morePaths);
    assert here + Below(at, steps) + Under(at + [s]) == here + Below(at, steps + {s});
  }

  /** A path that goes on from `at` goes through a child of the node there. */
  lemma ThroughChild(root: Json, at: Path, p: Path)
    requires at <= p && |at| < |p| && At(root, p).Some? && At(root, at).Some?
    ensures Child(At(root, at).value, p[|at|]).Some?
  {
    PrefixExists(root, p, |at| + 1);
    assert p[..|at| + 1] == at + [p[|at|]];
    AtChild(root, at, p[|at|]);
  }

  ghost predicate Standing(root: Json, at: Path, value: Json, path: string, limit: bool, denied: bool) {
    && At(root, at) == Some(value) && path == PathText(at)
    && (limit <==> Above(root, at, LimitReached)) && (denied <==> Above(root, at, Denied))
  }

  lemma StandingChild(root: Json, at: Path, value: Json, path: string, limit: bool, denied: bool, s: Step)
    requires Standing(root, at, value, path, limit, denied) && Child(value, s).Some?
    ensures var l := limit || (value.Obj? && SaysLimit(value.fields));
            var d := denied || (value.Obj? && SaysDenied(value.fields));
            && Standing(root, at + [s], Child(value, s).value, Extend(path, s), l, d)
            && (OnPath(root, at, LimitReached) <==> l) && (OnPath(root, at, Denied) <==> d)
  {
    AtChild(root, at, s);
    PathTextExtend(at, s);
    OnPathIsAboveOrHere(root, at, LimitReached);
    OnPathIsAboveOrHere(root, at, Denied);
    AboveChild(root, at, s, LimitReached);
    AboveChild(root, at, s, Denied);
  }

  /** Where the node at `at` has only these children, a complete region below it is all. */
  lemma WholeRegion(rd: Reader, root: Json, at: Path, steps: set<Step>, here: iset<Path>, out: seq<QuotaWindow>, paths: seq<Path>)
    requires At(root, at).Some? && here <= iset{at}
    requires forall s :: Child(At(root, at).value, s).Some? ==> s in steps
    requires at in here || PathWindow(rd, root, at).None?
    requires Collected(rd, root, here + Below(at, steps), out, paths)
    ensures Collected(rd, root, Under(at), out, paths)
  {
    forall p | p in Under(at) && p !in here + Below(at, steps)
      ensures PathWindow(rd, root, p).None?
    {
      if |p| == |at| {
        assert p == at;
      } else if PathWindow(rd, root, p).Some? {
        ThroughChild(root, at, p);
        assert false;
      }
    }
    CollectedWiden(rd, root, here + Below(at, steps), Under(at), out, paths);
  }

  ghost predicate AllItems(value: Json, steps: set<Step>) {
    value.Arr? && forall s :: s in steps <==> s.Index? && s.i < |value.items|
  }

  ghost predicate AllFields(value: Json, steps: set<Step>) {
    value.Obj? && forall s :: s in steps <==> s.Key? && s.k in value.fields
  }

  lemma WholeNode(rd: Reader, root: Json, at: Path, value: Json, steps: set<Step>, here: iset<Path>,
                  out: seq<QuotaWindow>, paths: seq<Path>)
    requires At(root, at) == Some(value)
    requires (AllItems(value, steps) && here == iset{}) || (AllFields(value, steps) && here == iset{at})
    requires Collected(rd, root, here + Below(at, steps), out, paths)
    ensures Collected(rd, root, Under(at), out, paths)
  {
    forall s | Child(value, s).Some?
      ensures s in steps
    {
    }
    WholeRegion(rd, root, at, steps, here, out, paths);
  }

  /** collectWindows */
  method CollectWindows(rd: Reader, ghost root: Json, ghost at: Path, value: Json, path: string, limit: bool, denied: bool)
    returns (out: seq<QuotaWindow>, ghost paths: seq<Path>)
    requires Standing(root, at, value, path, limit, denied)
    ensures Collected(rd, root, Under(at), out, paths)
    decreases value, 3
  {
    out, paths := [], [];
    match value
    case Arr(items) =>
      out, paths := CollectItems(rd, root, at, value, path, limit, denied);
    case Obj(fields) =>
      out, paths := CollectFields(rd, root, at, value, path, limit, denied);
    case _ =>
      assert iset{} + Below(at, {}) == iset{};
      WholeRegion(rd, root, at, {}, iset{}, out, paths);
  }

  function Indexes(n: nat): set<Step> {
    set i | 0 <= i < n :: Index(i)
  }

  lemma IndexesGrow(n: nat)
    ensures Index(n) !in Indexes(n) && Indexes(n + 1) == Indexes(n) + {Index(n)}
  {
  }

  method CollectItems(rd: Reader, ghost root: Json, ghost at: Path, value: Json, path: string, limit: bool, denied: bool)
    returns (out: seq<QuotaWindow>, ghost paths: seq<Path>)
    requires Standing(root, at, value, path, limit, denied) && value.Arr?
    ensures Collected(rd, root, Under(at), out, paths)
    decreases value, 1
  {
    out, paths := [], [];
    assert iset{} + Below(at, Indexes(0)) == iset{};
    for i := 0 to |value.items|
      invariant Collected(rd, root, iset{} + Below(at, Indexes(i)), out, paths)
    {
      var more; ghost var morePaths;
      more, morePaths := CollectItem(rd, root, at, value, path, limit, denied, i);
      IndexesGrow(i);
      CollectedStep(rd, root, at, iset{}, Indexes(i), Index(i), out, paths, more, morePaths);
      out, paths := out + more, paths + morePaths;
    }
    WholeNode(rd, root, at, value, Indexes(|value.items|), iset{}, out, paths);
  }

  method CollectItem(rd: Reader, ghost root: Json, ghost at: Path, value: Json, path: string, limit: bool, denied: bool, i: nat)
    returns (out: seq<QuotaWindow>, ghost paths: seq<Path>)
    requires Standing(root, at, value, path, limit, denied) && value.Arr? && i < |value.items|
    ensures Collected(rd, root, Under(at + [Index(i)]), out, paths)
    decreases value, 0
  {
    StandingChild(root, at, value, path, limit, denied, Index(i));
    out, paths := CollectWindows(rd, root, at + [Index(i)], value.items[i], path + "." + Decimal(i), limit, denied);
  }

  /** The window of the object itself, under the flags handed down and its own. */
  method OwnWindow(rd: Reader, ghost root: Json, ghost at: Path, value: Json, path: string, limit: bool, denied: bool)
    returns (out: seq<QuotaWindow>, ghost paths: seq<Path>)
    requires At(root, at) == Some(value) && value.Obj? && path == PathText(at)
    requires (limit <==> OnPath(root, at, LimitReached)) && (denied <==> OnPath(root, at, Denied))
    ensures Collected(rd, root, iset{at}, out, paths)
  {
    out, paths := [], [];
    if IsCandidate(path) {
      var w := rd.window(value.fields, FamilyName(path));
      if w.Some? {
        out, paths := [Marked(w.value, limit, denied)], [at];
      }
    }
  }

  method CollectFields(rd: Reader, ghost root: Json, ghost at: Path, value: Json, path: string, limit: bool, denied: bool)
    returns (out: seq<QuotaWindow>, ghost paths: seq<Path>)
    requires Standing(root, at, value, path, limit, denied) && value.Obj?
    ensures Collected(rd, root, Under(at), out, paths)
    decreases value, 2
  {
    OnPathIsAboveOrHere(root, at, LimitReached);
    OnPathIsAboveOrHere(root, at, Denied);
    var m := value.fields;
    out, paths := OwnWindow(rd, root, at, value, path, limit || SaysLimit(m), denied || SaysDenied(m));
    out, paths := CollectMembers(rd, root, at, value, path, limit, denied, out, paths);
  }

  /** The members of an object, in any order, added to what was found so far. */
  method CollectMembers(rd: Reader, ghost root: Json, ghost at: Path, value: Json, path: string, limit: bool, denied: bool,
                        found: seq<QuotaWindow>, ghost foundPaths: seq<Path>)
    returns (out: seq<QuotaWindow>, ghost paths: seq<Path>)
    requires Standing(root, at, value, path, limit, denied) && value.Obj?
    requires Collected(rd, root, iset{at}, found, foundPaths)
    ensures Collected(rd, root, Under(at), out, paths)
    decreases value, 1
  {
    out, paths := found, foundPaths;
    var m := value.fields;
    ghost var steps: set<Step> := {};
    assert iset{at} + Below(at, {}) == iset{at};
    var todo := m.Keys;
    while todo != {}
      invariant todo <= m.Keys
      invariant forall s :: s in steps <==> s.Key? && s.k in m && s.k !in todo
      invariant Collected(rd, root, iset{at} + Below(at, steps), out, paths)
    {
      var key :| key in todo;
      todo := todo - {key};
      var more; ghost var morePaths;
      more, morePaths := CollectMember(rd, root, at, value, path, limit, denied, key);
      CollectedStep(rd, root, at, iset{at}, steps, Key(key), out, paths, more, morePaths);
      out, paths := out + more, paths + morePaths;
      steps := steps + {Key(key)};
    }
    assert AllFields(value, steps);
    WholeNode(rd, root, at, value, steps, iset{at}, out, paths);
  }

  method CollectMember(rd: Reader, ghost root: Json, ghost at: Path, value: Json, path: string, limit: bool, denied: bool,
                       key: string)
    returns (out: seq<QuotaWindow>, ghost paths: seq<Path>)
    requires Standing(root, at, value, path, limit, denied) && value.Obj? && key in value.fields
    ensures Collected(rd, root, Under(at + [Key(key)]), out, paths)
    decreases value, 0
  {
    var m := value.fields;
    StandingChild(root, at, value, path, limit, denied, Key(key));
    out, paths := CollectWindows(rd, root, at + [Key(key)], m[key], if path == "" then key else path + "." + key,
                                 limit || SaysLimit(m), denied || SaysDenied(m));
  }
}
