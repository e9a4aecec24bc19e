/** Which reset time a quota event gets: structured fields first, then blocking windows, then
    Codex headers, then Retry-After (section 10.2.3 of RFC 9110), the latest in the winning
    class. */
module QuotaResets {
  import opened Basics
  import opened Domain
  import opened JsonTree
  import opened QuotaTime
  import opened QuotaWalk

  // ---------------------------------------------------------------- the structured walk

  /** `times` are the resets the fields of a region contribute to a class. */
  ghost predicate Gathered(rd: Reader, root: Json, region: iset<Path>, c: ResetClass, times: seq<Time>) {
    && (forall t :: t in times ==> exists p :: p in region && FieldReset(rd, root, p, c) == Some(t))
    && (forall p :: p in region && FieldReset(rd, root, p, c).Some? ==> FieldReset(rd, root, p, c).value in times)
  }

  ghost predicate Found(rd: Reader, root: Json, region: iset<Path>, absolute: seq<Time>, relative: seq<Time>) {
    Gathered(rd, root, region, Absolute, absolute) && Gathered(rd, root, region, Relative, relative)
  }

  lemma GatheredJoin(rd: Reader, root: Json, c: ResetClass, r1: iset<Path>, a: seq<Time>, r2: iset<Path>, b: seq<Time>)
    requires Gathered(rd, root, r1, c, a) && Gathered(rd, root, r2, c, b)
    ensures Gathered(rd, root, r1 + r2, c, a + b)
  {
    forall t | t in a + b
      ensures exists p :: p in r1 + r2 && FieldReset(rd, root, p, c) == Some(t)
    {
      if t in a {
        var p :| p in r1 && FieldReset(rd, root, p, c) == Some(t);
        assert p in r1 + r2;
      } else {
        var p :| p in r2 && FieldReset(rd, root, p, c) == Some(t);
        assert p in r1 + r2;
      }
    }
  }

  ghost function StrictlyUnder(at: Path): iset<Path> {
    iset p: Path | Extends(p, at) && |at| < |p|
  }

  lemma UnderSplits(at: Path)
    ensures Under(at) == iset{at} + StrictlyUnder(at)
  {
    forall p | p in Under(at)
      ensures p == at || p in StrictlyUnder(at)
    {
      assert p[..|p|] == p;
    }
  }

  lemma FoundJoin(rd: Reader, root: Json, r1: iset<Path>, abs1: seq<Time>, rel1: seq<Time>,
                  r2: iset<Path>, abs2: seq<Time>, rel2: seq<Time>)
    requires Found(rd, root, r1, abs1, rel1) && Found(rd, root, r2, abs2, rel2)
    ensures Found(rd, root, r1 + r2, abs1 + abs2, rel1 + rel2)
  {
    GatheredJoin(rd, root, Absolute, r1, abs1, r2, abs2);
    GatheredJoin(rd, root, Relative, r1, rel1, r2, rel2);
  }

  /** A child: its own field, then what lies below it. */
  lemma FoundChild(rd: Reader, root: Json, p: Path, own: seq<Time>, ownRel: seq<Time>, below: seq<Time>, belowRel: seq<Time>)
    requires Found(rd, root, iset{p}, own, ownRel) && Found(rd, root, StrictlyUnder(p), below, belowRel)
    ensures Found(rd, root, Under(p), own + below, ownRel + belowRel)
  {
    UnderSplits(p);
    FoundJoin(rd, root, iset{p}, own, ownRel, StrictlyUnder(p), below, belowRel);
  }

  lemma FoundStep(rd: Reader, root: Json, at: Path, steps: set<Step>, s: Step, abs: seq<Time>, rel: seq<Time>,
                  more: seq<Time>, moreRel: seq<Time>)
    requires s !in steps && Found(rd, root, Below(at, steps), abs, rel) && Found(rd, root, Under(at + [s]), more, moreRel)
    ensures Found(rd, root, Below(at, steps + {s}), abs + more, rel + moreRel)
  {
    BelowGrows(at, steps, s);
    FoundJoin(rd, root, Below(at, steps), abs, rel, Under(at + [s]), more, moreRel);
  }

  lemma FoundWhole(rd: Reader, root: Json, at: Path, value: Json, steps: set<Step>, abs: seq<Time>, rel: seq<Time>)
    requires At(root, at) == Some(value)
    requires forall s :: Child(value, s).Some? ==> s in steps
    requires Found(rd, root, Below(at, steps), abs, rel)
    ensures Found(rd, root, StrictlyUnder(at), abs, rel)
  {
    forall p, c | p in StrictlyUnder(at) && FieldReset(rd, root, p, c).Some?
      ensures p in Below(at, steps)
    {
      ThroughChild(root, at, p);
    }
    assert Below(at, steps) <= StrictlyUnder(at);
  }

  /** Whether resets written into the object at `at` count. */
  method ResetsCount(rd: Reader, ghost root: Json, ghost at: Path, value: Json, path: string, limit: bool, denied: bool)
    returns (counts: bool)
    requires At(root, at) == Some(value) && value.Obj? && path == PathText(at)
    requires (limit <==> OnPath(root, at, LimitReached)) && (denied <==> OnPath(root, at, Denied))
    ensures counts <==> IncludesResets(rd, root, at)
  {
    counts := true;
    if IsCandidate(path) {
      var window := rd.window(value.fields, FamilyName(path));
      if window.Some? {
        counts := Marked(window.value, limit, denied).IsExhausted();
      }
    }
  }

  method OwnField(rd: Reader, ghost root: Json, ghost at: Path, fields: map<string, Json>, key: string, counts: bool)
    returns (absolute: seq<Time>, relative: seq<Time>)
    requires At(root, at) == Some(Obj(fields)) && key in fields && (counts <==> IncludesResets(rd, root, at))
    ensures Found(rd, root, iset{at + [Key(key)]}, absolute, relative)
  {
    absolute, relative := [], [];
    AtChild(root, at, Key(key));
    ghost var p := at + [Key(key)];
    assert p[..|p| - 1] == at;
    if counts {
      var reset := rd.reset(key, fields[key], Absolute);
      if reset.Some? {
        absolute := [reset.value];
      }
      reset := rd.reset(key, fields[key], Relative);
      if reset.Some? {
        relative := [reset.value];
      }
    }
  }

  lemma IndexHasNoField(rd: Reader, root: Json, at: Path, i: nat, abs: seq<Time>, rel: seq<Time>)
    requires Found(rd, root, StrictlyUnder(at + [Index(i)]), abs, rel)
    ensures Found(rd, root, Under(at + [Index(i)]), abs, rel)
  {
    UnderSplits(at + [Index(i)]);
    assert FieldReset(rd, root, at + [Index(i)], Absolute).None? && FieldReset(rd, root, at + [Index(i)], Relative).None?;
  }

  /** The inner function of structuredReset. */
  method Walk(rd: Reader, ghost root: Json, ghost at: Path, value: Json, path: string, limit: bool, denied: bool)
    returns (absolute: seq<Time>, relative: seq<Time>)
    requires Standing(root, at, value, path, limit, denied)
    ensures Found(rd, root, StrictlyUnder(at), absolute, relative)
    decreases value, 3
  {
    match value
    case Arr(_) =>
      absolute, relative := WalkItems(rd, root, at, value, path, limit, denied);
    case Obj(_) =>
      absolute, relative := WalkFields(rd, root, at, value, path, limit, denied);
    case _ =>
      absolute, relative := [], [];
      assert Below(at, {}) == iset{};
      FoundWhole(rd, root, at, value, {}, [], []);
  }

  method WalkItems(rd: Reader, ghost root: Json, ghost at: Path, value: Json, path: string, limit: bool, denied: bool)
    returns (absolute: seq<Time>, relative: seq<Time>)
    requires Standing(root, at, value, path, limit, denied) && value.Arr?
    ensures Found(rd, root, StrictlyUnder(at), absolute, relative)
    decreases value, 1
  {
    absolute, relative := [], [];
    ghost var steps: set<Step> := {};
    assert Below(at, {}) == iset{};
    for i := 0 to |value.items|
      invariant forall s :: s in steps <==> s.Index? && s.i < i
      invariant Found(rd, root, Below(at, steps), absolute, relative)
    {
      StandingChild(root, at, value, path, limit, denied, Index(i));
      var abs, rel := Walk(rd, root, at + [Index(i)], value.items[i], path + "." + Decimal(i), limit, denied);
      IndexHasNoField(rd, root, at, i, abs, rel);
      FoundStep(rd, root, at, steps, Index(i), absolute, relative, abs, rel);
      absolute, relative := absolute + abs, relative + rel;
      steps := steps + {Index(i)};
    }
    assert AllItems(value, steps);
    FoundWhole(rd, root, at, value, steps, absolute, relative);
  }

  method WalkFields(rd: Reader, ghost root: Json, ghost at: Path, value: Json, path: string, limit: bool, denied: bool)
    returns (absolute: seq<Time>, relative: seq<Time>)
    requires Standing(root, at, value, path, limit, denied) && value.Obj?
    ensures Found(rd, root, StrictlyUnder(at), absolute, relative)
    decreases value, 2
  {
    OnPathIsAboveOrHere(root, at, LimitReached);
    OnPathIsAboveOrHere(root, at, Denied);
    var m := value.fields;
    var counts := ResetsCount(rd, root, at, value, path, limit || SaysLimit(m), denied || SaysDenied(m));
    absolute, relative := WalkMembers(rd, root, at, value, path, limit, denied, counts);
  }

  method WalkMembers(rd: Reader, ghost root: Json, ghost at: Path, value: Json, path: string, limit: bool, denied: bool,
                     counts: bool)
    returns (absolute: seq<Time>, relative: seq<Time>)
    requires Standing(root, at, value, path, limit, denied) && value.Obj? && (counts <==> IncludesResets(rd, root, at))
    ensures Found(rd, root, StrictlyUnder(at), absolute, relative)
    decreases value, 1
  {
    absolute, relative := [], [];
    ghost var steps: set<Step> := {};
    assert Below(at, {}) == iset{};
    var todo := value.fields.Keys;
    while todo != {}
      invariant todo <= value.fields.Keys
      invariant forall s :: s in steps <==> s.Key? && s.k in value.fields && s.k !in todo
      invariant Found(rd, root, Below(at, steps), absolute, relative)
    {
      var key :| key in todo;
      todo := todo - {key};
      var more, moreRel := WalkMember(rd, root, at, value, path, limit, denied, counts, key);
      FoundStep(rd, root, at, steps, Key(key), absolute, relative, more, moreRel);
      absolute, relative := absolute + more, relative + moreRel;
      steps := steps + {Key(key)};
    }
    assert AllFields(value, steps);
    FoundWhole(rd, root, at, value, steps, absolute, relative);
  }

  method WalkMember(rd: Reader, ghost root: Json, ghost at: Path, value: Json, path: string, limit: bool, denied: bool,
                    counts: bool, key: string)
    returns (absolute: seq<Time>, relative: seq<Time>)
    requires Standing(root, at, value, path, limit, denied) && value.Obj? && (counts <==> IncludesResets(rd, root, at))
    requires key in value.fields
    ensures Found(rd, root, Under(at + [Key(key)]), absolute, relative)
    decreases value, 0
  {
    var m := value.fields;
    var own, ownRel := OwnField(rd, root, at, m, key, counts);
    StandingChild(root, at, value, path, limit, denied, Key(key));
    var below, belowRel := Walk(rd, root, at + [Key(key)], m[key], if path == "" then key else path + "." + key,
                                limit || SaysLimit(m), denied || SaysDenied(m));
    FoundChild(rd, root, at + [Key(key)], own, ownRel, below, belowRel);
    absolute, relative := own + below, ownRel + belowRel;
  }

  // ---------------------------------------------------------------- the latest of a class

  method Latest(times: seq<Time>) returns (latest: Time)
    requires forall t :: t in times ==> t > ZERO_TIME
    ensures latest == ZERO_TIME <==> times == []
    ensures latest != ZERO_TIME ==> latest in times
    ensures forall t :: t in times ==> t <= latest
  {
    latest := ZERO_TIME;
    for i := 0 to |times|
      invariant latest == ZERO_TIME <==> i == 0
      invariant latest >= ZERO_TIME && (latest != ZERO_TIME ==> latest in times)
      invariant forall k :: 0 <= k < i ==> times[k] <= latest
    {
      assert times[i] in times;
      if times[i] > latest {
        latest := times[i];
      }
    }
  }

  /** `t` is the latest reset the response's fields contribute to a class. */
  ghost predicate LatestField(rd: Reader, root: Json, c: ResetClass, t: Time) {
    && (exists p :: FieldReset(rd, root, p, c) == Some(t))
    && (forall p :: FieldReset(rd, root, p, c).Some? ==> FieldReset(rd, root, p, c).value <= t)
  }

  ghost predicate HasField(rd: Reader, root: Json, c: ResetClass) {
    exists p :: FieldReset(rd, root, p, c).Some?
  }

  ghost predicate StructuredIs(rd: Reader, root: Json, t: Time) {
    if HasField(rd, root, Absolute) then LatestField(rd, root, Absolute, t)
    else if HasField(rd, root, Relative) then LatestField(rd, root, Relative, t)
    else t == ZERO_TIME
  }

  predicate Scalar(v: Json) {
    !v.Arr? && !v.Obj?
  }

  /** A flat object all of whose names the walk ignores gives no structured reset. */
  lemma NothingCollected(env: Env, fields: map<string, Json>, c: ResetClass)
    requires forall k :: k in fields ==> Scalar(fields[k]) && !Collects(k, c)
    ensures !HasField(ReaderFor(env), Obj(fields), c)
  {
    var root := Obj(fields);
    forall p
      ensures FieldReset(ReaderFor(env), root, p, c).None?
    {
      if |p| > 1 {
        FlatObject(fields, p[..|p| - 1]);
      } else if |p| == 1 {
        assert At(root, p[..0]) == Some(root);
      }
    }
  }

  lemma {:induction false} FlatObject(fields: map<string, Json>, p: Path)
    requires (forall k :: k in fields ==> Scalar(fields[k])) && p != []
    ensures At(Obj(fields), p).None? || Scalar(At(Obj(fields), p).value)
    decreases |p|
  {
    if |p| > 1 {
      FlatObject(fields, p[..|p| - 1]);
    } else {
      assert At(Obj(fields), p[..0]) == Some(Obj(fields));
    }
  }

  /** A flat object whose one reset field is "resetTime": as a window it has that reset, as the
      body of a response it has none. */
  lemma ResetTimeAloneIsLost(env: Env, fields: map<string, Json>)
    requires "resetTime" in fields && forall k :: k in fields ==> Scalar(fields[k])
    requires forall k :: k in fields && k != "resetTime" ==> !Collects(k, Absolute) && !Collects(k, Relative)
    ensures WindowReset(env, fields) == ParseTimeValue(env, fields["resetTime"])
    ensures StructuredIs(ReaderFor(env), Obj(fields), ZERO_TIME)
  {
    ResetTimeName();
    NothingCollected(env, fields, Absolute);
    NothingCollected(env, fields, Relative);
    forall i | 0 <= i < |WindowAfterKeys|
      ensures WindowAfterKeys[i] !in fields
    {
      RelativeNames(WindowAfterKeys[i]);
    }
    NoneRelative(env, fields, WindowAfterKeys);
    forall i | 0 <= i < 5
      ensures WindowResetKeys[i] !in fields
    {
      AbsoluteNames(WindowResetKeys[i]);
    }
    LastAbsolute(env, fields, WindowResetKeys);
  }

  lemma {:induction false} NoneRelative(env: Env, m: map<string, Json>, keys: seq<string>)
    requires forall i :: 0 <= i < |keys| ==> keys[i] !in m
    ensures FirstRelative(env, m, keys) == None
  {
    if keys != [] {
      NoneRelative(env, m, keys[1..]);
    }
  }

  lemma {:induction false} LastAbsolute(env: Env, m: map<string, Json>, keys: seq<string>)
    requires keys != [] && (forall i :: 0 <= i < |keys| - 1 ==> keys[i] !in m) && keys[|keys| - 1] in m
    ensures FirstAbsolute(env, m, keys) == ParseTimeValue(env, m[keys[|keys| - 1]])
  {
    if |keys| > 1 {
      LastAbsolute(env, m, keys[1..]);
    }
  }

  ghost predicate PositiveTimes(rd: Reader) {
    forall key, v, c :: rd.reset(key, v, c).Some? ==> rd.reset(key, v, c).value > ZERO_TIME
  }

  lemma LatestOfGathered(rd: Reader, root: Json, c: ResetClass, times: seq<Time>, t: Time)
    requires Gathered(rd, root, StrictlyUnder([]), c, times)
    requires t in times && forall u :: u in times ==> u <= t
    ensures HasField(rd, root, c) && LatestField(rd, root, c, t)
  {
    var p :| p in StrictlyUnder([]) && FieldReset(rd, root, p, c) == Some(t);
    forall q | FieldReset(rd, root, q, c).Some?
      ensures FieldReset(rd, root, q, c).value <= t
    {
      assert q in StrictlyUnder([]);
    }
  }

  lemma NoneGathered(rd: Reader, root: Json, c: ResetClass)
    requires Gathered(rd, root, StrictlyUnder([]), c, [])
    ensures !HasField(rd, root, c)
  {
    forall q
      ensures FieldReset(rd, root, q, c).None?
    {
      assert q != [] ==> q in StrictlyUnder([]);
    }
  }

  lemma GatheredPositive(rd: Reader, root: Json, region: iset<Path>, c: ResetClass, times: seq<Time>)
    requires PositiveTimes(rd) && Gathered(rd, root, region, c, times)
    ensures forall t :: t in times ==> t > ZERO_TIME
  {
  }

  method StructuredReset(rd: Reader, root: Json) returns (t: Time)
    requires PositiveTimes(rd)
    ensures StructuredIs(rd, root, t)
    ensures t == ZERO_TIME <==> !HasField(rd, root, Absolute) && !HasField(rd, root, Relative)
  {
    assert forall k: nat, f :: !(k < 0 && PrefixSays(root, [], k, f));
    var absolute, relative := Walk(rd, root, [], root, "", false, false);
    GatheredPositive(rd, root, StrictlyUnder([]), Absolute, absolute);
    GatheredPositive(rd, root, StrictlyUnder([]), Relative, relative);
    t := Latest(absolute);
    if t != ZERO_TIME {
      LatestOfGathered(rd, root, Absolute, absolute, t);
      return;
    }
    NoneGathered(rd, root, Absolute);
    t := Latest(relative);
    if t != ZERO_TIME {
      LatestOfGathered(rd, root, Relative, relative, t);
    } else {
      NoneGathered(rd, root, Relative);
    }
  }

  // ---------------------------------------------------------------- windows and headers

  /** LatestFutureReset: the latest valid reset of a blocking window, or ZERO_TIME. */
  ghost predicate WindowResetIs(windows: seq<QuotaWindow>, now: Time, t: Time) {
    && (t == ZERO_TIME <==> forall w :: w in windows && w.blocking ==> !ValidReset(w.resetAt, now))
    && (t != ZERO_TIME ==> exists w :: w in windows && w.blocking && ValidReset(w.resetAt, now) && w.resetAt == t)
    && (forall w :: w in windows && w.blocking && ValidReset(w.resetAt, now) ==> w.resetAt <= t)
  }

  method LatestFutureReset(windows: seq<QuotaWindow>, now: Time) returns (latest: Time)
    requires now >= ZERO_TIME
    ensures WindowResetIs(windows, now, latest)
  {
    latest := ZERO_TIME;
    for i := 0 to |windows|
      invariant WindowResetIs(windows[..i], now, latest)
    {
      var w := windows[i];
      assert windows[..i + 1] == windows[..i] + [w];
      assert forall x :: x in windows[..i + 1] <==> x in windows[..i] || x == w;
      if w.resetAt > now && ValidReset(w.resetAt, now) && w.blocking && w.resetAt > latest {
        latest := w.resetAt;
      }
    }
    assert windows[..|windows|] == windows;
  }

  datatype HeaderClass = Codex | RetryAfter

  type Headers = map<string, seq<string>>

  predicate CodexName(lower: string, suffix: string) {
    HasPrefix(lower, "x-codex-") && HasSuffix(lower, suffix)
  }

  /** The reset one header value contributes to a class. */
  function HeaderValue(env: Env, name: string, raw: string, c: HeaderClass): (r: Option<Time>)
    ensures r.Some? ==> ValidReset(r.value, env.now)
  {
    var lower := ToLower(name);
    match c
    case Codex =>
      if CodexName(lower, "reset-at") then ParseTime(env, raw)
      else if CodexName(lower, "reset-after-seconds") then AfterSeconds(env, Text(raw))
      else None
    case RetryAfter => if lower == "retry-after" then ParseTime(env, raw) else None
  }

  ghost predicate InHeaders(env: Env, headers: Headers, names: set<string>, c: HeaderClass, t: Time) {
    exists name, raw :: name in names && name in headers && raw in headers[name] && HeaderValue(env, name, raw, c) == Some(t)
  }

  /** `t` is the latest the named headers give for a class; ZERO_TIME when they give none. */
  ghost predicate HeaderLatest(env: Env, headers: Headers, names: set<string>, c: HeaderClass, t: Time) {
    && (t != ZERO_TIME ==> t > ZERO_TIME && InHeaders(env, headers, names, c, t))
    && (forall u :: InHeaders(env, headers, names, c, u) ==> u <= t)
  }

  /** The latest of one header's values. */
  method LatestValue(env: Env, name: string, values: seq<string>, c: HeaderClass) returns (latest: Time)
    requires env.now >= ZERO_TIME
    ensures latest >= ZERO_TIME
    ensures latest != ZERO_TIME ==> exists raw :: raw in values && HeaderValue(env, name, raw, c) == Some(latest)
    ensures forall raw :: raw in values && HeaderValue(env, name, raw, c).Some? ==> HeaderValue(env, name, raw, c).value <= latest
  {
    latest := ZERO_TIME;
    for i := 0 to |values|
      invariant latest >= ZERO_TIME
      invariant latest != ZERO_TIME ==> exists raw :: raw in values && HeaderValue(env, name, raw, c) == Some(latest)
      invariant forall k :: 0 <= k < i && HeaderValue(env, name, values[k], c).Some? ==> HeaderValue(env, name, values[k], c).value <= latest
    {
      assert values[i] in values;
      var reset := HeaderValue(env, name, values[i], c);
      if reset.Some? && reset.value > latest {
        latest := reset.value;
      }
    }
  }

  lemma OneMoreHeader(env: Env, headers: Headers, names: set<string>, name: string, c: HeaderClass, t: Time, v: Time)
    requires HeaderLatest(env, headers, names, c, t) && name in headers && t >= ZERO_TIME && v >= ZERO_TIME
    requires v != ZERO_TIME ==> exists raw :: raw in headers[name] && HeaderValue(env, name, raw, c) == Some(v)
    requires forall raw :: raw in headers[name] && HeaderValue(env, name, raw, c).Some? ==> HeaderValue(env, name, raw, c).value <= v
    ensures HeaderLatest(env, headers, names + {name}, c, if v > t then v else t)
  {
    forall u | InHeaders(env, headers, names + {name}, c, u)
      ensures u <= v || u <= t
    {
      var n, raw :| n in names + {name} && n in headers && raw in headers[n] && HeaderValue(env, n, raw, c) == Some(u);
      if n in names {
        assert InHeaders(env, headers, names, c, u);
      }
    }
    if v > t {
      assert InHeaders(env, headers, names + {name}, c, v);
    } else if t != ZERO_TIME {
      var n, raw :| n in names && n in headers && raw in headers[n] && HeaderValue(env, n, raw, c) == Some(t);
      assert InHeaders(env, headers, names + {name}, c, t);
    }
  }

  method OneHeader(env: Env, headers: Headers, ghost names: set<string>, name: string, c: HeaderClass, soFar: Time)
    returns (latest: Time)
    requires env.now >= ZERO_TIME && name in headers && soFar >= ZERO_TIME
    requires HeaderLatest(env, headers, names, c, soFar)
    ensures latest >= ZERO_TIME && HeaderLatest(env, headers, names + {name}, c, latest)
  {
    var v := LatestValue(env, name, headers[name], c);
    OneMoreHeader(env, headers, names, name, c, soFar, v);
    latest := if v > soFar then v else soFar;
  }

  ghost predicate HeaderResetIs(env: Env, headers: Headers, t: Time) {
    if exists u :: InHeaders(env, headers, headers.Keys, Codex, u)
    then t != ZERO_TIME && HeaderLatest(env, headers, headers.Keys, Codex, t)
    else HeaderLatest(env, headers, headers.Keys, RetryAfter, t)
  }

  /** headerReset: both maxima in one pass over the headers, in any order. */
  method HeaderReset(env: Env, headers: Headers) returns (t: Time)
    requires env.now >= ZERO_TIME
    ensures HeaderResetIs(env, headers, t)
  {
    var codex, retry := ZERO_TIME, ZERO_TIME;
    var todo := headers.Keys;
    while todo != {}
      invariant todo <= headers.Keys && codex >= ZERO_TIME && retry >= ZERO_TIME
      invariant HeaderLatest(env, headers, headers.Keys - todo, Codex, codex)
      invariant HeaderLatest(env, headers, headers.Keys - todo, RetryAfter, retry)
    {
      var name :| name in todo;
      codex := OneHeader(env, headers, headers.Keys - todo, name, Codex, codex);
      retry := OneHeader(env, headers, headers.Keys - todo, name, RetryAfter, retry);
      assert headers.Keys - (todo - {name}) == headers.Keys - todo + {name};
      todo := todo - {name};
    }
    assert headers.Keys - {} == headers.Keys;
    CodexPositive(env, headers, codex);
    t := if codex != ZERO_TIME then codex else retry;
  }

  lemma CodexPositive(env: Env, headers: Headers, t: Time)
    requires env.now >= ZERO_TIME && HeaderLatest(env, headers, headers.Keys, Codex, t)
    ensures t != ZERO_TIME <==> exists u :: InHeaders(env, headers, headers.Keys, Codex, u)
  {
    if u :| InHeaders(env, headers, headers.Keys, Codex, u) {
      var n, raw :| n in headers.Keys && raw in headers[n] && HeaderValue(env, n, raw, Codex) == Some(u);
      assert u > env.now;
    }
  }

  // ---------------------------------------------------------------- the reset of an event

  lemma ReaderIsPositive(env: Env)
    requires env.now >= ZERO_TIME
    ensures PositiveTimes(ReaderFor(env))
  {
  }

  ghost predicate WindowsReset(windows: seq<QuotaWindow>, now: Time) {
    exists w :: w in windows && w.blocking && ValidReset(w.resetAt, now)
  }

  /** The latest reset of the first class that has one: absolute fields of the response,
      relative ones, blocking windows, headers. */
  ghost predicate EventResetIs(env: Env, root: Json, windows: seq<QuotaWindow>, headers: Headers, t: Time) {
    var rd := ReaderFor(env);
    if HasField(rd, root, Absolute) then LatestField(rd, root, Absolute, t)
    else if HasField(rd, root, Relative) then LatestField(rd, root, Relative, t)
    else if WindowsReset(windows, env.now) then WindowResetIs(windows, env.now, t)
    else HeaderResetIs(env, headers, t)
  }

  /** No class has one. */
  ghost predicate NoReset(env: Env, root: Json, windows: seq<QuotaWindow>, headers: Headers) {
    && !HasField(ReaderFor(env), root, Absolute) && !HasField(ReaderFor(env), root, Relative)
    && !WindowsReset(windows, env.now)
    && forall c, t :: !InHeaders(env, headers, headers.Keys, c, t)
  }

  lemma HeadersNone(env: Env, headers: Headers)
    requires env.now >= ZERO_TIME
    ensures forall t :: HeaderResetIs(env, headers, t) ==> (t == ZERO_TIME <==> forall c, u :: !InHeaders(env, headers, headers.Keys, c, u))
  {
    forall t | HeaderResetIs(env, headers, t)
      ensures t == ZERO_TIME <==> forall c, u :: !InHeaders(env, headers, headers.Keys, c, u)
    {
      if c, u :| InHeaders(env, headers, headers.Keys, c, u) {
        InHeadersPositive(env, headers, c, u);
        assert t != ZERO_TIME by {
          if !(exists v :: InHeaders(env, headers, headers.Keys, Codex, v)) {
            assert c == RetryAfter;
          }
        }
      }
    }
  }

  lemma InHeadersPositive(env: Env, headers: Headers, c: HeaderClass, t: Time)
    requires env.now >= ZERO_TIME && InHeaders(env, headers, headers.Keys, c, t)
    ensures t > ZERO_TIME
  {
    var name, raw :| name in headers && raw in headers[name] && HeaderValue(env, name, raw, c) == Some(t);
  }

  /** resetForEvent: the class that wins, the latest in it, and always a time within a year. */
  method ResetForEvent(env: Env, root: Json, windows: seq<QuotaWindow>, headers: Headers) returns (t: Time)
    requires env.now >= ZERO_TIME
    ensures t == ZERO_TIME || ValidReset(t, env.now)
    ensures EventResetIs(env, root, windows, headers, t)
    ensures t == ZERO_TIME <==> NoReset(env, root, windows, headers)
  {
    ReaderIsPositive(env);
    HeadersNone(env, headers);
    t := StructuredReset(ReaderFor(env), root);
    if t != ZERO_TIME {
      StructuredInRange(env, root, t);
      return;
    }
    t := LatestFutureReset(windows, env.now);
    if t != ZERO_TIME {
      return;
    }
    t := HeaderReset(env, headers);
    if t != ZERO_TIME {
      HeaderInRange(env, headers, t);
    }
  }

  lemma StructuredInRange(env: Env, root: Json, t: Time)
    requires StructuredIs(ReaderFor(env), root, t) && t != ZERO_TIME
    ensures ValidReset(t, env.now)
  {
    var c := if HasField(ReaderFor(env), root, Absolute) then Absolute else Relative;
    var p :| FieldReset(ReaderFor(env), root, p, c) == Some(t);
  }

  lemma HeaderInRange(env: Env, headers: Headers, t: Time)
    requires HeaderResetIs(env, headers, t) && t != ZERO_TIME
    ensures ValidReset(t, env.now)
  {
    var c := if exists u :: InHeaders(env, headers, headers.Keys, Codex, u) then Codex else RetryAfter;
    var name, raw :| name in headers && raw in headers[name] && HeaderValue(env, name, raw, c) == Some(t);
  }
}
