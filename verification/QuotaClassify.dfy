/** When a failed request counts as quota exhaustion: never without a witness in the response,
    in whatever order its objects list their keys. */
module QuotaClassify {
  import opened Basics
  import opened Domain
  import opened JsonTree
  import opened QuotaTime
  import opened QuotaWalk
  import opened QuotaResets
  import opened QuotaHeaders

  predicate EqualFold(a: string, b: string) {
    ToLower(a) == ToLower(b)
  }

  // ---------------------------------------------------------------- paths read from the left

  lemma {:induction false} AtCons(v: Json, s: Step, p: Path)
    ensures At(v, [s] + p) == if Child(v, s).None? then None else At(Child(v, s).value, p)
    decreases |p|
  {
    if p == [] {
      assert ([s] + p)[..|[s] + p| - 1] == [];
      assert At(v, []) == Some(v);
    } else {
      var n := |p| - 1;
      assert ([s] + p)[..|[s] + p| - 1] == [s] + p[..n];
      AtCons(v, s, p[..n]);
    }
  }

  predicate KeysOnly(p: Path) {
    forall i :: 0 <= i < |p| ==> p[i].Key?
  }

  /** A field called `wanted` (letter case aside), reached through objects alone. */
  predicate Names(v: Json, p: Path, wanted: string) {
    p != [] && KeysOnly(p) && EqualFold(p[|p| - 1].k, wanted) && At(v, p).Some?
  }

  ghost predicate Named(v: Json, wanted: string, value: Json) {
    exists p :: Names(v, p, wanted) && At(v, p) == Some(value)
  }

  lemma NamedHere(fields: map<string, Json>, key: string, wanted: string)
    requires key in fields && EqualFold(key, wanted)
    ensures Named(Obj(fields), wanted, fields[key])
  {
    var p := [Key(key)];
    assert p[..|p| - 1] == [];
    assert At(Obj(fields), []) == Some(Obj(fields));
    assert Names(Obj(fields), p, wanted) && At(Obj(fields), p) == Some(fields[key]);
  }

  lemma NamedBelow(fields: map<string, Json>, key: string, wanted: string, value: Json)
    requires key in fields && Named(fields[key], wanted, value)
    ensures Named(Obj(fields), wanted, value)
  {
    var p :| Names(fields[key], p, wanted) && At(fields[key], p) == Some(value);
    AtCons(Obj(fields), Key(key), p);
    assert Names(Obj(fields), [Key(key)] + p, wanted);
  }

  /** A named field is a member, or a named field of a member that is an object. */
  lemma NamedSplits(fields: map<string, Json>, wanted: string, value: Json)
    requires Named(Obj(fields), wanted, value)
    ensures exists key :: key in fields
              && (EqualFold(key, wanted) || (fields[key].Obj? && Named(fields[key], wanted, value)))
  {
    var p: Path :| Names(Obj(fields), p, wanted) && At(Obj(fields), p) == Some(value);
    var key, q := p[0].k, p[1..];
    assert p == [p[0]] + q;
    AtCons(Obj(fields), p[0], q);
    assert key in fields;
    if q != [] {
      assert Names(fields[key], q, wanted);
      ThroughObject(fields[key], q);
    }
  }

  lemma ThroughObject(v: Json, p: Path)
    requires p != [] && p[0].Key? && At(v, p).Some?
    ensures v.Obj?
  {
    assert p == [p[0]] + p[1..];
    AtCons(v, p[0], p[1..]);
  }

  /** findValue: some named field when there is one; which one depends on the map order. */
  method FindValue(v: Json, wanted: string) returns (r: Option<Json>)
    requires v.Obj?
    ensures r.Some? ==> Named(v, wanted, r.value)
    ensures r.None? ==> forall value :: !Named(v, wanted, value)
    decreases v
  {
    var todo := v.fields.Keys;
    while todo != {}
      invariant todo <= v.fields.Keys
      invariant forall key :: key in v.fields.Keys - todo ==>
                  !EqualFold(key, wanted) && (v.fields[key].Obj? ==> forall value :: !Named(v.fields[key], wanted, value))
    {
      var key :| key in todo;
      todo := todo - {key};
      if EqualFold(key, wanted) {
        NamedHere(v.fields, key, wanted);
        return Some(v.fields[key]);
      }
      if v.fields[key].Obj? {
        r := FindValue(v.fields[key], wanted);
        if r.Some? {
          NamedBelow(v.fields, key, wanted, r.value);
          return;
        }
      }
    }
    forall value
      ensures !Named(v, wanted, value)
    {
      if Named(v, wanted, value) {
        NamedSplits(v.fields, wanted, value);
        assert false;
      }
    }
    return None;
  }

  // ---------------------------------------------------------------- texts anywhere in the tree

  ghost predicate HasText(v: Json, text: string) {
    exists p :: At(v, p) == Some(Text(text))
  }

  lemma TextBelow(v: Json, s: Step, text: string)
    requires Child(v, s).Some? && HasText(Child(v, s).value, text)
    ensures HasText(v, text)
  {
    var p :| At(Child(v, s).value, p) == Some(Text(text));
    AtCons(v, s, p);
    assert At(v, [s] + p) == Some(Text(text));
  }

  lemma TextSplits(v: Json, text: string)
    requires HasText(v, text)
    ensures v == Text(text) || exists s :: Child(v, s).Some? && HasText(Child(v, s).value, text)
  {
    var p :| At(v, p) == Some(Text(text));
    if p != [] {
      assert p == [p[0]] + p[1..];
      AtCons(v, p[0], p[1..]);
      assert HasText(Child(v, p[0]).value, text);
    }
  }

  /** Children visited so far contribute exactly their texts. */
  ghost predicate TextsOf(v: Json, steps: set<Step>, out: seq<string>) {
    && (forall text :: text in out ==> exists s :: s in steps && Child(v, s).Some? && HasText(Child(v, s).value, text))
    && (forall s, text :: s in steps && Child(v, s).Some? && HasText(Child(v, s).value, text) ==> text in out)
  }

  lemma TextsGrow(v: Json, steps: set<Step>, s: Step, out: seq<string>, more: seq<string>)
    requires TextsOf(v, steps, out) && Child(v, s).Some?
    requires forall text :: text in more <==> HasText(Child(v, s).value, text)
    ensures TextsOf(v, steps + {s}, out + more)
  {
    forall text | text in out + more
      ensures exists x :: x in steps + {s} && Child(v, x).Some? && HasText(Child(v, x).value, text)
    {
      if text in out {
        var x :| x in steps && Child(v, x).Some? && HasText(Child(v, x).value, text);
        assert x in steps + {s};
      } else {
        assert s in steps + {s} && HasText(Child(v, s).value, text);
      }
    }
  }

  lemma TextsWhole(v: Json, steps: set<Step>, out: seq<string>)
    requires TextsOf(v, steps, out) && !v.Text? && forall s :: Child(v, s).Some? ==> s in steps
    ensures forall text :: text in out <==> HasText(v, text)
  {
    forall text
      ensures text in out <==> HasText(v, text)
    {
      if text in out {
        var s :| s in steps && Child(v, s).Some? && HasText(Child(v, s).value, text);
        TextBelow(v, s, text);
      }
      if HasText(v, text) {
        TextSplits(v, text);
      }
    }
  }

  /** stringValues: every text of the tree, arrays included. */
  method StringValues(v: Json) returns (out: seq<string>)
    ensures forall text :: text in out <==> HasText(v, text)
    decreases v
  {
    out := [];
    ghost var steps: set<Step> := {};
    match v
    case Text(own) =>
      assert At(v, []) == Some(v);
      out := [own];
      forall text | HasText(v, text)
        ensures text == own
      {
        TextSplits(v, text);
      }
    case Obj(fields) =>
      var todo := fields.Keys;
      while todo != {}
        invariant todo <= fields.Keys
        invariant forall s :: s in steps <==> s.Key? && s.k in fields && s.k !in todo
        invariant TextsOf(v, steps, out)
      {
        var key :| key in todo;
        todo := todo - {key};
        var more := StringValues(fields[key]);
        TextsGrow(v, steps, Key(key), out, more);
        out, steps := out + more, steps + {Key(key)};
      }
      TextsWhole(v, steps, out);
    case Arr(items) =>
      for i := 0 to |items|
        invariant forall s :: s in steps <==> s.Index? && s.i < i
        invariant TextsOf(v, steps, out)
      {
        var more := StringValues(items[i]);
        TextsGrow(v, steps, Index(i), out, more);
        out, steps := out + more, steps + {Index(i)};
      }
      TextsWhole(v, steps, out);
    case _ =>
      TextsWhole(v, {}, out);
  }

  // ---------------------------------------------------------------- evidence

  const SignalKeys: seq<string> := ["type", "code", "reason"]
  const FlagKeys: seq<string> := ["limit_reached", "quota_exhausted", "quota_depleted", "no_credits", "noCredits", "is_quota_exhausted"]

  predicate UsageLimitText(v: Json) {
    v.Text? && EqualFold(TrimSpace(v.text), "usage_limit_reached")
  }

  predicate RateLimitText(v: Json) {
    v.Text? &&
    var text := ToLower(TrimSpace(v.text));
    text == "rate_limit_error" || text == "rate_limit_exceeded" || Contains(text, "rate limit")
  }

  predicate PhraseText(text: string) {
    var lower := ToLower(text);
    || Contains(lower, "no credits") || Contains(lower, "no_credits") || Contains(lower, "quota exhausted")
    || Contains(lower, "quota_exhausted") || Contains(lower, "quota depleted") || Contains(lower, "insufficient_quota")
  }

  predicate IsTrue(v: Json) {
    ToBool(v) == Some(true)
  }

  predicate IsFalse(v: Json) {
    ToBool(v) == Some(false)
  }

  function NothingLeft(env: Env): Json -> bool {
    v => ToNumber(env, v).Some? && ToNumber(env, v).value <= 0.0
  }

  /** Some field of one of these names says so. */
  ghost predicate Possible(root: Json, keys: seq<string>, says: Json -> bool) {
    exists key, v :: key in keys && Named(root, key, v) && says(v)
  }

  /** There are fields of one of these names, and all of them say so. */
  ghost predicate Certain(root: Json, keys: seq<string>, says: Json -> bool) {
    exists key :: key in keys && Unanimous(root, key, says)
  }

  ghost predicate Unanimous(root: Json, key: string, says: Json -> bool) {
    (exists v :: Named(root, key, v)) && forall v :: Named(root, key, v) ==> says(v)
  }

  const AllowedKey: seq<string> := ["allowed"]
  const CreditsKey: seq<string> := ["credits_remaining"]

  /** A flag, a denial or an empty credit that some order finds, and one that every order finds. */
  ghost predicate PossibleEvidence(env: Env, root: Json) {
    Possible(root, FlagKeys, IsTrue) || Possible(root, AllowedKey, IsFalse) || Possible(root, CreditsKey, NothingLeft(env))
  }

  ghost predicate CertainEvidence(env: Env, root: Json) {
    Certain(root, FlagKeys, IsTrue) || Certain(root, AllowedKey, IsFalse) || Certain(root, CreditsKey, NothingLeft(env))
  }

  /** Evidence that does not depend on which of several fields is found first. */
  ghost predicate PlainEvidence(root: Json, windows: seq<QuotaWindow>) {
    HasExhausted(windows) || PhraseWitness(root)
  }

  ghost predicate PhraseWitness(root: Json) {
    exists text :: HasText(root, text) && PhraseText(text)
  }

  /** Looks the names up one after another; each lookup yields some field of that name. */
  method AnyFieldSays(root: Json, keys: seq<string>, says: Json -> bool) returns (found: bool)
    requires root.Obj?
    ensures found ==> Possible(root, keys, says)
    ensures Certain(root, keys, says) ==> found
  {
    for i := 0 to |keys|
      invariant forall k :: 0 <= k < i ==> !Unanimous(root, keys[k], says)
    {
      var v := FindValue(root, keys[i]);
      if v.Some? && says(v.value) {
        assert keys[i] in keys;
        return true;
      }
    }
    return false;
  }

  method ExplicitQuotaEvidence(env: Env, root: Json, windows: seq<QuotaWindow>) returns (found: bool)
    requires root.Obj?
    ensures found ==> PossibleEvidence(env, root) || PlainEvidence(root, windows)
    ensures CertainEvidence(env, root) || PlainEvidence(root, windows) ==> found
  {
    found := AnyFieldSays(root, FlagKeys, IsTrue);
    if found {
      return;
    }
    found := AnyFieldSays(root, AllowedKey, IsFalse);
    if found {
      return;
    }
    found := AnyFieldSays(root, CreditsKey, NothingLeft(env));
    if found {
      return;
    }
    for i := 0 to |windows|
      invariant forall k :: 0 <= k < i ==> !windows[k].IsExhausted()
    {
      if windows[i].IsExhausted() {
        assert windows[i] in windows;
        return true;
      }
    }
    var texts := StringValues(root);
    for i := 0 to |texts|
      invariant forall k :: 0 <= k < i ==> !PhraseText(texts[k])
    {
      if PhraseText(texts[i]) {
        assert texts[i] in texts;
        return true;
      }
    }
    return false;
  }

  // ---------------------------------------------------------------- header windows

  function Merged(w: QuotaWindow, header: QuotaWindow): QuotaWindow {
    var out := w.(usedPercent := if w.usedPercent.None? then header.usedPercent else w.usedPercent,
                  limitReached := w.limitReached || header.limitReached,
                  allowed := if w.allowed.None? then header.allowed else w.allowed,
                  resetAt := if w.resetAt == ZERO_TIME then header.resetAt else w.resetAt);
    out.(blocking := out.IsExhausted())
  }

  /** `out` is the window of the body with its gaps filled from the header's. */
  predicate FilledBy(out: QuotaWindow, w: QuotaWindow, header: QuotaWindow) {
    && out.family == w.family && out.windowSeconds == w.windowSeconds
    && (w.usedPercent.Some? ==> out.usedPercent == w.usedPercent) && (w.usedPercent.None? ==> out.usedPercent == header.usedPercent)
    && (out.limitReached <==> w.limitReached || header.limitReached)
    && (w.allowed.Some? ==> out.allowed == w.allowed) && (w.allowed.None? ==> out.allowed == header.allowed)
    && (w.resetAt != ZERO_TIME ==> out.resetAt == w.resetAt) && (w.resetAt == ZERO_TIME ==> out.resetAt == header.resetAt)
    && out.blocking == out.IsExhausted()
  }

  ghost predicate HasFamily(windows: seq<QuotaWindow>, family: string) {
    exists w :: w in windows && w.family == family
  }

  ghost predicate MergedAt(out: QuotaWindow, w: QuotaWindow, headers: seq<QuotaWindow>) {
    && (forall h :: h in headers && h.family == w.family ==> FilledBy(out, w, h))
    && (!HasFamily(headers, w.family) ==> out == w)
  }

  /** The body's windows, each filled from the header window of its family if there is one; then
      the header windows of the other families. */
  ghost predicate MergedIs(out: seq<QuotaWindow>, windows: seq<QuotaWindow>, headers: seq<QuotaWindow>) {
    && |windows| <= |out| <= |windows| + |headers|
    && (forall i :: 0 <= i < |windows| ==> MergedAt(out[i], windows[i], headers))
    && (forall j :: |windows| <= j < |out| ==> out[j] in headers && !HasFamily(windows, out[j].family))
    && (forall h :: h in headers && !HasFamily(windows, h.family) ==> h in out[|windows|..])
  }

  /** One header window against the list so far. */
  method MergeOne(windows: seq<QuotaWindow>, header: QuotaWindow) returns (out: seq<QuotaWindow>, matched: bool)
    ensures |out| == |windows| && (matched <==> HasFamily(windows, header.family))
    ensures forall i :: 0 <= i < |windows| ==>
              out[i] == if windows[i].family == header.family then Merged(windows[i], header) else windows[i]
  {
    out, matched := windows, false;
    for i := 0 to |windows|
      invariant |out| == |windows| && (matched <==> HasFamily(windows[..i], header.family))
      invariant forall k :: i <= k < |windows| ==> out[k] == windows[k]
      invariant forall k :: 0 <= k < i ==>
                  out[k] == if windows[k].family == header.family then Merged(windows[k], header) else windows[k]
    {
      assert windows[..i + 1] == windows[..i] + [windows[i]];
      if out[i].family == header.family {
        assert windows[i] in windows[..i + 1];
        matched := true;
        out := out[i := Merged(out[i], header)];
      }
    }
    assert windows[..|windows|] == windows;
  }

  /** mergeHeaderWindows */
  method MergeHeaderWindows(windows: seq<QuotaWindow>, headers: seq<QuotaWindow>) returns (out: seq<QuotaWindow>)
    requires OwnFamilies(headers)
    ensures MergedIs(out, windows, headers)
  {
    out := windows;
    for h := 0 to |headers|
      invariant MergedIs(out, windows, headers[..h])
    {
      var next, matched := MergeOne(out, headers[h]);
      MergedMore(windows, headers, h, out, next);
      out := if matched then next else next + [headers[h]];
    }
    assert headers[..|headers|] == headers;
  }

  /** So far no window of this header's family was touched, and none was added. */
  lemma MergedMore(windows: seq<QuotaWindow>, headers: seq<QuotaWindow>, h: nat, was: seq<QuotaWindow>, next: seq<QuotaWindow>)
    requires OwnFamilies(headers) && h < |headers| && MergedIs(was, windows, headers[..h]) && |next| == |was|
    requires forall i :: 0 <= i < |was| ==>
               next[i] == if was[i].family == headers[h].family then Merged(was[i], headers[h]) else was[i]
    ensures MergedIs(if HasFamily(was, headers[h].family) then next else next + [headers[h]], windows, headers[..h + 1])
  {
    var header := headers[h];
    var now := if HasFamily(was, header.family) then next else next + [header];
    assert headers[..h + 1] == headers[..h] + [header];
    forall i | 0 <= i < |windows|
      ensures MergedAt(now[i], windows[i], headers[..h + 1])
    {
      MergedOneMore(was[i], windows[i], headers, h, now[i]);
    }
    forall j | |windows| <= j < |was|
      ensures was[j].family != header.family && next[j] == was[j]
    {
      var k :| 0 <= k < h && headers[..h][k] == was[j];
      assert headers[k] == was[j];
    }
    MergedFamilies(windows, headers, h, was, header.family);
    MergedRest(windows, headers[..h], header, was, next, now);
  }

  /** The windows beyond the body's. */
  lemma MergedRest(windows: seq<QuotaWindow>, before: seq<QuotaWindow>, header: QuotaWindow, was: seq<QuotaWindow>,
                   next: seq<QuotaWindow>, now: seq<QuotaWindow>)
    requires MergedIs(was, windows, before) && |next| == |was|
    requires forall j :: |windows| <= j < |was| ==> next[j] == was[j]
    requires now == if HasFamily(windows, header.family) then next else next + [header]
    ensures |windows| <= |now| <= |windows| + |before| + 1
    ensures forall j :: |windows| <= j < |now| ==> now[j] in before + [header] && !HasFamily(windows, now[j].family)
    ensures forall q :: q in before + [header] && !HasFamily(windows, q.family) ==> q in now[|windows|..]
  {
    forall q | q in before + [header] && !HasFamily(windows, q.family)
      ensures q in now[|windows|..]
    {
      if q in before {
        assert q in was[|windows|..];
        var j :| |windows| <= j < |was| && was[j] == q;
        assert now[j] == q;
      } else {
        assert now[|now| - 1] == header && |windows| <= |now| - 1;
      }
    }
  }

  lemma MergedOneMore(was: QuotaWindow, w: QuotaWindow, headers: seq<QuotaWindow>, h: nat, now: QuotaWindow)
    requires OwnFamilies(headers) && h < |headers| && MergedAt(was, w, headers[..h])
    requires now == if was.family == headers[h].family then Merged(was, headers[h]) else was
    ensures MergedAt(now, w, headers[..h + 1]) && now.family == w.family
  {
    assert headers[..h + 1] == headers[..h] + [headers[h]];
    if q :| q in headers[..h] && q.family == w.family {
      var k :| 0 <= k < h && headers[..h][k] == q;
      assert headers[k].family != headers[h].family;
      assert FilledBy(was, w, q);
    } else {
      assert !HasFamily(headers[..h], w.family);
    }
  }

  lemma MergedFamilies(windows: seq<QuotaWindow>, headers: seq<QuotaWindow>, h: nat, was: seq<QuotaWindow>, family: string)
    requires h <= |headers| && MergedIs(was, windows, headers[..h])
    requires forall j :: |windows| <= j < |was| ==> was[j].family != family
    ensures HasFamily(was, family) <==> HasFamily(windows, family)
  {
    forall i | 0 <= i < |windows|
      ensures was[i].family == windows[i].family
    {
      MergedFamily(was[i], windows[i], headers[..h]);
    }
    if w :| w in windows && w.family == family {
      var i :| 0 <= i < |windows| && windows[i] == w;
      assert was[i] in was;
    }
    if w :| w in was && w.family == family {
      var i :| 0 <= i < |was| && was[i] == w;
      assert windows[i] in windows;
    }
  }

  lemma MergedFamily(out: QuotaWindow, w: QuotaWindow, headers: seq<QuotaWindow>)
    requires MergedAt(out, w, headers)
    ensures out.family == w.family
    ensures w.IsExhausted() ==> out.IsExhausted()
    ensures SafeWindow(w).IsExhausted() ==> SafeWindow(out).IsExhausted()
    ensures out.IsExhausted() ==> w.IsExhausted() || exists h :: h in headers && h.family == w.family && h.IsExhausted()
  {
    if h :| h in headers && h.family == w.family {
      assert FilledBy(out, w, h);
    } else {
      assert !HasFamily(headers, w.family);
    }
  }

  /** Every exhausted window of `out` has an exhausted source. */
  ghost predicate EvidenceFrom(out: seq<QuotaWindow>, windows: seq<QuotaWindow>, headers: seq<QuotaWindow>) {
    forall w :: w in out && w.IsExhausted() ==>
      exists source :: (source in windows || source in headers) && source.IsExhausted() && source.family == w.family
  }

  /** Merging creates no evidence that neither side carries, and takes none of the body's away. */
  lemma MergingKeepsEvidence(out: seq<QuotaWindow>, windows: seq<QuotaWindow>, headers: seq<QuotaWindow>)
    requires MergedIs(out, windows, headers)
    ensures EvidenceFrom(out, windows, headers)
    ensures forall i :: 0 <= i < |windows| ==>
              out[i].family == windows[i].family && (windows[i].IsExhausted() ==> out[i].IsExhausted())
              && (SafeWindow(windows[i]).IsExhausted() ==> SafeWindow(out[i]).IsExhausted())
  {
    forall i | 0 <= i < |windows|
      ensures out[i].family == windows[i].family && (windows[i].IsExhausted() ==> out[i].IsExhausted())
              && (SafeWindow(windows[i]).IsExhausted() ==> SafeWindow(out[i]).IsExhausted())
    {
      MergedFamily(out[i], windows[i], headers);
    }
    forall w | w in out && w.IsExhausted()
      ensures exists source :: (source in windows || source in headers) && source.IsExhausted() && source.family == w.family
    {
      var i :| 0 <= i < |out| && out[i] == w;
      if i < |windows| {
        MergedFamily(out[i], windows[i], headers);
        assert windows[i] in windows;
      }
    }
  }

  // ---------------------------------------------------------------- the inventory

  /** A member, looked up in the object and then in its "body". */
  function Member(m: map<string, Json>, key: string): Option<Json> {
    if key in m then Some(m[key])
    else if "body" in m && m["body"].Obj? && key in m["body"].fields then Some(m["body"].fields[key])
    else None
  }

  predicate HoldsObject(m: map<string, Json>, key: string) {
    Member(m, key).Some? && Member(m, key).value.Obj?
  }

  predicate HoldsList(m: map<string, Json>, key: string) {
    Member(m, key).Some? && Member(m, key).value.Arr?
  }

  predicate RecognizedShape(v: Json)
    requires v.Obj?
  {
    var m := v.fields;
    || HoldsObject(m, "rate_limit") || HoldsObject(m, "rateLimit")
    || HoldsObject(m, "code_review_rate_limit") || HoldsObject(m, "codeReviewRateLimit")
    || HoldsList(m, "additional_rate_limits") || HoldsList(m, "additionalRateLimits")
    || ("body" in m && m["body"].Obj? && RecognizedShape(m["body"]))
  }

  /** The window comes from an exhausted window of the response or of the headers. */
  ghost predicate Sourced(rd: Reader, root: Json, headerWindows: seq<QuotaWindow>) {
    || (exists p :: PathWindow(rd, root, p).Some? && PathWindow(rd, root, p).value.IsExhausted())
    || (exists h :: h in headerWindows && h.IsExhausted())
  }

  /** The response has an exhausted window, or a Codex header says that one is. */
  ghost predicate Evident(env: Env, root: Json, headers: Headers) {
    || (exists p :: PathWindow(ReaderFor(env), root, p).Some? && PathWindow(ReaderFor(env), root, p).value.IsExhausted())
    || (exists family :: SomeExhausts(env, headers, family))
  }

  lemma SourceIsEvident(env: Env, root: Json, headers: Headers, headerWindows: seq<QuotaWindow>)
    requires env.now >= ZERO_TIME && forall h :: h in headerWindows ==> MayRead(env, headers, h)
    ensures Sourced(ReaderFor(env), root, headerWindows) ==> Evident(env, root, headers)
  {
    if h :| h in headerWindows && h.IsExhausted() {
      ExhaustedIsSaid(env, headers, h);
    }
  }

  /** All windows of the response are on a list that, with the headers', has at most 32 entries:
      none can be cut. */
  ghost predicate FewWindows(rd: Reader, root: Json, headerWindows: nat) {
    exists few: seq<Path> :: Complete(rd, root, Under([]), few) && |few| + headerWindows <= MAX_QUOTA_WINDOWS
  }

  /** A window that is exhausted even without a percentage that is out of range. */
  ghost predicate ShownExhausted(rd: Reader, root: Json) {
    exists p :: PathWindow(rd, root, p).Some? && SafeWindow(PathWindow(rd, root, p).value).IsExhausted()
  }

  ghost predicate HasExhausted(windows: seq<QuotaWindow>) {
    exists w :: w in windows && w.IsExhausted()
  }

  lemma {:induction false} DistinctFits(paths: seq<Path>, few: seq<Path>)
    requires Distinct(paths) && forall p :: p in paths ==> p in few
    ensures |paths| <= |few|
    decreases |paths|
  {
    if paths != [] {
      var n := |paths| - 1;
      assert paths[n] in few;
      var k :| 0 <= k < |few| && few[k] == paths[n];
      var rest := few[..k] + few[k + 1..];
      forall p | p in paths[..n]
        ensures p in rest
      {
        var i :| 0 <= i < n && paths[i] == p;
        assert paths[i] != paths[n] && paths[i] in few;
        var j :| 0 <= j < |few| && few[j] == p;
        assert j != k && rest[if j < k then j else j - 1] == p;
      }
      DistinctFits(paths[..n], rest);
    }
  }

  method FillResets(windows: seq<QuotaWindow>, reset: Time) returns (out: seq<QuotaWindow>)
    ensures |out| == |windows|
    ensures forall i :: 0 <= i < |windows| ==>
              out[i] == WithReset(windows[i], reset)
  {
    out := windows;
    for i := 0 to |windows|
      invariant |out| == |windows|
      invariant forall k :: i <= k < |windows| ==> out[k] == windows[k]
      invariant forall k :: 0 <= k < i ==>
                  out[k] == WithReset(windows[k], reset)
    {
      if out[i].blocking && out[i].resetAt == ZERO_TIME {
        out := out[i := out[i].(resetAt := reset)];
      }
    }
  }

  /** ParseInventory: nothing from an unrecognised response, and no exhausted window without
      an exhausted one in the response or a header that says so. */
  method ParseInventory(env: Env, root: Json, headers: Headers)
    returns (windows: seq<QuotaWindow>, recognized: bool)
    requires root.Obj? && env.now >= ZERO_TIME
    ensures recognized <==> RecognizedShape(root)
    ensures if recognized then InventoryOf(env, root, headers, windows) else windows == []
    ensures HasExhausted(windows) ==> Evident(env, root, headers)
    ensures recognized && ShownExhausted(ReaderFor(env), root) && FewWindows(ReaderFor(env), root, |SpeakingFamilies(env, headers)|)
            ==> HasExhausted(windows)
    ensures |windows| <= MAX_QUOTA_WINDOWS && SafeWindows(windows) == windows
  {
    recognized := RecognizedShape(root);
    if !recognized {
      return [], false;
    }
    var headerWindows := HeaderWindows(env, headers);
    SourceIsEvident(env, root, headers, headerWindows);
    var reset := HeaderReset(env, headers);
    ghost var collected, merged;
    windows, collected, merged := Inventory(ReaderFor(env), root, headerWindows, reset);
    InventoryShows(ReaderFor(env), root, headerWindows, reset, collected, merged, windows);
    assert InventoryIs(ReaderFor(env), root, headerWindows, reset, collected, merged, windows);
  }

  /** The windows of the response's paths, merged with the headers', their missing resets filled
      in where they block, cut at 32 and sanitized. */
  ghost predicate InventoryIs(rd: Reader, root: Json, headerWindows: seq<QuotaWindow>, reset: Time,
                              collected: seq<QuotaWindow>, merged: seq<QuotaWindow>, windows: seq<QuotaWindow>) {
    && (exists paths :: Collected(rd, root, Under([]), collected, paths))
    && MergedIs(merged, collected, headerWindows)
    && |windows| == Min(MAX_QUOTA_WINDOWS, |merged|)
    && forall i :: 0 <= i < |windows| ==> windows[i] == SafeWindow(WithReset(merged[i], reset))
  }

  function WithReset(w: QuotaWindow, reset: Time): QuotaWindow {
    if w.blocking && w.resetAt == ZERO_TIME then w.(resetAt := reset) else w
  }

  ghost predicate InventoryOf(env: Env, root: Json, headers: Headers, windows: seq<QuotaWindow>) {
    exists headerWindows, reset, collected, merged ::
      HeaderWindowsOf(env, headers, headerWindows) && HeaderResetIs(env, headers, reset)
      && InventoryIs(ReaderFor(env), root, headerWindows, reset, collected, merged, windows)
  }

  /** One window for each family the headers speak of, as some order gives it. */
  ghost predicate HeaderWindowsOf(env: Env, headers: Headers, windows: seq<QuotaWindow>) {
    OneEach(windows, SpeakingFamilies(env, headers)) && forall w :: w in windows ==> MayRead(env, headers, w)
  }

  /** The windows of a recognised response, however single windows are read. */
  method Inventory(rd: Reader, root: Json, headerWindows: seq<QuotaWindow>, reset: Time)
    returns (windows: seq<QuotaWindow>, ghost collected: seq<QuotaWindow>, ghost merged: seq<QuotaWindow>)
    requires OwnFamilies(headerWindows)
    ensures InventoryIs(rd, root, headerWindows, reset, collected, merged, windows)
  {
    var found := AllWindows(rd, root);
    var filled := MergeHeaderWindows(found, headerWindows);
    collected, merged := found, filled;
    if reset != ZERO_TIME {
      filled := FillResets(filled, reset);
    }
    windows := SafeQuotaWindows(filled);
  }

  function Filled(merged: seq<QuotaWindow>, reset: Time): (filled: seq<QuotaWindow>)
    ensures |filled| == |merged| && forall i :: 0 <= i < |merged| ==> filled[i] == WithReset(merged[i], reset)
  {
    seq(|merged|, i requires 0 <= i < |merged| => WithReset(merged[i], reset))
  }

  /** What an inventory shows. */
  lemma InventoryShows(rd: Reader, root: Json, headerWindows: seq<QuotaWindow>, reset: Time, collected: seq<QuotaWindow>,
                       merged: seq<QuotaWindow>, windows: seq<QuotaWindow>)
    requires InventoryIs(rd, root, headerWindows, reset, collected, merged, windows)
    ensures forall w :: w in windows && w.IsExhausted() ==> Sourced(rd, root, headerWindows)
    ensures ShownExhausted(rd, root) && FewWindows(rd, root, |headerWindows|) ==> HasExhausted(windows)
    ensures |windows| <= MAX_QUOTA_WINDOWS && SafeWindows(windows) == windows
  {
    assert windows == SafeWindows(Filled(merged, reset));
    SafeWindowsIdempotent(Filled(merged, reset));
    InventorySourced(rd, root, headerWindows, reset, collected, merged);
    InventoryKeeps(rd, root, headerWindows, reset, collected, merged);
  }

  lemma InventorySourced(rd: Reader, root: Json, headerWindows: seq<QuotaWindow>, reset: Time, collected: seq<QuotaWindow>,
                         merged: seq<QuotaWindow>)
    requires (exists paths :: Collected(rd, root, Under([]), collected, paths)) && MergedIs(merged, collected, headerWindows)
    ensures forall w :: w in SafeWindows(Filled(merged, reset)) && w.IsExhausted() ==> Sourced(rd, root, headerWindows)
  {
    CollectedMeans(rd, root, collected);
    MergingKeepsEvidence(merged, collected, headerWindows);
    MergedSourced(rd, root, collected, headerWindows, merged);
    FilledSourced(rd, root, headerWindows, merged, reset);
    SanitizedSourced(rd, root, headerWindows, Filled(merged, reset));
  }

  lemma FilledSourced(rd: Reader, root: Json, headerWindows: seq<QuotaWindow>, merged: seq<QuotaWindow>, reset: Time)
    requires forall w :: w in merged && w.IsExhausted() ==> Sourced(rd, root, headerWindows)
    ensures forall w :: w in Filled(merged, reset) && w.IsExhausted() ==> Sourced(rd, root, headerWindows)
  {
    forall w | w in Filled(merged, reset) && w.IsExhausted()
      ensures Sourced(rd, root, headerWindows)
    {
      var i :| 0 <= i < |merged| && Filled(merged, reset)[i] == w;
      assert merged[i] in merged;
    }
  }

  lemma InventoryKeeps(rd: Reader, root: Json, headerWindows: seq<QuotaWindow>, reset: Time, collected: seq<QuotaWindow>,
                       merged: seq<QuotaWindow>)
    requires (exists paths :: Collected(rd, root, Under([]), collected, paths)) && MergedIs(merged, collected, headerWindows)
    ensures ShownExhausted(rd, root) && FewWindows(rd, root, |headerWindows|) ==> HasExhausted(SafeWindows(Filled(merged, reset)))
  {
    CollectedMeans(rd, root, collected);
    MergingKeepsEvidence(merged, collected, headerWindows);
    forall i | 0 <= i < |collected|
      ensures SafeWindow(collected[i]).IsExhausted() ==> SafeWindow(Filled(merged, reset)[i]).IsExhausted()
    {
      FilledLike(merged[i], reset);
    }
    SanitizedKeeps(rd, root, headerWindows, collected, Filled(merged, reset));
  }

  /** Filling in a reset changes no evidence. */
  lemma FilledLike(w: QuotaWindow, reset: Time)
    ensures SafeWindow(WithReset(w, reset)).IsExhausted() == SafeWindow(w).IsExhausted()
  {
  }

  lemma CollectedMeans(rd: Reader, root: Json, windows: seq<QuotaWindow>)
    requires exists paths :: Collected(rd, root, Under([]), windows, paths)
    ensures forall w :: w in windows ==> exists p :: PathWindow(rd, root, p) == Some(w)
    ensures forall p :: PathWindow(rd, root, p).Some? ==> PathWindow(rd, root, p).value in windows
    ensures forall few: seq<Path> :: Complete(rd, root, Under([]), few) ==> |windows| <= |few|
  {
    var paths :| Collected(rd, root, Under([]), windows, paths);
    forall w | w in windows
      ensures exists p :: PathWindow(rd, root, p) == Some(w)
    {
      var i :| 0 <= i < |windows| && windows[i] == w;
      assert PathWindow(rd, root, paths[i]) == Some(w);
    }
    forall p | PathWindow(rd, root, p).Some?
      ensures PathWindow(rd, root, p).value in windows
    {
      assert p in Under([]);
      var i :| 0 <= i < |paths| && paths[i] == p;
      assert windows[i] == PathWindow(rd, root, p).value;
    }
    forall few: seq<Path> | Complete(rd, root, Under([]), few)
      ensures |windows| <= |few|
    {
      DistinctFits(paths, few);
    }
  }

  lemma SanitizedSourced(rd: Reader, root: Json, headerWindows: seq<QuotaWindow>, merged: seq<QuotaWindow>)
    requires forall w :: w in merged && w.IsExhausted() ==> Sourced(rd, root, headerWindows)
    ensures forall w :: w in SafeWindows(merged) && w.IsExhausted() ==> Sourced(rd, root, headerWindows)
  {
    forall w | w in SafeWindows(merged) && w.IsExhausted()
      ensures Sourced(rd, root, headerWindows)
    {
      var i :| 0 <= i < |SafeWindows(merged)| && SafeWindows(merged)[i] == w;
      assert SafeWindow(merged[i]).IsExhausted() ==> merged[i].IsExhausted();
      assert merged[i] in merged;
    }
  }

  lemma SanitizedKeeps(rd: Reader, root: Json, headerWindows: seq<QuotaWindow>, collected: seq<QuotaWindow>, merged: seq<QuotaWindow>)
    requires forall p :: PathWindow(rd, root, p).Some? ==> PathWindow(rd, root, p).value in collected
    requires forall few: seq<Path> :: Complete(rd, root, Under([]), few) ==> |collected| <= |few|
    requires |collected| <= |merged| <= |collected| + |headerWindows|
    requires forall i :: 0 <= i < |collected| ==> SafeWindow(collected[i]).IsExhausted() ==> SafeWindow(merged[i]).IsExhausted()
    ensures ShownExhausted(rd, root) && FewWindows(rd, root, |headerWindows|) ==> HasExhausted(SafeWindows(merged))
  {
    if ShownExhausted(rd, root) && FewWindows(rd, root, |headerWindows|) {
      var p :| PathWindow(rd, root, p).Some? && SafeWindow(PathWindow(rd, root, p).value).IsExhausted();
      KeptWhenFew(collected, merged, PathWindow(rd, root, p).value);
    }
  }

  lemma KeptWhenFew(collected: seq<QuotaWindow>, merged: seq<QuotaWindow>, w: QuotaWindow)
    requires w in collected && SafeWindow(w).IsExhausted() && |collected| <= |merged| <= MAX_QUOTA_WINDOWS
    requires forall i :: 0 <= i < |collected| ==> SafeWindow(collected[i]).IsExhausted() ==> SafeWindow(merged[i]).IsExhausted()
    ensures HasExhausted(SafeWindows(merged))
  {
    var i :| 0 <= i < |collected| && collected[i] == w;
    assert SafeWindows(merged)[i] == SafeWindow(merged[i]);
    assert SafeWindows(merged)[i] in SafeWindows(merged);
  }

  method AllWindows(rd: Reader, root: Json) returns (windows: seq<QuotaWindow>)
    ensures exists paths :: Collected(rd, root, Under([]), windows, paths)
    ensures forall w :: w in windows ==> exists p :: PathWindow(rd, root, p) == Some(w)
    ensures forall p :: PathWindow(rd, root, p).Some? ==> PathWindow(rd, root, p).value in windows
    ensures forall few: seq<Path> :: Complete(rd, root, Under([]), few) ==> |windows| <= |few|
  {
    ghost var paths;
    assert forall k: nat, f :: !(k < 0 && PrefixSays(root, [], k, f));
    windows, paths := CollectWindows(rd, root, [], root, "", false, false);
    CollectedMeans(rd, root, windows);
  }

  lemma MergedSourced(rd: Reader, root: Json, collected: seq<QuotaWindow>, headerWindows: seq<QuotaWindow>, merged: seq<QuotaWindow>)
    requires EvidenceFrom(merged, collected, headerWindows)
    requires forall w :: w in collected ==> exists p :: PathWindow(rd, root, p) == Some(w)
    ensures forall w :: w in merged && w.IsExhausted() ==> Sourced(rd, root, headerWindows)
  {
    forall w | w in merged && w.IsExhausted()
      ensures Sourced(rd, root, headerWindows)
    {
      var source :| (source in collected || source in headerWindows) && source.IsExhausted() && source.family == w.family;
      if source in collected {
        var p :| PathWindow(rd, root, p) == Some(source);
      }
    }
  }

  // ---------------------------------------------------------------- the decision

  datatype Decision = Ignore | Transient(reason: string) | Exhausted(reason: string, resetAt: Time, windows: seq<QuotaWindow>)

  const MAX_FAILURE_BODY: nat := 131_072
  const TOO_MANY_REQUESTS: int := 429

  /** `root` is the decoded body, None when it is no JSON object. */
  datatype UsageInput = UsageInput(
    provider: string, status: int, failed: bool, bodyLength: nat, blankBody: bool, root: Option<Json>,
    headers: Headers, detectHttp429: bool, classifyGeneric: bool)

  const EmptyObject: Json := Obj(map[])

  function Root(input: UsageInput): Json {
    if input.root.Some? && input.root.value.Obj? then input.root.value else EmptyObject
  }

  /** A codex request that failed, small enough to be read. */
  predicate Considered(input: UsageInput) {
    EqualFold(TrimSpace(input.provider), "codex") && input.failed && input.bodyLength <= MAX_FAILURE_BODY
  }

  /** The status of the response, or else the one its body names. */
  function Status(env: Env, input: UsageInput): int {
    var fields := Root(input).fields;
    var named := if "status_code" in fields then IntValue(env, fields["status_code"]) else 0;
    if input.status != 0 then input.status
    else if named != 0 then named
    else if "status" in fields then IntValue(env, fields["status"]) else 0
  }

  /** A generic rate-limit signal counts when it is opted into, and for status 429 only when
      that is detected. */
  predicate GenericCounts(env: Env, input: UsageInput) {
    input.classifyGeneric && (Status(env, input) != TOO_MANY_REQUESTS || input.detectHttp429)
  }

  ghost predicate Witness(env: Env, input: UsageInput) {
    var root := Root(input);
    || Possible(root, SignalKeys, UsageLimitText) || PossibleEvidence(env, root) || PhraseWitness(root)
    || Evident(env, root, input.headers)
    || (GenericCounts(env, input) && Possible(root, SignalKeys, RateLimitText))
  }

  /** A recognised inventory of at most 32 windows with an exhausted one; or no recognised
      inventory, and a family whose headers of one kind all say that it is exhausted. */
  ghost predicate ExhaustedInventory(env: Env, input: UsageInput) {
    if input.root.Some? && input.root.value.Obj? && RecognizedShape(input.root.value)
    then ShownExhausted(ReaderFor(env), input.root.value) && FewWindows(ReaderFor(env), input.root.value, |SpeakingFamilies(env, input.headers)|)
    else exists family :: family in Families && AllExhaust(env, input.headers, family)
  }

  /** Signs of exhaustion that are found in every map order. */
  ghost predicate Unmistakable(env: Env, input: UsageInput) {
    var root := Root(input);
    || Certain(root, SignalKeys, UsageLimitText) || CertainEvidence(env, root) || PhraseWitness(root)
    || ExhaustedInventory(env, input)
    || (GenericCounts(env, input) && Certain(root, SignalKeys, RateLimitText))
  }

  method EmbeddedStatus(env: Env, input: UsageInput) returns (status: int)
    ensures status == Status(env, input)
  {
    status := input.status;
    var root := Root(input);
    if status == 0 && "status_code" in root.fields {
      status := IntValue(env, root.fields["status_code"]);
    }
    if status == 0 && "status" in root.fields {
      status := IntValue(env, root.fields["status"]);
    }
  }

  function IntValue(env: Env, v: Json): int {
    var n := ToNumber(env, v);
    if n.None? || n.value < 0.0 || n.value > 2_147_483_647.0 then 0 else n.value.Floor
  }

  lemma HeadersExhausted(env: Env, root: Json, headers: Headers, windows: seq<QuotaWindow>)
    requires env.now >= ZERO_TIME && HeaderWindowsOf(env, headers, windows)
    ensures HasExhausted(windows) ==> Evident(env, root, headers)
    ensures (exists family :: family in Families && AllExhaust(env, headers, family)) ==> HasExhausted(windows)
  {
    SourceIsEvident(env, root, headers, windows);
    if family :| family in Families && AllExhaust(env, headers, family) {
      AlwaysExhausted(env, headers, family);
    }
  }

  predicate Recognized(input: UsageInput) {
    input.root.Some? && input.root.value.Obj? && RecognizedShape(input.root.value)
  }

  ghost predicate EventWindowsAre(env: Env, input: UsageInput, windows: seq<QuotaWindow>) {
    exists inventory :: JudgedBy(env, input, inventory, windows)
  }

  ghost predicate JudgedBy(env: Env, input: UsageInput, inventory: seq<QuotaWindow>, windows: seq<QuotaWindow>) {
    && (if Recognized(input) then InventoryOf(env, input.root.value, input.headers, inventory) else inventory == [])
    && (if inventory == [] then HeaderWindowsOf(env, input.headers, windows) else windows == inventory)
  }

  /** The windows an event is judged by: the inventory, or else what the headers say. */
  method EventWindows(env: Env, input: UsageInput) returns (windows: seq<QuotaWindow>)
    requires env.now >= ZERO_TIME
    ensures EventWindowsAre(env, input, windows)
    ensures HasExhausted(windows) ==> Evident(env, Root(input), input.headers)
    ensures ExhaustedInventory(env, input) ==> HasExhausted(windows)
  {
    windows := [];
    if input.root.Some? && input.root.value.Obj? {
      var recognized;
      windows, recognized := ParseInventory(env, input.root.value, input.headers);
    }
    ghost var inventory := windows;
    if windows == [] {
      windows := HeaderWindows(env, input.headers);
      HeadersExhausted(env, Root(input), input.headers, windows);
    }
    assert JudgedBy(env, input, inventory, windows);
  }

  /** Exhaustion is never decided without a witness and always decided on an unmistakable one.
      Its reset is the one `EventResetIs` defines for the event's windows, absent only when no
      source has one, and within a year. */
  method Classify(env: Env, input: UsageInput) returns (d: Decision, ghost windows: seq<QuotaWindow>)
    requires env.now >= ZERO_TIME
    ensures Considered(input) ==> EventWindowsAre(env, input, windows)
    ensures d.Exhausted? ==> EventResetIs(env, Root(input), windows, input.headers, d.resetAt) && d.windows == SafeWindows(windows)
    ensures d.Exhausted? ==> (d.resetAt == ZERO_TIME <==> NoReset(env, Root(input), windows, input.headers))
    ensures d.Transient? ==> ReasonOk(env, input, d.reason)
    ensures d.Exhausted? ==> Caused(env, input, d.reason)
    ensures Considered(input) && Certain(Root(input), SignalKeys, UsageLimitText) ==> d.Exhausted? && d.reason == "codex_usage_limit_reached"
    ensures d.Ignore? <==> !(EqualFold(TrimSpace(input.provider), "codex") && input.failed)
    ensures d.Exhausted? ==> Considered(input) && Witness(env, input)
    ensures Considered(input) && Unmistakable(env, input) ==> d.Exhausted?
    ensures d.Exhausted? ==> d.resetAt == ZERO_TIME || ValidReset(d.resetAt, env.now)
  {
    if !EqualFold(TrimSpace(input.provider), "codex") || !input.failed {
      return Ignore, [];
    }
    if input.bodyLength > MAX_FAILURE_BODY {
      return Transient("oversized_failure"), [];
    }
    var root := Root(input);
    var judged := EventWindows(env, input);
    windows := judged;
    var status := EmbeddedStatus(env, input);
    var found := AnyFieldSays(root, SignalKeys, UsageLimitText);
    if found {
      d := Decide(env, root, "codex_usage_limit_reached", judged, input.headers);
      return;
    }
    found := ExplicitQuotaEvidence(env, root, judged);
    if found {
      d := Decide(env, root, "codex_quota_evidence", judged, input.headers);
      return;
    }
    var generic := AnyFieldSays(root, SignalKeys, RateLimitText);
    if status == TOO_MANY_REQUESTS && input.detectHttp429 {
      if input.classifyGeneric && generic {
        d := Decide(env, root, "codex_generic_rate_limit", judged, input.headers);
        return;
      }
      return Transient("bare_429"), judged;
    }
    if input.classifyGeneric && generic && (status != TOO_MANY_REQUESTS || input.detectHttp429) {
      d := Decide(env, root, "codex_generic_rate_limit", judged, input.headers);
      return;
    }
    var valid := input.root.Some? && input.root.value.Obj?;
    d := Transient(if !valid && !input.blankBody then "invalid_failure" else "non_quota_failure");
  }

  /** A decision for exhaustion, with its windows and its reset. */
  method Decide(env: Env, root: Json, reason: string, windows: seq<QuotaWindow>, headers: Headers) returns (d: Decision)
    requires env.now >= ZERO_TIME
    ensures d.Exhausted? && d.reason == reason && d.windows == SafeWindows(windows)
    ensures EventResetIs(env, root, windows, headers, d.resetAt) && (d.resetAt == ZERO_TIME <==> NoReset(env, root, windows, headers))
    ensures d.resetAt == ZERO_TIME || ValidReset(d.resetAt, env.now)
  {
    var safe := SafeQuotaWindows(windows);
    var resetAt := ResetForEvent(env, root, windows, headers);
    d := Exhausted(reason, resetAt, safe);
  }

  /** The reason given for an exhaustion has a witness of its own kind. */
  ghost predicate Caused(env: Env, input: UsageInput, reason: string) {
    var root := Root(input);
    || (reason == "codex_usage_limit_reached" && Possible(root, SignalKeys, UsageLimitText))
    || (reason == "codex_quota_evidence"
        && (PossibleEvidence(env, root) || PhraseWitness(root) || Evident(env, root, input.headers)))
    || (reason == "codex_generic_rate_limit" && Possible(root, SignalKeys, RateLimitText)
        && input.classifyGeneric && (Status(env, input) == 429 ==> input.detectHttp429))
  }

  /** Why an event is held to be transient. */
  predicate ReasonOk(env: Env, input: UsageInput, reason: string) {
    if input.bodyLength > MAX_FAILURE_BODY then reason == "oversized_failure"
    else if Status(env, input) == TOO_MANY_REQUESTS && input.detectHttp429 then reason == "bare_429"
    else if !(input.root.Some? && input.root.value.Obj?) && !input.blankBody then reason == "invalid_failure"
    else reason == "non_quota_failure"
  }
}
