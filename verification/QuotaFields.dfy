/** How a single window and a single header are read: of several names for one thing the first
    that can be read counts, and every field of the result is what one of them says. */
module QuotaFields {
  import opened Basics
  import opened Domain
  import opened JsonTree
  import opened QuotaTime
  import opened QuotaWalk
  import opened QuotaResets
  import opened QuotaHeaders
  import opened QuotaClassify

  // ---------------------------------------------------------------- the first name that can be read

  /** Nothing if no key can be read, else what the first readable key says. */
  ghost predicate FirstRead<T>(m: map<string, Json>, keys: seq<string>, read: Json -> Option<T>, r: Option<T>) {
    if r.None? then forall k :: k in keys && k in m ==> read(m[k]).None?
    else exists i :: 0 <= i < |keys| && ReadAt(m, keys, read, i, r)
  }

  ghost predicate ReadAt<T>(m: map<string, Json>, keys: seq<string>, read: Json -> Option<T>, i: int, r: Option<T>)
    requires 0 <= i < |keys|
  {
    && keys[i] in m && read(m[keys[i]]) == r
    && forall j :: 0 <= j < i && keys[j] in m ==> read(m[keys[j]]).None?
  }

  lemma FirstReadTail<T>(m: map<string, Json>, keys: seq<string>, read: Json -> Option<T>, r: Option<T>)
    requires keys != [] && FirstRead(m, keys[1..], read, r) && (keys[0] in m ==> read(m[keys[0]]).None?)
    ensures FirstRead(m, keys, read, r)
  {
    if r.Some? {
      var i :| 0 <= i < |keys[1..]| && ReadAt(m, keys[1..], read, i, r);
      assert forall j :: 1 <= j < |keys| ==> keys[j] == keys[1..][j - 1];
      assert ReadAt(m, keys, read, i + 1, r);
    }
  }

  lemma {:induction false} NumberFieldFirst(env: Env, m: map<string, Json>, keys: seq<string>)
    ensures FirstRead(m, keys, v => ToNumber(env, v), NumberField(env, m, keys))
  {
    if keys != [] {
      if keys[0] in m && ToNumber(env, m[keys[0]]).Some? {
        assert ReadAt(m, keys, v => ToNumber(env, v), 0, NumberField(env, m, keys));
      } else {
        NumberFieldFirst(env, m, keys[1..]);
        FirstReadTail(m, keys, v => ToNumber(env, v), NumberField(env, m, keys));
      }
    }
  }

  lemma {:induction false} AbsoluteFirst(env: Env, m: map<string, Json>, keys: seq<string>)
    ensures FirstRead(m, keys, v => ParseTimeValue(env, v), FirstAbsolute(env, m, keys))
  {
    if keys != [] {
      if keys[0] in m && ParseTimeValue(env, m[keys[0]]).Some? {
        assert ReadAt(m, keys, v => ParseTimeValue(env, v), 0, FirstAbsolute(env, m, keys));
      } else {
        AbsoluteFirst(env, m, keys[1..]);
        FirstReadTail(m, keys, v => ParseTimeValue(env, v), FirstAbsolute(env, m, keys));
      }
    }
  }

  lemma {:induction false} RelativeFirst(env: Env, m: map<string, Json>, keys: seq<string>)
    ensures FirstRead(m, keys, v => AfterSeconds(env, v), FirstRelative(env, m, keys))
  {
    if keys != [] {
      if keys[0] in m && AfterSeconds(env, m[keys[0]]).Some? {
        assert ReadAt(m, keys, v => AfterSeconds(env, v), 0, FirstRelative(env, m, keys));
      } else {
        RelativeFirst(env, m, keys[1..]);
        FirstReadTail(m, keys, v => AfterSeconds(env, v), FirstRelative(env, m, keys));
      }
    }
  }

  /** The first key that is there counts for a flag, even if it is no truth value. */
  ghost predicate FlagRead(m: map<string, Json>, keys: seq<string>, r: Option<bool>) {
    || (r.None? && forall k :: k in keys ==> k !in m)
    || exists i :: 0 <= i < |keys| && FlagAt(m, keys, i, r)
  }

  ghost predicate FlagAt(m: map<string, Json>, keys: seq<string>, i: int, r: Option<bool>)
    requires 0 <= i < |keys|
  {
    keys[i] in m && ToBool(m[keys[i]]) == r && forall j :: 0 <= j < i ==> keys[j] !in m
  }

  lemma {:induction false} FlagFirst(m: map<string, Json>, keys: seq<string>)
    ensures FlagRead(m, keys, BoolField(m, keys))
  {
    if keys != [] {
      if keys[0] in m {
        assert FlagAt(m, keys, 0, BoolField(m, keys));
      } else {
        FlagFirst(m, keys[1..]);
        assert forall j :: 1 <= j < |keys| ==> keys[j] == keys[1..][j - 1];
        if i :| 0 <= i < |keys[1..]| && FlagAt(m, keys[1..], i, BoolField(m, keys)) {
          assert FlagAt(m, keys, i + 1, BoolField(m, keys));
        }
      }
    }
  }

  // ---------------------------------------------------------------- one window

  /** The reset of a window: its first readable instant, else its first readable distance. */
  ghost predicate ResetRead(env: Env, m: map<string, Json>, r: Option<Time>) {
    exists at :: FirstRead(m, ["resets_at", "reset_at", "resetsAt", "resetAt", "reset_time", "resetTime"], v => ParseTimeValue(env, v), at)
                 && if at.Some? then r == at
                    else FirstRead(m, ["resets_in_seconds", "reset_after_seconds", "resetsInSeconds", "resetAfterSeconds"],
                                   v => AfterSeconds(env, v), r)
  }

  /** What an object says of a window. */
  ghost predicate ReadAs(env: Env, m: map<string, Json>, used: Option<real>, limit: Option<bool>, allowed: Option<bool>,
                         seconds: Option<real>, reset: Option<Time>) {
    && FirstRead(m, ["used_percent", "usedPercent", "used_percentage"], v => ToNumber(env, v), used)
    && FlagRead(m, ["limit_reached", "limitReached", "exhausted"], limit)
    && FlagRead(m, ["allowed"], allowed)
    && FirstRead(m, ["limit_window_seconds", "window_seconds", "windowSeconds", "duration_seconds"], v => ToNumber(env, v), seconds)
    && ResetRead(env, m, reset)
  }

  ghost predicate WindowSays(w: QuotaWindow, family: string, used: Option<real>, limit: Option<bool>, allowed: Option<bool>,
                             seconds: Option<real>, reset: Option<Time>) {
    && w.family == SafeFamily(family) && w.usedPercent == used && w.allowed == allowed
    && (w.limitReached <==> limit == Some(true))
    && w.resetAt == (if reset.Some? then reset.value else ZERO_TIME)
    && (seconds.None? ==> w.windowSeconds == 0)
    && (seconds.Some? && 0.0 <= seconds.value <= MAX_INT64 ==>
          w.windowSeconds as real <= seconds.value < w.windowSeconds as real + 1.0)
    && (seconds.Some? && !(0.0 <= seconds.value <= MAX_INT64) ==> w.windowSeconds == 0)
    && (w.blocking <==> limit == Some(true) || allowed == Some(false) || (used.Some? && used.value >= 100.0))
  }

  /** An object is a window if it says anything of one; the window then says the same, and blocks
      exactly on a reached limit, a denial, or a used percentage of 100 or more. */
  lemma WindowIsRead(env: Env, m: map<string, Json>, family: string)
      returns (used: Option<real>, limit: Option<bool>, allowed: Option<bool>, seconds: Option<real>, reset: Option<Time>)
    ensures ReadAs(env, m, used, limit, allowed, seconds, reset)
    ensures var w := ParseWindow(env, m, family);
            && (w.None? <==> used.None? && limit.None? && allowed.None? && seconds.None? && reset.None?)
            && (w.Some? ==> WindowSays(w.value, family, used, limit, allowed, seconds, reset))
  {
    used, seconds := NumberField(env, m, UsedKeys), NumberField(env, m, SecondsKeys);
    limit, allowed, reset := BoolField(m, LimitKeys), BoolField(m, AllowedKeys), WindowReset(env, m);
    NumberFieldFirst(env, m, UsedKeys);
    NumberFieldFirst(env, m, SecondsKeys);
    FlagFirst(m, LimitKeys);
    FlagFirst(m, AllowedKeys);
    ResetFirst(env, m);
  }

  lemma ResetFirst(env: Env, m: map<string, Json>)
    ensures ResetRead(env, m, WindowReset(env, m))
  {
    AbsoluteFirst(env, m, WindowResetKeys);
    RelativeFirst(env, m, WindowAfterKeys);
  }

  // ---------------------------------------------------------------- where windows are looked for

  /** A key that names a window, whatever its case. */
  predicate NamesWindow(key: string) {
    || Contains(ToLower(key), "window") || HasSuffix(ToLower(key), "rate_limit") || HasSuffix(ToLower(key), "rate_limits")
  }

  lemma LowerJoin(a: string, b: string)
    ensures ToLower(a + b) == ToLower(a) + ToLower(b)
  {
  }

  lemma SuffixOfJoin(a: string, b: string, suffix: string)
    requires HasSuffix(b, suffix)
    ensures HasSuffix(a + b, suffix)
  {
    assert (a + b)[|a + b| - |suffix|..] == b[|b| - |suffix|..];
  }

  lemma {:induction false} ContainsJoin(a: string, b: string, part: string)
    requires Contains(b, part)
    ensures Contains(a + b, part)
    decreases a
  {
    if a == "" {
      assert a + b == b;
    } else {
      assert (a + b)[1..] == a[1..] + b;
      ContainsJoin(a[1..], b, part);
    }
  }

  /** Wherever an object stands under a key that names a window, it is read as one. */
  lemma NamedIsCandidate(p: Path, key: string)
    requires NamesWindow(key)
    ensures IsCandidate(PathText(p + [Key(key)]))
  {
    PathTextExtend(p, Key(key));
    if PathText(p) != "" {
      var front := PathText(p) + ".";
      LowerJoin(front, key);
      if Contains(ToLower(key), "window") {
        ContainsJoin(ToLower(front), ToLower(key), "window");
      } else if HasSuffix(ToLower(key), "rate_limit") {
        SuffixOfJoin(ToLower(front), ToLower(key), "rate_limit");
      } else {
        SuffixOfJoin(ToLower(front), ToLower(key), "rate_limits");
      }
    }
  }

  lemma {:induction false} LastKey(front: string, key: string)
    requires forall i :: 0 <= i < |key| ==> key[i] != '.'
    requires front == "" || front[|front| - 1] == '.'
    ensures LastSegment(front + key) == key
    decreases |key|
  {
    if key == "" {
      assert front + key == front;
    } else {
      var n := |key| - 1;
      assert (front + key)[..|front + key| - 1] == front + key[..n];
      LastKey(front, key[..n]);
    }
  }

  lemma KeyIsFamily(p: Path, key: string)
    requires key != "" && forall i :: 0 <= i < |key| ==> key[i] != '.'
    ensures LastSegment(PathText(p + [Key(key)])) == key && PathText(p + [Key(key)]) != ""
  {
    PathTextExtend(p, Key(key));
    if PathText(p) == "" {
      LastKey("", key);
      assert "" + key == key;
    } else {
      LastKey(PathText(p) + ".", key);
    }
  }

  lemma TrimExact(base: string, suffix: string)
    ensures TrimSuffix(base + suffix, suffix) == base
  {
    assert (base + suffix)[|base|..] == suffix && (base + suffix)[..|base|] == base;
  }

  lemma EndsOtherwise(s: string, suffix: string, k: nat)
    requires 1 <= k <= |suffix| <= |s| && s[|s| - k] != suffix[|suffix| - k]
    ensures TrimSuffix(s, suffix) == s
  {
    assert s[|s| - |suffix|..][|suffix| - k] == s[|s| - k];
  }

  /** The end "_window" or "Window" of a key is not part of the family's name. */
  lemma WindowIsCut(base: string)
    requires |base| >= 6 && base[|base| - 1] == 'y'
    ensures TrimSuffix(TrimSuffix(base + "_window", "_window"), "Window") == base
    ensures TrimSuffix(TrimSuffix(base + "Window", "_window"), "Window") == base
  {
    TrimExact(base, "_window");
    TrimExact(base, "Window");
    EndsOtherwise(base, "Window", 1);
    EndsOtherwise(base + "Window", "_window", 6);
  }

  /** The two windows of an ordinary response are the primary and the secondary one, under either
      spelling and wherever they stand. */
  lemma OrdinaryFamilies(p: Path, base: string, key: string)
    requires base in {"primary", "secondary"} && (key == base + "_window" || key == base + "Window")
    ensures FamilyName(PathText(p + [Key(key)])) == base
  {
    Dotless(base, key);
    WindowIsCut(base);
    KeyIsFamily(p, key);
    CutFamily(PathText(p + [Key(key)]), key, base);
  }

  lemma CutFamily(path: string, key: string, base: string)
    requires path != "" && LastSegment(path) == key && base != "" && TrimSuffix(TrimSuffix(key, "_window"), "Window") == base
    ensures FamilyName(path) == base
  {
  }

  lemma Dotless(base: string, key: string)
    requires base in {"primary", "secondary"} && (key == base + "_window" || key == base + "Window")
    ensures |base| >= 6 && base[|base| - 1] == 'y' && forall i :: 0 <= i < |key| ==> key[i] != '.'
  {
  }

  // ---------------------------------------------------------------- what counts as an inventory

  /** The body, its body, and so on. */
  function Bodies(n: nat): Path {
    seq(n, i => Key("body"))
  }

  /** It holds one of the families, as an object, or a list of additional ones. */
  predicate HoldsFamily(m: map<string, Json>) {
    || (exists key :: key in {"rate_limit", "rateLimit", "code_review_rate_limit", "codeReviewRateLimit"} && key in m && m[key].Obj?)
    || (exists key :: key in {"additional_rate_limits", "additionalRateLimits"} && key in m && m[key].Arr?)
  }

  ghost predicate FamilyAt(v: Json, n: nat) {
    ObjectAt(v, Bodies(n)) && HoldsFamily(At(v, Bodies(n)).value.fields)
  }

  lemma BodyBelow(v: Json, n: nat)
    requires v.Obj?
    ensures At(v, Bodies(n + 1)) == if "body" in v.fields then At(v.fields["body"], Bodies(n)) else None
  {
    assert Bodies(n + 1) == [Key("body")] + Bodies(n);
    AtCons(v, Key("body"), Bodies(n));
  }

  lemma MembersFamily(v: Json)
    requires v.Obj?
    ensures var m := v.fields;
            || HoldsObject(m, "rate_limit") || HoldsObject(m, "rateLimit")
            || HoldsObject(m, "code_review_rate_limit") || HoldsObject(m, "codeReviewRateLimit")
            || HoldsList(m, "additional_rate_limits") || HoldsList(m, "additionalRateLimits")
            ==> HoldsFamily(m) || ("body" in m && m["body"].Obj? && HoldsFamily(m["body"].fields))
    ensures HoldsFamily(v.fields) ==> RecognizedShape(v)
  {
  }

  /** A response is taken for an inventory exactly if it, or its body at whatever depth, holds one
      of the rate-limit families as an object or the additional ones as a list. */
  lemma {:induction false} InventoryExactly(v: Json)
    requires v.Obj?
    ensures RecognizedShape(v) <==> exists n: nat :: FamilyAt(v, n)
    decreases v
  {
    assert Bodies(0) == [] && At(v, []) == Some(v);
    MembersFamily(v);
    if HoldsFamily(v.fields) {
      assert FamilyAt(v, 0);
    }
    if "body" in v.fields && v.fields["body"].Obj? {
      var b := v.fields["body"];
      InventoryExactly(b);
      BodyBelow(v, 0);
      if HoldsFamily(b.fields) {
        assert Bodies(0) == [] && FamilyAt(b, 0);
      }
      if n: nat :| FamilyAt(b, n) {
        BodyBelow(v, n);
        assert FamilyAt(v, n + 1);
      }
    }
    if n: nat :| FamilyAt(v, n) {
      if n > 0 {
        BodyBelow(v, n - 1);
        NoBodyNoFamily(v, n);
        assert FamilyAt(v.fields["body"], n - 1);
      }
    }
  }

  /** What lies in the body of a body lies in an object. */
  lemma NoBodyNoFamily(v: Json, n: nat)
    requires v.Obj? && n > 0 && FamilyAt(v, n)
    ensures "body" in v.fields && v.fields["body"].Obj?
  {
    BodyBelow(v, n - 1);
    if n > 1 {
      PrefixExists(v.fields["body"], Bodies(n - 1), 1);
      assert Bodies(n - 1)[..1] == [Key("body")];
      assert [Key("body")][..0] == [];
    } else {
      assert Bodies(0) == [];
    }
  }

  // ---------------------------------------------------------------- one header

  /** A Codex header of one of the five kinds speaks for the family between prefix and suffix. */
  lemma HeaderSpeaksFor(name: string, middle: string, kind: HeaderKind)
    requires kind.UsedHeader? ==> ToLower(TrimSpace(name)) == "x-codex-" + middle + "-used-percent"
    requires kind.LimitHeader? ==> ToLower(TrimSpace(name)) == "x-codex-" + middle + "-limit-reached"
    requires kind.AllowedHeader? ==> ToLower(TrimSpace(name)) == "x-codex-" + middle + "-allowed"
    requires kind.AfterHeader? ==> ToLower(TrimSpace(name)) == "x-codex-" + middle + "-reset-after-seconds"
    requires kind.AtHeader? ==> ToLower(TrimSpace(name)) == "x-codex-" + middle + "-reset-at"
    ensures HeaderFamily(name, kind) == Some(SafeFamily(middle))
  {
    var lower, suffix := ToLower(TrimSpace(name)), Suffix(kind);
    assert lower == "x-codex-" + middle + suffix;
    assert lower[|lower| - |suffix|..] == suffix;
    assert lower[|CODEX_PREFIX|..] == middle + suffix;
    assert (middle + suffix)[|middle|..] == suffix && (middle + suffix)[..|middle|] == middle;
  }

  /** And only such a header speaks for one. */
  lemma OnlyCodexSpeaks(name: string, kind: HeaderKind)
    requires HeaderFamily(name, kind).Some?
    ensures |ToLower(TrimSpace(name))| >= 8 && ToLower(TrimSpace(name))[..8] == "x-codex-"
    ensures HasSuffix(ToLower(TrimSpace(name)), Suffix(kind))
  {
  }

  /** The texts read as a truth value. */
  predicate Truth(raw: string, b: bool) {
    raw in if b then {"1", "t", "T", "TRUE", "true", "True"} else {"0", "f", "F", "FALSE", "false", "False"}
  }

  lemma TruthIsRead(raw: string)
    ensures (ParseBool(raw) == Some(true) <==> Truth(raw, true)) && (ParseBool(raw) == Some(false) <==> Truth(raw, false))
  {
  }

  /** What a header says is its first value, trimmed: a percentage within bounds, a truth value,
      or a reset within the year. */
  lemma HeaderSays(env: Env, values: seq<string>, kind: HeaderKind, r: Reading)
    ensures HeaderReading(env, values, kind) == Some(r) <==>
            values != [] && var raw := TrimSpace(values[0]);
            match r
            case UsedIs(percent) => kind.UsedHeader? && env.float(raw) == Some(percent) && 0.0 <= percent <= 1000.0
            case LimitIs(b) => kind.LimitHeader? && Truth(raw, b)
            case AllowedIs(b) => kind.AllowedHeader? && Truth(raw, b)
            case ResetIs(t) => (kind.AfterHeader? && AfterSeconds(env, Text(raw)) == Some(t)) || (kind.AtHeader? && ParseTime(env, raw) == Some(t))
  {
    if values != [] {
      TruthIsRead(TrimSpace(values[0]));
    }
  }

  /** A header of the first class gives an instant or a distance, by the end of its name; a
      Retry-After header one or the other, by its text; no other header gives a reset. */
  lemma ResetHeaders(env: Env, name: string, raw: string)
    ensures HasPrefix(ToLower(name), "x-codex-") && HasSuffix(ToLower(name), "reset-at") ==>
              HeaderValue(env, name, raw, Codex) == ParseTime(env, raw)
    ensures HasPrefix(ToLower(name), "x-codex-") && HasSuffix(ToLower(name), "reset-after-seconds") ==>
              HeaderValue(env, name, raw, Codex) == AfterSeconds(env, Text(raw))
    ensures ToLower(name) == "retry-after" ==> HeaderValue(env, name, raw, RetryAfter) == ParseTime(env, raw)
    ensures HeaderValue(env, name, raw, Codex).Some? ==> HasPrefix(ToLower(name), "x-codex-")
    ensures HeaderValue(env, name, raw, RetryAfter).Some? ==> ToLower(name) == "retry-after"
  {
    if HasSuffix(ToLower(name), "reset-at") {
      LastOf(ToLower(name), "reset-at", 't');
    }
    if HasSuffix(ToLower(name), "reset-after-seconds") {
      LastOf(ToLower(name), "reset-after-seconds", 's');
    }
  }

  lemma LastOf(s: string, suffix: string, c: char)
    requires suffix != "" && suffix[|suffix| - 1] == c && HasSuffix(s, suffix)
    ensures s != "" && s[|s| - 1] == c
  {
    assert s[|s| - |suffix|..][|suffix| - 1] == s[|s| - 1];
  }

  /** A window that the headers may give, field by field: each is said of its family by some
      header, or open where none speaks of it; it blocks exactly on its own evidence. */
  ghost predicate FieldsSaid(said: iset<Reading>, w: QuotaWindow) {
    && MayUse(said, w.usedPercent) && MayAllow(said, w.allowed) && MayReset(said, w.resetAt)
    && (w.limitReached ==> LimitIs(true) in said)
    && (!w.limitReached ==> LimitIs(false) in said || LimitIs(true) !in said)
    && w.windowSeconds == 0
    && (w.blocking <==> w.limitReached || w.allowed == Some(false) || (w.usedPercent.Some? && w.usedPercent.value >= 100.0))
  }

  lemma HeaderWindowMeans(env: Env, headers: Headers, w: QuotaWindow)
    requires env.now >= ZERO_TIME
    ensures MayRead(env, headers, w)
            <==> w.family in SpeakingFamilies(env, headers) && FieldsSaid(Said(env, headers, w.family), w)
  {
    var said := Said(env, headers, w.family);
    MayReadMeans(env, headers, w);
    if FieldsSaid(said, w) {
      var limit := if w.limitReached then Some(true) else if LimitIs(false) in said then Some(false) else None;
      var e := Entry(w.usedPercent, limit, w.allowed, w.resetAt);
      assert MayEnter(said, e) && w == WindowOf(w.family, e);
    }
  }

  // ---------------------------------------------------------------- the rest of an event

  /** If the headers give a reset at all, no blocking window of an inventory is without one. */
  lemma InventoryHasResets(env: Env, root: Json, headers: Headers, windows: seq<QuotaWindow>)
    requires env.now >= ZERO_TIME && InventoryOf(env, root, headers, windows) && !HeadersSilent(env, headers)
    ensures forall w :: w in windows && w.blocking ==> w.resetAt != ZERO_TIME
  {
    var headerWindows, reset, collected, merged :|
      HeaderWindowsOf(env, headers, headerWindows) && HeaderResetIs(env, headers, reset)
      && InventoryIs(ReaderFor(env), root, headerWindows, reset, collected, merged, windows);
    HeaderGiven(env, headers, reset);
    ShownHaveResets(env, root, headers, headerWindows, reset, collected, merged, windows);
  }

  lemma ShownHaveResets(env: Env, root: Json, headers: Headers, headerWindows: seq<QuotaWindow>, reset: Time,
                        collected: seq<QuotaWindow>, merged: seq<QuotaWindow>, windows: seq<QuotaWindow>)
    requires env.now >= ZERO_TIME && reset != ZERO_TIME && HeaderWindowsOf(env, headers, headerWindows)
    requires InventoryIs(ReaderFor(env), root, headerWindows, reset, collected, merged, windows)
    ensures forall w :: w in windows && w.blocking ==> w.resetAt != ZERO_TIME
  {
    forall i | 0 <= i < |windows|
      ensures windows[i].blocking ==> windows[i].resetAt != ZERO_TIME
    {
      MergedBlocks(env, root, headers, merged, collected, headerWindows, i);
      BlockingIsFilled(merged[i], reset);
    }
  }

  lemma BlockingIsFilled(w: QuotaWindow, reset: Time)
    requires w.blocking == w.IsExhausted() && reset != ZERO_TIME
    ensures SafeWindow(WithReset(w, reset)).blocking ==> SafeWindow(WithReset(w, reset)).resetAt != ZERO_TIME
  {
  }

  lemma HeaderGiven(env: Env, headers: Headers, reset: Time)
    requires env.now >= ZERO_TIME && HeaderResetIs(env, headers, reset) && !HeadersSilent(env, headers)
    ensures reset != ZERO_TIME
  {
    HeadersNone(env, headers);
    var name, raw, c :| name in headers && raw in headers[name] && HeaderValue(env, name, raw, c).Some?;
    assert InHeaders(env, headers, headers.Keys, c, HeaderValue(env, name, raw, c).value);
  }

  lemma MergedBlocks(env: Env, root: Json, headers: Headers, merged: seq<QuotaWindow>, collected: seq<QuotaWindow>,
                     headerWindows: seq<QuotaWindow>, i: nat)
    requires env.now >= ZERO_TIME && HeaderWindowsOf(env, headers, headerWindows) && MergedIs(merged, collected, headerWindows)
    requires (exists paths :: Collected(ReaderFor(env), root, Under([]), collected, paths)) && i < |merged|
    ensures merged[i].blocking == merged[i].IsExhausted()
  {
    if i < |collected| {
      CollectedMeans(ReaderFor(env), root, collected);
      assert collected[i] in collected;
      assert MergedAt(merged[i], collected[i], headerWindows);
    } else {
      assert merged[i] in headerWindows;
      HeaderWindowMeans(env, headers, merged[i]);
    }
  }

  /** No header gives a reset. */
  ghost predicate HeadersSilent(env: Env, headers: Headers) {
    forall name, raw, c :: name in headers && raw in headers[name] ==> HeaderValue(env, name, raw, c).None?
  }

  /** Texts are compared without regard to the case of A to Z. */
  lemma FoldsCase(a: string, b: string)
    ensures EqualFold(a, b) <==> |a| == |b| && forall i :: 0 <= i < |a| ==> LowerChar(a[i]) == LowerChar(b[i])
  {
    assert EqualFold(a, b) ==> forall i :: 0 <= i < |a| ==> LowerChar(a[i]) == ToLower(a)[i] == ToLower(b)[i];
  }

  /** The status an event is judged by: its own, or else the first of the two its body may name
      that is a whole number above zero. */
  lemma StatusIs(env: Env, input: UsageInput)
    ensures input.status != 0 ==> Status(env, input) == input.status
    ensures var m := Root(input).fields;
            input.status == 0 ==>
              && ("status_code" in m && IntValue(env, m["status_code"]) != 0 ==> Status(env, input) == IntValue(env, m["status_code"]))
              && (("status_code" !in m || IntValue(env, m["status_code"]) == 0) && "status" in m ==> Status(env, input) == IntValue(env, m["status"]))
              && ("status_code" !in m && "status" !in m ==> Status(env, input) == 0)
  {
  }

  /** A whole number that fits 32 bits is read as it is, from a number or from text. */
  lemma WholeNumberIs(env: Env, v: Json, text: string, n: nat)
    requires v == Number(text) || v == Text(text)
    requires env.float(if v.Number? then text else TrimSpace(text)) == Some(n as real) && n <= 2_147_483_647
    ensures IntValue(env, v) == n
  {
  }

  // ---------------------------------------------------------------- the signs of exhaustion

  predicate Truthy(v: Json, b: bool) {
    v == Bool(b) || (v.Text? && Truth(TrimSpace(v.text), b))
  }

  lemma TruthyIsRead(v: Json)
    ensures (IsTrue(v) <==> Truthy(v, true)) && (IsFalse(v) <==> Truthy(v, false))
  {
    if v.Text? {
      TruthIsRead(TrimSpace(v.text));
    }
  }

  ghost predicate FlagSet(root: Json) {
    exists key, v :: key in {"limit_reached", "quota_exhausted", "quota_depleted", "no_credits", "noCredits", "is_quota_exhausted"}
                     && Named(root, key, v) && Truthy(v, true)
  }

  ghost predicate UseDenied(root: Json) {
    exists v :: Named(root, "allowed", v) && Truthy(v, false)
  }

  ghost predicate NoCredits(env: Env, root: Json) {
    exists v :: Named(root, "credits_remaining", v) && ToNumber(env, v).Some? && ToNumber(env, v).value <= 0.0
  }

  /** The fields that speak of exhaustion: a flag that is set, a denial, or no credits left. */
  lemma EvidenceMeans(env: Env, root: Json)
    ensures PossibleEvidence(env, root) <==> FlagSet(root) || UseDenied(root) || NoCredits(env, root)
  {
    FlagMeans(root);
    DenialMeans(root);
    CreditsMean(env, root);
  }

  lemma DenialMeans(root: Json)
    ensures Possible(root, AllowedKey, IsFalse) <==> UseDenied(root)
  {
    if key, v :| key in AllowedKey && Named(root, key, v) && IsFalse(v) {
      TruthyIsRead(v);
    }
    if v :| Named(root, "allowed", v) && Truthy(v, false) {
      TruthyIsRead(v);
      assert "allowed" in AllowedKey;
    }
  }

  lemma CreditsMean(env: Env, root: Json)
    ensures Possible(root, CreditsKey, NothingLeft(env)) <==> NoCredits(env, root)
  {
    if v :| Named(root, "credits_remaining", v) && ToNumber(env, v).Some? && ToNumber(env, v).value <= 0.0 {
      assert "credits_remaining" in CreditsKey && NothingLeft(env)(v);
    }
  }

  lemma FlagMeans(root: Json)
    ensures Possible(root, FlagKeys, IsTrue) <==> FlagSet(root)
  {
    if key, v :| key in FlagKeys && Named(root, key, v) && IsTrue(v) {
      TruthyIsRead(v);
    }
    if key, v :| key in {"limit_reached", "quota_exhausted", "quota_depleted", "no_credits", "noCredits", "is_quota_exhausted"}
                 && Named(root, key, v) && Truthy(v, true) {
      TruthyIsRead(v);
      assert key in FlagKeys;
    }
  }

  /** The error names itself a usage limit, in its type, its code or its reason. */
  lemma UsageLimitMeans(root: Json)
    ensures Possible(root, SignalKeys, UsageLimitText)
            <==> exists key, v :: key in {"type", "code", "reason"} && Named(root, key, v) && v.Text?
                                  && ToLower(TrimSpace(v.text)) == "usage_limit_reached"
  {
    LowerFixed("usage_limit_reached");
    if key, v :| key in {"type", "code", "reason"} && Named(root, key, v) && v.Text? && ToLower(TrimSpace(v.text)) == "usage_limit_reached" {
      assert key in SignalKeys && UsageLimitText(v);
    }
  }

  predicate Phrase(phrase: string) {
    phrase in {"no credits", "no_credits", "quota exhausted", "quota_exhausted", "quota depleted", "insufficient_quota"}
  }

  /** The phrases that tell, in any text of the response and any case. */
  lemma PhraseMeans(text: string)
    ensures PhraseText(text) <==> exists phrase :: Phrase(phrase) && Contains(ToLower(text), phrase)
  {
    assert Phrase("no credits") && Phrase("no_credits") && Phrase("quota exhausted");
    assert Phrase("quota_exhausted") && Phrase("quota depleted") && Phrase("insufficient_quota");
    if phrase :| Phrase(phrase) && Contains(ToLower(text), phrase) {
      assert PhraseText(text);
    }
  }
}
