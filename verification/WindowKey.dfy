/** The generation key of a reset window. Two observations get the same key exactly when
    they describe the same windows, in whatever order they list them. */
module WindowKey {
  import opened Basics
  import opened Domain

  /** The texts the key is made of: JSON of one window, RFC 3339 text of a time, and the
      hexadecimal digest of the JSON of a list. */
  datatype Encoding = Encoding(value: QuotaWindow -> string, time: Time -> string, digest: seq<QuotaWindow> -> string)

  const BAR: char := '|'

  /** A time has at most 35 characters, a digest 64, and neither contains the separator. */
  ghost predicate Lawful(enc: Encoding) {
    && (forall t :: BAR !in enc.time(t) && |enc.time(t)| <= 35)
    && (forall ws :: BAR !in enc.digest(ws) && |enc.digest(ws)| == 64)
  }

  /** The JSON texts of these windows tell them apart. */
  ghost predicate Faithful(enc: Encoding, ws: multiset<QuotaWindow>) {
    forall a, b :: a in ws && b in ws && enc.value(a) == enc.value(b) ==> a == b
  }

  // ---------------------------------------------------------------- the comparator

  /** `left` sorts before `right`. */
  predicate Before(enc: Encoding, left: QuotaWindow, right: QuotaWindow) {
    if left.family != right.family then StrLess(left.family, right.family)
    else if left.resetAt != right.resetAt then left.resetAt < right.resetAt
    else if left.windowSeconds != right.windowSeconds then left.windowSeconds < right.windowSeconds
    else if left.limitReached != right.limitReached then !left.limitReached
    else if left.blocking != right.blocking then !left.blocking
    else StrLess(enc.value(left), enc.value(right))
  }

  lemma BeforeTotal(enc: Encoding, a: QuotaWindow, b: QuotaWindow)
    requires enc.value(a) == enc.value(b) ==> a == b
    ensures Before(enc, a, b) || Before(enc, b, a) || a == b
    ensures !(Before(enc, a, b) && Before(enc, b, a))
  {
    StrLessTotal(a.family, b.family);
    StrLessTotal(enc.value(a), enc.value(b));
  }

  /** The first of these fields in which two windows differ decides: family, reset, length, and
      then whether the limit is reached or the window blocks, with the milder one first. */
  lemma BeforeByFields(enc: Encoding, a: QuotaWindow, b: QuotaWindow)
    requires Before(enc, a, b)
    ensures a.family == b.family || StrLess(a.family, b.family)
    ensures a.family == b.family ==> a.resetAt <= b.resetAt
    ensures a.family == b.family && a.resetAt == b.resetAt ==> a.windowSeconds <= b.windowSeconds
    ensures var same := a.family == b.family && a.resetAt == b.resetAt && a.windowSeconds == b.windowSeconds;
            && (same && a.limitReached ==> b.limitReached)
            && (same && a.limitReached == b.limitReached && a.blocking ==> b.blocking)
  {
  }

  lemma BeforeTransitive(enc: Encoding, a: QuotaWindow, b: QuotaWindow, c: QuotaWindow)
    requires Before(enc, a, b) && Before(enc, b, c)
    ensures Before(enc, a, c)
  {
    if StrLess(a.family, b.family) && StrLess(b.family, c.family) {
      StrLessTransitive(a.family, b.family, c.family);
    }
    StrLessTotal(a.family, b.family);
    if StrLess(enc.value(a), enc.value(b)) && StrLess(enc.value(b), enc.value(c)) {
      StrLessTransitive(enc.value(a), enc.value(b), enc.value(c));
    }
  }

  // ---------------------------------------------------------------- sorting

  ghost predicate Sorted(enc: Encoding, s: seq<QuotaWindow>) {
    forall i, j :: 0 <= i < j < |s| ==> !Before(enc, s[j], s[i])
  }

  /** Stable insertion from the right. */
  function Insert(enc: Encoding, w: QuotaWindow, s: seq<QuotaWindow>): (r: seq<QuotaWindow>)
    ensures multiset(r) == multiset(s) + multiset{w}
  {
    if s == [] then [w]
    else
      var last := s[|s| - 1];
      assert s == s[..|s| - 1] + [last];
      if Before(enc, w, last) then Insert(enc, w, s[..|s| - 1]) + [last] else s + [w]
  }

  function Sort(enc: Encoding, s: seq<QuotaWindow>): (r: seq<QuotaWindow>)
    ensures multiset(r) == multiset(s)
  {
    if s == [] then []
    else
      assert s == s[..|s| - 1] + [s[|s| - 1]];
      Insert(enc, s[|s| - 1], Sort(enc, s[..|s| - 1]))
  }

  lemma DropLast(s: seq<QuotaWindow>)
    requires s != []
    ensures multiset(s) == multiset(s[..|s| - 1]) + multiset{s[|s| - 1]}
  {
    assert s == s[..|s| - 1] + [s[|s| - 1]];
  }

  lemma SortedAppend(enc: Encoding, s: seq<QuotaWindow>, w: QuotaWindow)
    requires Sorted(enc, s) && forall x :: x in s ==> !Before(enc, w, x)
    ensures Sorted(enc, s + [w])
  {
  }

  /** What the last element may not precede, a later one may not precede either. */
  lemma AfterLast(enc: Encoding, s: seq<QuotaWindow>, w: QuotaWindow, x: QuotaWindow)
    requires s != [] && Sorted(enc, s) && x in s && !Before(enc, w, s[|s| - 1])
    requires Faithful(enc, multiset(s) + multiset{w})
    ensures !Before(enc, w, x)
  {
    var last := s[|s| - 1];
    assert last in multiset(s) + multiset{w} && w in multiset(s) + multiset{w} && x in multiset(s) + multiset{w};
    BeforeTotal(enc, w, last);
    BeforeTotal(enc, last, x);
    var i :| 0 <= i < |s| && s[i] == x;
    if Before(enc, w, x) && x != last {
      BeforeTransitive(enc, w, x, last);
    }
  }

  lemma {:induction false} InsertSorted(enc: Encoding, w: QuotaWindow, s: seq<QuotaWindow>)
    requires Faithful(enc, multiset(s) + multiset{w}) && Sorted(enc, s)
    ensures Sorted(enc, Insert(enc, w, s))
    decreases |s|
  {
    if s != [] {
      var n := |s| - 1;
      var last := s[n];
      DropLast(s);
      if Before(enc, w, last) {
        InsertSorted(enc, w, s[..n]);
        var rest := Insert(enc, w, s[..n]);
        BeforeTotal(enc, w, last);
        forall x | x in rest
          ensures !Before(enc, last, x)
        {
          assert x in multiset(rest);
          assert x == w || x in multiset(s[..n]);
        }
        SortedAppend(enc, rest, last);
      } else {
        forall x | x in s
          ensures !Before(enc, w, x)
        {
          AfterLast(enc, s, w, x);
        }
        SortedAppend(enc, s, w);
      }
    }
  }

  lemma {:induction false} SortSorted(enc: Encoding, s: seq<QuotaWindow>)
    requires Faithful(enc, multiset(s))
    ensures Sorted(enc, Sort(enc, s))
    decreases |s|
  {
    if s != [] {
      assert s == s[..|s| - 1] + [s[|s| - 1]];
      SortSorted(enc, s[..|s| - 1]);
      InsertSorted(enc, s[|s| - 1], Sort(enc, s[..|s| - 1]));
    }
  }

  lemma LastIsGreatest(enc: Encoding, s: seq<QuotaWindow>, x: QuotaWindow)
    requires Sorted(enc, s) && x in multiset(s)
    ensures x == s[|s| - 1] || !Before(enc, s[|s| - 1], x)
  {
    var i :| 0 <= i < |s| && s[i] == x;
  }

  lemma Cancel<T>(a: multiset<T>, b: multiset<T>, x: T)
    requires a + multiset{x} == b + multiset{x}
    ensures a == b
  {
    forall y
      ensures a[y] == b[y]
    {
      assert (a + multiset{x})[y] == (b + multiset{x})[y];
    }
  }

  lemma LastsAgree(enc: Encoding, a: seq<QuotaWindow>, b: seq<QuotaWindow>)
    requires a != [] && b != [] && multiset(a) == multiset(b)
    requires Faithful(enc, multiset(a)) && Sorted(enc, a) && Sorted(enc, b)
    ensures a[|a| - 1] == b[|b| - 1]
  {
    var x, y := a[|a| - 1], b[|b| - 1];
    assert x in multiset(a) && y in multiset(b);
    LastIsGreatest(enc, b, x);
    LastIsGreatest(enc, a, y);
    BeforeTotal(enc, x, y);
  }

  lemma FaithfulPart(enc: Encoding, part: multiset<QuotaWindow>, whole: multiset<QuotaWindow>)
    requires part <= whole && Faithful(enc, whole)
    ensures Faithful(enc, part)
  {
  }

  /** A list has one sorted arrangement. */
  lemma {:induction false} SortedUnique(enc: Encoding, a: seq<QuotaWindow>, b: seq<QuotaWindow>)
    requires Faithful(enc, multiset(a)) && Sorted(enc, a) && Sorted(enc, b) && multiset(a) == multiset(b)
    ensures a == b
    decreases |a|
  {
    assert |a| == |multiset(a)| && |b| == |multiset(b)|;
    if a != [] {
      WithoutLast(enc, a, b);
      SortedUnique(enc, a[..|a| - 1], b[..|b| - 1]);
      assert a == a[..|a| - 1] + [a[|a| - 1]] && b == b[..|b| - 1] + [b[|b| - 1]];
    }
  }

  lemma WithoutLast(enc: Encoding, a: seq<QuotaWindow>, b: seq<QuotaWindow>)
    requires a != [] && b != [] && multiset(a) == multiset(b)
    requires Faithful(enc, multiset(a)) && Sorted(enc, a) && Sorted(enc, b)
    ensures a[|a| - 1] == b[|b| - 1] && multiset(a[..|a| - 1]) == multiset(b[..|b| - 1])
    ensures Faithful(enc, multiset(a[..|a| - 1])) && Sorted(enc, a[..|a| - 1]) && Sorted(enc, b[..|b| - 1])
  {
    LastsAgree(enc, a, b);
    DropLast(a);
    DropLast(b);
    Cancel(multiset(a[..|a| - 1]), multiset(b[..|b| - 1]), a[|a| - 1]);
    FaithfulPart(enc, multiset(a[..|a| - 1]), multiset(a));
  }

  // ---------------------------------------------------------------- the key

  function ResetWindowKey(enc: Encoding, identity: string, resetAt: Time, windows: seq<QuotaWindow>): string {
    identity + [BAR] + enc.time(resetAt) + [BAR] + enc.digest(Sort(enc, SafeWindows(windows)))
  }

  function LegacyResetWindowKey(enc: Encoding, identity: string, resetAt: Time): string {
    identity + [BAR] + enc.time(resetAt)
  }

  lemma LastBar(a: string, x: string)
    requires BAR !in x
    ensures var s := a + [BAR] + x;
            s[|a|] == BAR && forall k :: |a| < k < |s| ==> s[k] != BAR
  {
    var s := a + [BAR] + x;
    forall k | |a| < k < |s|
      ensures s[k] != BAR
    {
      assert s[k] == x[k - |a| - 1];
    }
  }

  /** Two texts split at their last bar agree part by part. */
  lemma SplitAtLastBar(a: string, b: string, x: string, y: string)
    requires a + [BAR] + x == b + [BAR] + y
    requires BAR !in x && BAR !in y
    ensures a == b && x == y
  {
    var s, t := a + [BAR] + x, b + [BAR] + y;
    LastBar(a, x);
    LastBar(b, y);
    assert t[|a|] == BAR && s[|b|] == BAR;
    assert a == s[..|a|] && b == t[..|b|];
    assert x == s[|a| + 1..] && y == t[|b| + 1..];
  }

  /** Neither the JSON nor the time text nor the hash collides on what is compared. */
  ghost predicate NoCollision(enc: Encoding, t1: Time, t2: Time, ws1: seq<QuotaWindow>, ws2: seq<QuotaWindow>) {
    var s1, s2 := SafeWindows(ws1), SafeWindows(ws2);
    && Faithful(enc, multiset(s1)) && Faithful(enc, multiset(s2))
    && (enc.time(t1) == enc.time(t2) ==> t1 == t2)
    && (enc.digest(Sort(enc, s1)) == enc.digest(Sort(enc, s2)) ==> Sort(enc, s1) == Sort(enc, s2))
  }

  /** Equal keys mean equal identity, equal reset time and the same windows up to order; and
      the other way round. */
  lemma KeyIdentifiesWindow(enc: Encoding, id1: string, id2: string, t1: Time, t2: Time,
                            ws1: seq<QuotaWindow>, ws2: seq<QuotaWindow>)
    requires Lawful(enc) && NoCollision(enc, t1, t2, ws1, ws2)
    ensures ResetWindowKey(enc, id1, t1, ws1) == ResetWindowKey(enc, id2, t2, ws2)
            <==> id1 == id2 && t1 == t2 && multiset(SafeWindows(ws1)) == multiset(SafeWindows(ws2))
  {
    var s1, s2 := Sort(enc, SafeWindows(ws1)), Sort(enc, SafeWindows(ws2));
    if ResetWindowKey(enc, id1, t1, ws1) == ResetWindowKey(enc, id2, t2, ws2) {
      SplitAtLastBar(id1 + [BAR] + enc.time(t1), id2 + [BAR] + enc.time(t2), enc.digest(s1), enc.digest(s2));
      SplitAtLastBar(id1, id2, enc.time(t1), enc.time(t2));
      assert multiset(s1) == multiset(s2);
    }
    if multiset(SafeWindows(ws1)) == multiset(SafeWindows(ws2)) {
      SortIgnoresOrder(enc, SafeWindows(ws1), SafeWindows(ws2));
    }
  }

  lemma SortIgnoresOrder(enc: Encoding, a: seq<QuotaWindow>, b: seq<QuotaWindow>)
    requires Faithful(enc, multiset(a)) && multiset(a) == multiset(b)
    ensures Sort(enc, a) == Sort(enc, b)
  {
    SortSorted(enc, a);
    SortSorted(enc, b);
    SortedUnique(enc, Sort(enc, a), Sort(enc, b));
  }

  lemma SafeWindowsAppend(a: seq<QuotaWindow>, b: seq<QuotaWindow>)
    requires |a| + |b| <= MAX_QUOTA_WINDOWS
    ensures SafeWindows(a + b) == SafeWindows(a) + SafeWindows(b)
  {
  }

  lemma {:induction false} SafeWindowsOfPermutation(a: seq<QuotaWindow>, b: seq<QuotaWindow>)
    requires multiset(a) == multiset(b) && |a| <= MAX_QUOTA_WINDOWS
    ensures multiset(SafeWindows(a)) == multiset(SafeWindows(b))
    decreases |a|
  {
    assert |a| == |multiset(a)| && |b| == |multiset(b)|;
    if a != [] {
      var x := a[0];
      assert x in multiset(b);
      var k :| 0 <= k < |b| && b[k] == x;
      RemoveAt(a, 0);
      RemoveAt(b, k);
      var a', b' := a[..0] + a[1..], b[..k] + b[k + 1..];
      Cancel(multiset(a'), multiset(b'), x);
      SafeWindowsOfPermutation(a', b');
    }
  }

  lemma RemoveAt(s: seq<QuotaWindow>, k: nat)
    requires k < |s| <= MAX_QUOTA_WINDOWS
    ensures multiset(s) == multiset(s[..k] + s[k + 1..]) + multiset{s[k]}
    ensures multiset(SafeWindows(s)) == multiset(SafeWindows(s[..k] + s[k + 1..])) + multiset{SafeWindow(s[k])}
  {
    assert s == s[..k] + ([s[k]] + s[k + 1..]);
    SafeWindowsAppend(s[..k], [s[k]] + s[k + 1..]);
    SafeWindowsAppend([s[k]], s[k + 1..]);
    SafeWindowsAppend(s[..k], s[k + 1..]);
    assert SafeWindows([s[k]]) == [SafeWindow(s[k])];
  }

  /** The order in which up to 32 windows arrive does not matter, and neither does a trip
      through the state store. */
  lemma KeyStable(enc: Encoding, identity: string, resetAt: Time, ws: seq<QuotaWindow>, permuted: seq<QuotaWindow>)
    requires Faithful(enc, multiset(SafeWindows(ws)))
    requires multiset(permuted) == multiset(ws) && |ws| <= MAX_QUOTA_WINDOWS
    ensures ResetWindowKey(enc, identity, resetAt, permuted) == ResetWindowKey(enc, identity, resetAt, ws)
    ensures ResetWindowKey(enc, identity, resetAt, SafeWindows(ws)) == ResetWindowKey(enc, identity, resetAt, ws)
  {
    SafeWindowsOfPermutation(ws, permuted);
    SortIgnoresOrder(enc, SafeWindows(ws), SafeWindows(permuted));
    SafeWindowsIdempotent(ws);
  }

  ghost predicate Rearranged(ws: seq<QuotaWindow>, other: seq<QuotaWindow>) {
    multiset(other) == multiset(ws)
  }

  ghost predicate AllAlike(ws: seq<QuotaWindow>) {
    forall i, j :: 0 <= i < |ws| && 0 <= j < |ws| ==> SafeWindow(ws[i]) == SafeWindow(ws[j])
  }

  ghost predicate OrderIgnored(enc: Encoding, identity: string, resetAt: Time, ws: seq<QuotaWindow>) {
    forall other :: Rearranged(ws, other) ==>
      ResetWindowKey(enc, identity, resetAt, other) == ResetWindowKey(enc, identity, resetAt, ws)
  }

  lemma AlikeHaveOneCut(ws: seq<QuotaWindow>, other: seq<QuotaWindow>)
    requires Rearranged(ws, other) && AllAlike(ws)
    ensures SafeWindows(other) == SafeWindows(ws)
  {
    assert |ws| == |multiset(ws)| && |other| == |multiset(other)|;
    forall i | 0 <= i < |other|
      ensures SafeWindow(other[i]) == SafeWindow(ws[i])
    {
      assert other[i] in multiset(ws);
      var j :| 0 <= j < |ws| && ws[j] == other[i];
    }
  }

  /** A kept and a cut window that differ. */
  lemma Unlike(ws: seq<QuotaWindow>) returns (p: nat, q: nat)
    requires |ws| > MAX_QUOTA_WINDOWS && !AllAlike(ws)
    ensures p < MAX_QUOTA_WINDOWS <= q < |ws| && SafeWindow(ws[p]) != SafeWindow(ws[q])
  {
    var i: nat, j: nat :| i < |ws| && j < |ws| && SafeWindow(ws[i]) != SafeWindow(ws[j]);
    p, q := 0, MAX_QUOTA_WINDOWS;
    if SafeWindow(ws[p]) == SafeWindow(ws[q]) {
      if SafeWindow(ws[i]) == SafeWindow(ws[p]) {
        i := j;
      }
      if i < MAX_QUOTA_WINDOWS {
        p := i;
      } else {
        q := i;
      }
    }
  }

  /** Exchanging a kept window with a cut one that differs changes what is kept. */
  lemma ExchangeChangesCut(ws: seq<QuotaWindow>, p: nat, q: nat)
    requires p < MAX_QUOTA_WINDOWS <= q < |ws| && SafeWindow(ws[p]) != SafeWindow(ws[q])
    ensures var other := ws[p := ws[q]][q := ws[p]];
            Rearranged(ws, other) && multiset(SafeWindows(other)) != multiset(SafeWindows(ws))
  {
    var other := ws[p := ws[q]][q := ws[p]];
    var cut := SafeWindows(ws);
    assert SafeWindows(other) == cut[p := SafeWindow(ws[q])];
    assert multiset(SafeWindows(other)) == multiset(cut)[cut[p] := multiset(cut)[cut[p]] - 1] + multiset{SafeWindow(ws[q])};
    assert multiset(SafeWindows(other))[cut[p]] != multiset(cut)[cut[p]];
  }

  /** The key ignores the order in which windows arrive exactly when there are at most 32 of
      them or all are the same once sanitized: a longer list is cut before it is sorted. */
  lemma OrderIgnoredExactly(enc: Encoding, identity: string, resetAt: Time, ws: seq<QuotaWindow>)
    requires Lawful(enc) && forall other :: Rearranged(ws, other) ==> NoCollision(enc, resetAt, resetAt, other, ws)
    ensures OrderIgnored(enc, identity, resetAt, ws) <==> |ws| <= MAX_QUOTA_WINDOWS || AllAlike(ws)
  {
    if |ws| <= MAX_QUOTA_WINDOWS || AllAlike(ws) {
      forall other | Rearranged(ws, other)
        ensures ResetWindowKey(enc, identity, resetAt, other) == ResetWindowKey(enc, identity, resetAt, ws)
      {
        RearrangedKey(enc, identity, resetAt, ws, other);
      }
    } else {
      var other := Exchanged(ws);
      KeyChanges(enc, identity, resetAt, ws, other);
    }
  }

  lemma Exchanged(ws: seq<QuotaWindow>) returns (other: seq<QuotaWindow>)
    requires |ws| > MAX_QUOTA_WINDOWS && !AllAlike(ws)
    ensures Rearranged(ws, other) && multiset(SafeWindows(other)) != multiset(SafeWindows(ws))
  {
    var p, q := Unlike(ws);
    ExchangeChangesCut(ws, p, q);
    other := ws[p := ws[q]][q := ws[p]];
  }

  lemma KeyChanges(enc: Encoding, identity: string, resetAt: Time, ws: seq<QuotaWindow>, other: seq<QuotaWindow>)
    requires Lawful(enc) && NoCollision(enc, resetAt, resetAt, other, ws)
    requires multiset(SafeWindows(other)) != multiset(SafeWindows(ws))
    ensures ResetWindowKey(enc, identity, resetAt, other) != ResetWindowKey(enc, identity, resetAt, ws)
  {
    KeyIdentifiesWindow(enc, identity, identity, resetAt, resetAt, other, ws);
  }

  lemma RearrangedKey(enc: Encoding, identity: string, resetAt: Time, ws: seq<QuotaWindow>, other: seq<QuotaWindow>)
    requires Rearranged(ws, other) && NoCollision(enc, resetAt, resetAt, other, ws)
    requires |ws| <= MAX_QUOTA_WINDOWS || AllAlike(ws)
    ensures ResetWindowKey(enc, identity, resetAt, other) == ResetWindowKey(enc, identity, resetAt, ws)
  {
    if AllAlike(ws) {
      AlikeHaveOneCut(ws, other);
    } else {
      KeyStable(enc, identity, resetAt, ws, other);
    }
  }

  lemma KeyFits(enc: Encoding, identity: string, resetAt: Time, ws: seq<QuotaWindow>)
    requires Lawful(enc) && |identity| <= 128
    ensures |ResetWindowKey(enc, identity, resetAt, ws)| <= 256
  {
    assert |enc.digest(Sort(enc, SafeWindows(ws)))| == 64;
  }
}
