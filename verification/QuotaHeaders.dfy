/** The windows the Codex headers describe: headers of one family are gathered into one window.
    Names outside the known families share a family, so several headers may speak for the same
    window; the last one read in map order counts. */
module QuotaHeaders {
  import opened Basics
  import opened Domain
  import opened JsonTree
  import opened QuotaTime
  import opened QuotaResets

  // ---------------------------------------------------------------- one header

  datatype HeaderKind = UsedHeader | LimitHeader | AllowedHeader | AfterHeader | AtHeader

  const HeaderKinds: seq<HeaderKind> := [UsedHeader, LimitHeader, AllowedHeader, AfterHeader, AtHeader]

  const CODEX_PREFIX := "x-codex-"

  function Suffix(kind: HeaderKind): string {
    match kind
    case UsedHeader => "-used-percent"
    case LimitHeader => "-limit-reached"
    case AllowedHeader => "-allowed"
    case AfterHeader => "-reset-after-seconds"
    case AtHeader => "-reset-at"
  }

  /** The family a header of this kind speaks for. */
  function HeaderFamily(name: string, kind: HeaderKind): (r: Option<string>)
    ensures r.Some? ==> r.value in Families
  {
    var lower := ToLower(TrimSpace(name));
    if HasPrefix(lower, CODEX_PREFIX) && HasSuffix(lower, Suffix(kind))
    then
      var family := TrimSuffix(lower[|CODEX_PREFIX|..], Suffix(kind));
      SafeFamilyIdempotent(family);
      Some(SafeFamily(family))
    else None
  }

  const Families: set<string> := {"primary", "secondary", "code_review", "additional"}

  datatype Reading = UsedIs(percent: real) | LimitIs(reached: bool) | AllowedIs(allowed: bool) | ResetIs(at: Time) {
    /** It says by itself that the window is used up. */
    predicate Exhausts() {
      (UsedIs? && percent >= 100.0) || this == LimitIs(true) || this == AllowedIs(false)
    }
  }

  /** What the first value of a header says. */
  function HeaderReading(env: Env, values: seq<string>, kind: HeaderKind): (r: Option<Reading>)
    ensures r.Some? && r.value.ResetIs? ==> ValidReset(r.value.at, env.now)
  {
    if values == [] then None
    else
      var raw := TrimSpace(values[0]);
      match kind
      case UsedHeader =>
        if env.float(raw).Some? && 0.0 <= env.float(raw).value <= 1000.0 then Some(UsedIs(env.float(raw).value)) else None
      case LimitHeader => if ParseBool(raw).Some? then Some(LimitIs(ParseBool(raw).value)) else None
      case AllowedHeader => if ParseBool(raw).Some? then Some(AllowedIs(ParseBool(raw).value)) else None
      case AfterHeader => if AfterSeconds(env, Text(raw)).Some? then Some(ResetIs(AfterSeconds(env, Text(raw)).value)) else None
      case AtHeader => if ParseTime(env, raw).Some? then Some(ResetIs(ParseTime(env, raw).value)) else None
  }

  predicate Tells(env: Env, headers: Headers, name: string, kind: HeaderKind, family: string, r: Reading) {
    name in headers && HeaderFamily(name, kind) == Some(family) && HeaderReading(env, headers[name], kind) == Some(r)
  }

  // ---------------------------------------------------------------- what readings amount to

  datatype Entry = Entry(used: Option<real>, limit: Option<bool>, allowed: Option<bool>, reset: Time)

  const NoEntry := Entry(None, None, None, ZERO_TIME)

  function Put(e: Entry, r: Reading): Entry {
    match r
    case UsedIs(percent) => e.(used := Some(percent))
    case LimitIs(reached) => e.(limit := Some(reached))
    case AllowedIs(allowed) => e.(allowed := Some(allowed))
    case ResetIs(at) => e.(reset := at)
  }

  /** A field may have a value that was said; it is open when none was. */
  ghost predicate MayUse(said: iset<Reading>, used: Option<real>) {
    if used.Some? then UsedIs(used.value) in said else forall p :: UsedIs(p) !in said
  }

  ghost predicate MayLimit(said: iset<Reading>, limit: Option<bool>) {
    if limit.Some? then LimitIs(limit.value) in said else LimitIs(true) !in said && LimitIs(false) !in said
  }

  ghost predicate MayAllow(said: iset<Reading>, allowed: Option<bool>) {
    if allowed.Some? then AllowedIs(allowed.value) in said else AllowedIs(true) !in said && AllowedIs(false) !in said
  }

  ghost predicate MayReset(said: iset<Reading>, t: Time) {
    if t != ZERO_TIME then ResetIs(t) in said else forall u :: ResetIs(u) !in said
  }

  ghost predicate MayEnter(said: iset<Reading>, e: Entry) {
    MayUse(said, e.used) && MayLimit(said, e.limit) && MayAllow(said, e.allowed) && MayReset(said, e.reset)
  }

  lemma PutMore(said: iset<Reading>, e: Entry, r: Reading)
    requires MayEnter(said, e) && (r.ResetIs? ==> r.at != ZERO_TIME)
    ensures MayEnter(said + iset{r}, Put(e, r))
  {
  }

  predicate Empty(e: Entry) {
    e.used.None? && e.limit.None? && e.allowed.None? && e.reset == ZERO_TIME
  }

  lemma EmptyMeansSilent(said: iset<Reading>, e: Entry)
    requires MayEnter(said, e)
    ensures Empty(e) <==> forall r :: r !in said
  {
    if r :| r in said {
      match r
      case UsedIs(_) =>
      case LimitIs(_) =>
      case AllowedIs(_) =>
      case ResetIs(_) =>
    }
  }

  function WindowOf(family: string, e: Entry): QuotaWindow {
    var w := QuotaWindow(family, e.used, e.limit == Some(true), e.allowed, false, e.reset, 0);
    w.(blocking := w.IsExhausted())
  }

  // ---------------------------------------------------------------- several headers

  /** The entry of a family after one header is read as one kind. */
  function Ask(env: Env, headers: Headers, name: string, kind: HeaderKind, family: string, e: Entry): Entry
    requires name in headers
  {
    var r := HeaderReading(env, headers[name], kind);
    if HeaderFamily(name, kind) == Some(family) && r.Some? then Put(e, r.value) else e
  }

  /** After it is read as each of the first `n` kinds. */
  function AskKinds(env: Env, headers: Headers, name: string, n: nat, family: string, e: Entry): Entry
    requires name in headers && n <= |HeaderKinds|
  {
    if n == 0 then e else Ask(env, headers, name, HeaderKinds[n - 1], family, AskKinds(env, headers, name, n - 1, family, e))
  }

  /** After all headers, in this order. */
  function AskAll(env: Env, headers: Headers, order: seq<string>, family: string): Entry
    requires forall name :: name in order ==> name in headers
  {
    if order == [] then NoEntry
    else
      var n := |order| - 1;
      AskKinds(env, headers, order[n], |HeaderKinds|, family, AskAll(env, headers, order[..n], family))
  }

  /** An order in which the map may list its headers. */
  ghost predicate Orders(headers: Headers, order: seq<string>) {
    multiset(order) == multiset(headers.Keys)
  }

  lemma OrderCovers(headers: Headers, order: seq<string>)
    requires Orders(headers, order)
    ensures forall name :: name in order <==> name in headers
  {
    forall name
      ensures name in order <==> name in headers
    {
      assert name in order <==> name in multiset(order);
      assert name in headers.Keys <==> name in multiset(headers.Keys);
    }
  }

  type Table = map<string, Entry>

  function Of(byFamily: Table, family: string): Entry {
    if family in byFamily then byFamily[family] else NoEntry
  }

  /** One header read as one kind. */
  method ReadHeader(env: Env, headers: Headers, name: string, kind: HeaderKind, byFamily: Table) returns (out: Table)
    requires name in headers && byFamily.Keys <= Families
    ensures out.Keys <= Families
    ensures forall family :: Of(out, family) == Ask(env, headers, name, kind, family, Of(byFamily, family))
  {
    var family := HeaderFamily(name, kind);
    out := byFamily;
    if family.Some? {
      var entry := if family.value in byFamily then byFamily[family.value] else NoEntry;
      var reading := HeaderReading(env, headers[name], kind);
      if reading.Some? {
        entry := Put(entry, reading.value);
      }
      out := out[family.value := entry];
    }
  }

  /** One header read as each of the kinds in turn. */
  method ReadKinds(env: Env, headers: Headers, name: string, byFamily: Table) returns (out: Table)
    requires name in headers && byFamily.Keys <= Families
    ensures out.Keys <= Families
    ensures forall family :: Of(out, family) == AskKinds(env, headers, name, |HeaderKinds|, family, Of(byFamily, family))
  {
    out := byFamily;
    for i := 0 to |HeaderKinds|
      invariant out.Keys <= Families
      invariant forall family :: Of(out, family) == AskKinds(env, headers, name, i, family, Of(byFamily, family))
    {
      out := ReadHeader(env, headers, name, HeaderKinds[i], out);
    }
  }

  /** What the headers say, in the order in which the map lists them. */
  method ReadHeaders(env: Env, headers: Headers) returns (byFamily: Table, ghost order: seq<string>)
    ensures Orders(headers, order) && TableIs(env, headers, order, byFamily)
  {
    byFamily, order := map[], [];
    var todo := headers.Keys;
    while todo != {}
      invariant todo <= headers.Keys && multiset(order) == multiset(headers.Keys - todo)
      invariant TableIs(env, headers, order, byFamily)
    {
      var name :| name in todo;
      var more := ReadKinds(env, headers, name, byFamily);
      OneMoreHeaderRead(env, headers, order, name, byFamily, more);
      byFamily := more;
      assert headers.Keys - (todo - {name}) == headers.Keys - todo + {name};
      order := order + [name];
      todo := todo - {name};
    }
    assert headers.Keys - {} == headers.Keys;
  }

  ghost predicate TableIs(env: Env, headers: Headers, order: seq<string>, byFamily: Table) {
    && byFamily.Keys <= Families && (forall name :: name in order ==> name in headers)
    && forall family :: Of(byFamily, family) == AskAll(env, headers, order, family)
  }

  lemma OneMoreHeaderRead(env: Env, headers: Headers, order: seq<string>, name: string, was: Table, now: Table)
    requires TableIs(env, headers, order, was) && name in headers && now.Keys <= Families
    requires forall family :: Of(now, family) == AskKinds(env, headers, name, |HeaderKinds|, family, Of(was, family))
    ensures TableIs(env, headers, order + [name], now)
  {
    forall family
      ensures Of(now, family) == AskAll(env, headers, order + [name], family)
    {
      AskLast(env, headers, order, name, family);
    }
  }

  lemma AskLast(env: Env, headers: Headers, order: seq<string>, name: string, family: string)
    requires (forall n :: n in order ==> n in headers) && name in headers
    ensures AskAll(env, headers, order + [name], family)
            == AskKinds(env, headers, name, |HeaderKinds|, family, AskAll(env, headers, order, family))
  {
    assert (order + [name])[..|order|] == order;
  }

  // ---------------------------------------------------------------- which readings survive

  ghost predicate OneTells(env: Env, headers: Headers, family: string, r: Reading) {
    exists name, kind :: Tells(env, headers, name, kind, family, r)
  }

  /** What all headers say of a family. */
  ghost function Said(env: Env, headers: Headers, family: string): iset<Reading> {
    iset r: Reading | OneTells(env, headers, family, r)
  }

  /** A header speaks as one kind only: no two suffixes end alike. */
  lemma OneKind(name: string, k1: HeaderKind, k2: HeaderKind)
    requires HeaderFamily(name, k1).Some? && HeaderFamily(name, k2).Some?
    ensures k1 == k2
  {
    var lower := ToLower(TrimSpace(name));
    SuffixEnds(lower, k1);
    SuffixEnds(lower, k2);
  }

  /** The last three characters of a name give its kind away. */
  function Ending(kind: HeaderKind): string {
    match kind
    case UsedHeader => "ent"
    case LimitHeader => "hed"
    case AllowedHeader => "wed"
    case AfterHeader => "nds"
    case AtHeader => "-at"
  }

  lemma SuffixEnds(lower: string, kind: HeaderKind)
    requires HasSuffix(lower, Suffix(kind))
    ensures |lower| >= 3 && lower[|lower| - 3..] == Ending(kind)
  {
    var suffix := Suffix(kind);
    assert |suffix| >= 3 && suffix[|suffix| - 3..] == Ending(kind);
    assert lower[|lower| - 3..] == lower[|lower| - |suffix|..][|suffix| - 3..];
  }

  lemma {:induction false} SilentKinds(env: Env, headers: Headers, name: string, n: nat, family: string, e: Entry)
    requires name in headers && n <= |HeaderKinds|
    requires forall i, r :: 0 <= i < n ==> !Tells(env, headers, name, HeaderKinds[i], family, r)
    ensures AskKinds(env, headers, name, n, family, e) == e
  {
    if n > 0 {
      SilentKinds(env, headers, name, n - 1, family, e);
      assert HeaderReading(env, headers[name], HeaderKinds[n - 1]).Some?
        ==> !Tells(env, headers, name, HeaderKinds[n - 1], family, HeaderReading(env, headers[name], HeaderKinds[n - 1]).value);
    }
  }

  lemma {:induction false} TellingKind(env: Env, headers: Headers, name: string, n: nat, i: nat, family: string, e: Entry, r: Reading)
    requires name in headers && i < n <= |HeaderKinds| && Tells(env, headers, name, HeaderKinds[i], family, r)
    ensures AskKinds(env, headers, name, n, family, e) == Put(e, r)
  {
    if i == n - 1 {
      NoneBefore(env, headers, name, i, family, r);
      SilentKinds(env, headers, name, n - 1, family, e);
      AskTells(env, headers, name, HeaderKinds[i], family, e, r);
    } else {
      TellingKind(env, headers, name, n - 1, i, family, e, r);
      OtherSilent(env, headers, name, n - 1, i, family, r, Put(e, r));
    }
  }

  lemma NoneBefore(env: Env, headers: Headers, name: string, i: nat, family: string, r: Reading)
    requires i < |HeaderKinds| && Tells(env, headers, name, HeaderKinds[i], family, r)
    ensures forall j, q :: 0 <= j < i ==> !Tells(env, headers, name, HeaderKinds[j], family, q)
  {
    forall j, q | 0 <= j < i
      ensures !Tells(env, headers, name, HeaderKinds[j], family, q)
    {
      OnlyKind(name, j, i);
    }
  }

  lemma OtherSilent(env: Env, headers: Headers, name: string, j: nat, i: nat, family: string, r: Reading, e: Entry)
    requires i < |HeaderKinds| && j < |HeaderKinds| && i != j && Tells(env, headers, name, HeaderKinds[i], family, r)
    ensures Ask(env, headers, name, HeaderKinds[j], family, e) == e
  {
    OnlyKind(name, j, i);
  }

  lemma AskTells(env: Env, headers: Headers, name: string, kind: HeaderKind, family: string, e: Entry, r: Reading)
    requires name in headers && Tells(env, headers, name, kind, family, r)
    ensures Ask(env, headers, name, kind, family, e) == Put(e, r)
  {
  }

  lemma OnlyKind(name: string, j: nat, i: nat)
    requires j < |HeaderKinds| && i < |HeaderKinds| && j != i && HeaderFamily(name, HeaderKinds[i]).Some?
    ensures HeaderFamily(name, HeaderKinds[j]).None?
  {
    DifferentKinds(j, i);
    OtherKind(name, HeaderKinds[j], HeaderKinds[i]);
  }

  lemma DifferentKinds(j: nat, i: nat)
    requires j < |HeaderKinds| && i < |HeaderKinds| && j != i
    ensures HeaderKinds[j] != HeaderKinds[i]
  {
  }

  lemma OtherKind(name: string, other: HeaderKind, kind: HeaderKind)
    requires other != kind && HeaderFamily(name, kind).Some?
    ensures HeaderFamily(name, other).None?
  {
    if HeaderFamily(name, other).Some? {
      OneKind(name, other, kind);
    }
  }

  /** What one header does to the entry of a family. */
  lemma AskName(env: Env, headers: Headers, name: string, family: string, e: Entry)
    requires name in headers
    ensures var after := AskKinds(env, headers, name, |HeaderKinds|, family, e);
            if exists r, kind :: Tells(env, headers, name, kind, family, r)
            then forall r, kind :: Tells(env, headers, name, kind, family, r) ==> after == Put(e, r)
            else after == e
  {
    if exists r, kind :: Tells(env, headers, name, kind, family, r) {
      forall r, kind | Tells(env, headers, name, kind, family, r)
        ensures AskKinds(env, headers, name, |HeaderKinds|, family, e) == Put(e, r)
      {
        TellingKind(env, headers, name, |HeaderKinds|, Position(kind), family, e, r);
      }
    } else {
      SilentKinds(env, headers, name, |HeaderKinds|, family, e);
    }
  }

  function Position(kind: HeaderKind): (i: nat)
    ensures i < |HeaderKinds| && HeaderKinds[i] == kind
  {
    match kind
    case UsedHeader => 0
    case LimitHeader => 1
    case AllowedHeader => 2
    case AfterHeader => 3
    case AtHeader => 4
  }

  /** What the headers of an order say. */
  ghost predicate OneOf(env: Env, headers: Headers, order: seq<string>, family: string, r: Reading) {
    exists name, kind :: name in order && Tells(env, headers, name, kind, family, r)
  }

  ghost function Heard(env: Env, headers: Headers, order: seq<string>, family: string): iset<Reading> {
    iset r: Reading | OneOf(env, headers, order, family, r)
  }

  /** Whatever the order, a field has a value that was said, and is open when none was. */
  lemma {:induction false} OrderMayEnter(env: Env, headers: Headers, order: seq<string>, family: string)
    requires env.now >= ZERO_TIME && forall name :: name in order ==> name in headers
    ensures MayEnter(Heard(env, headers, order, family), AskAll(env, headers, order, family))
    decreases |order|
  {
    if order != [] {
      var n := |order| - 1;
      OrderMayEnter(env, headers, order[..n], family);
      HeardMore(env, headers, order, family);
      var e := AskAll(env, headers, order[..n], family);
      AskName(env, headers, order[n], family, e);
      if r, kind :| Tells(env, headers, order[n], kind, family, r) {
        PutMore(Heard(env, headers, order[..n], family), e, r);
      }
    }
  }

  lemma HeardMore(env: Env, headers: Headers, order: seq<string>, family: string)
    requires order != [] && order[|order| - 1] in headers
    ensures var n := |order| - 1;
            if exists r, kind :: Tells(env, headers, order[n], kind, family, r)
            then forall r, kind :: Tells(env, headers, order[n], kind, family, r) ==>
                   Heard(env, headers, order, family) == Heard(env, headers, order[..n], family) + iset{r}
            else Heard(env, headers, order, family) == Heard(env, headers, order[..n], family)
  {
    var n := |order| - 1;
    forall q
      ensures OneOf(env, headers, order, family, q)
              <==> OneOf(env, headers, order[..n], family, q) || exists kind :: Tells(env, headers, order[n], kind, family, q)
    {
      HeardSplit(env, headers, order, family, q);
    }
    forall r, kind, q, other | Tells(env, headers, order[n], kind, family, r) && Tells(env, headers, order[n], other, family, q)
      ensures q == r
    {
      OneKind(order[n], kind, other);
    }
  }

  lemma HeardSplit(env: Env, headers: Headers, order: seq<string>, family: string, r: Reading)
    requires order != []
    ensures var n := |order| - 1;
            OneOf(env, headers, order, family, r)
            <==> OneOf(env, headers, order[..n], family, r) || exists kind :: Tells(env, headers, order[n], kind, family, r)
  {
    var n := |order| - 1;
    assert order == order[..n] + [order[n]];
    if OneOf(env, headers, order, family, r) {
      var name, kind :| name in order && Tells(env, headers, name, kind, family, r);
      assert name in order[..n] || name == order[n];
    }
  }

  // ---------------------------------------------------------------- every choice has its order

  /** Two entries that differ at most where `r` writes. */
  predicate SameBut(a: Entry, b: Entry, r: Reading) {
    Put(a, r) == Put(b, r)
  }

  lemma PutKeepsSame(a: Entry, b: Entry, r: Reading, q: Reading)
    requires SameBut(a, b, r)
    ensures SameBut(Put(a, q), Put(b, q), r)
  {
  }

  lemma AskKeepsSame(env: Env, headers: Headers, name: string, family: string, a: Entry, b: Entry, r: Reading)
    requires name in headers && SameBut(a, b, r)
    ensures SameBut(AskKinds(env, headers, name, |HeaderKinds|, family, a), AskKinds(env, headers, name, |HeaderKinds|, family, b), r)
  {
    AskName(env, headers, name, family, a);
    AskName(env, headers, name, family, b);
    if q, kind :| Tells(env, headers, name, kind, family, q) {
      PutKeepsSame(a, b, r, q);
    }
  }

  /** Leaving a header out changes the entry at most where that header writes. */
  lemma {:induction false} LeftOut(env: Env, headers: Headers, pre: seq<string>, name: string, post: seq<string>,
                                   kind: HeaderKind, family: string, r: Reading)
    requires (forall n :: n in pre || n in post ==> n in headers) && Tells(env, headers, name, kind, family, r)
    ensures SameBut(AskAll(env, headers, pre + [name] + post, family), AskAll(env, headers, pre + post, family), r)
    decreases |post|
  {
    if post == [] {
      assert pre + [name] + post == pre + [name] && pre + post == pre;
      LeftOutAtEnd(env, headers, pre, name, kind, family, r);
    } else {
      var init, last := post[..|post| - 1], post[|post| - 1];
      LeftOut(env, headers, pre, name, init, kind, family, r);
      LeftOutLast(env, headers, pre + [name] + init, pre + init, last, family, r);
      Regroup(pre + [name], init, last, post);
      Regroup(pre, init, last, post);
    }
  }

  lemma Regroup(pre: seq<string>, init: seq<string>, last: string, post: seq<string>)
    requires post != [] && init == post[..|post| - 1] && last == post[|post| - 1]
    ensures pre + post == pre + init + [last]
  {
  }

  lemma LeftOutAtEnd(env: Env, headers: Headers, pre: seq<string>, name: string, kind: HeaderKind, family: string, r: Reading)
    requires (forall n :: n in pre ==> n in headers) && Tells(env, headers, name, kind, family, r)
    ensures SameBut(AskAll(env, headers, pre + [name], family), AskAll(env, headers, pre, family), r)
  {
    AskLast(env, headers, pre, name, family);
    AskName(env, headers, name, family, AskAll(env, headers, pre, family));
  }

  lemma LeftOutLast(env: Env, headers: Headers, a: seq<string>, b: seq<string>, name: string, family: string, r: Reading)
    requires (forall n :: n in a || n in b ==> n in headers) && name in headers
    requires SameBut(AskAll(env, headers, a, family), AskAll(env, headers, b, family), r)
    ensures SameBut(AskAll(env, headers, a + [name], family), AskAll(env, headers, b + [name], family), r)
  {
    AskLast(env, headers, a, name, family);
    AskLast(env, headers, b, name, family);
    AskKeepsSame(env, headers, name, family, AskAll(env, headers, a, family), AskAll(env, headers, b, family), r);
  }

  /** Read last, a header has the last word. */
  lemma LastWord(env: Env, headers: Headers, order: seq<string>, family: string, r: Reading) returns (other: seq<string>)
    requires Orders(headers, order) && (forall name :: name in order ==> name in headers) && r in Said(env, headers, family)
    ensures Orders(headers, other) && forall name :: name in other ==> name in headers
    ensures AskAll(env, headers, other, family) == Put(AskAll(env, headers, order, family), r)
  {
    OrderCovers(headers, order);
    var name, kind :| Tells(env, headers, name, kind, family, r);
    var pre, post := SplitAt(order, name);
    ReadLast(env, headers, pre, name, post, kind, family, r);
    other := pre + post + [name];
    OrderCovers(headers, other);
  }

  lemma SplitAt(order: seq<string>, name: string) returns (pre: seq<string>, post: seq<string>)
    requires name in order
    ensures order == pre + [name] + post && multiset(pre + post + [name]) == multiset(order)
    ensures forall n :: n in pre || n in post ==> n in order
  {
    var k :| 0 <= k < |order| && order[k] == name;
    pre, post := order[..k], order[k + 1..];
    MovedLast(order, k);
  }

  lemma ReadLast(env: Env, headers: Headers, pre: seq<string>, name: string, post: seq<string>, kind: HeaderKind, family: string, r: Reading)
    requires (forall n :: n in pre || n in post ==> n in headers) && Tells(env, headers, name, kind, family, r)
    ensures AskAll(env, headers, pre + post + [name], family) == Put(AskAll(env, headers, pre + [name] + post, family), r)
  {
    LeftOut(env, headers, pre, name, post, kind, family, r);
    AskLast(env, headers, pre + post, name, family);
    AskName(env, headers, name, family, AskAll(env, headers, pre + post, family));
  }

  lemma MovedLast(order: seq<string>, k: nat)
    requires k < |order|
    ensures multiset(order[..k] + order[k + 1..] + [order[k]]) == multiset(order)
  {
    assert order == order[..k] + [order[k]] + order[k + 1..];
  }

  lemma {:induction false} SomeOrder(names: set<string>) returns (order: seq<string>)
    ensures multiset(order) == multiset(names)
    decreases |names|
  {
    order := [];
    if names != {} {
      var name :| name in names;
      order := SomeOrder(names - {name});
      order := order + [name];
      assert names == names - {name} + {name};
    }
  }

  function PutIf(e: Entry, r: Option<Reading>): Entry {
    if r.Some? then Put(e, r.value) else e
  }

  lemma LastWordIf(env: Env, headers: Headers, order: seq<string>, family: string, r: Option<Reading>) returns (other: seq<string>)
    requires Orders(headers, order) && (forall name :: name in order ==> name in headers)
    requires r.Some? ==> r.value in Said(env, headers, family)
    ensures Orders(headers, other) && forall name :: name in other ==> name in headers
    ensures AskAll(env, headers, other, family) == PutIf(AskAll(env, headers, order, family), r)
  {
    other := order;
    if r.Some? {
      other := LastWord(env, headers, order, family, r.value);
    }
  }

  /** The reading an entry holds of each sort. */
  function UsedIn(e: Entry): Option<Reading> {
    if e.used.Some? then Some(UsedIs(e.used.value)) else None
  }

  function LimitIn(e: Entry): Option<Reading> {
    if e.limit.Some? then Some(LimitIs(e.limit.value)) else None
  }

  function AllowedIn(e: Entry): Option<Reading> {
    if e.allowed.Some? then Some(AllowedIs(e.allowed.value)) else None
  }

  function ResetIn(e: Entry): Option<Reading> {
    if e.reset != ZERO_TIME then Some(ResetIs(e.reset)) else None
  }

  /** Any other entry becomes it by these readings. */
  lemma Becomes(said: iset<Reading>, was: Entry, e: Entry)
    requires MayEnter(said, was) && MayEnter(said, e)
    ensures PutIf(PutIf(PutIf(PutIf(was, UsedIn(e)), LimitIn(e)), AllowedIn(e)), ResetIn(e)) == e
  {
  }

  /** Each choice among what the headers say of a family is what some order gives. */
  lemma ChoiceHasOrder(env: Env, headers: Headers, family: string, e: Entry) returns (order: seq<string>)
    requires env.now >= ZERO_TIME && MayEnter(Said(env, headers, family), e)
    ensures Orders(headers, order) && forall name :: name in order ==> name in headers
    ensures AskAll(env, headers, order, family) == e
  {
    order := SomeOrder(headers.Keys);
    OrderCovers(headers, order);
    OrderMayEnter(env, headers, order, family);
    AllHeard(env, headers, order, family);
    Becomes(Said(env, headers, family), AskAll(env, headers, order, family), e);
    order := LastWordIf(env, headers, order, family, UsedIn(e));
    order := LastWordIf(env, headers, order, family, LimitIn(e));
    order := LastWordIf(env, headers, order, family, AllowedIn(e));
    order := LastWordIf(env, headers, order, family, ResetIn(e));
  }

  lemma AllHeard(env: Env, headers: Headers, order: seq<string>, family: string)
    requires Orders(headers, order)
    ensures Heard(env, headers, order, family) == Said(env, headers, family)
  {
    OrderCovers(headers, order);
    forall r
      ensures OneOf(env, headers, order, family, r) <==> OneTells(env, headers, family, r)
    {
      if name, kind :| Tells(env, headers, name, kind, family, r) {
        assert name in order;
      }
    }
  }

  // ---------------------------------------------------------------- the windows

  ghost predicate Speaks(env: Env, headers: Headers, family: string) {
    exists r :: r in Said(env, headers, family)
  }

  ghost function SpeakingFamilies(env: Env, headers: Headers): set<string> {
    set family | family in Families && Speaks(env, headers, family)
  }

  /** A window that some order of the headers gives for its family. */
  ghost predicate MayRead(env: Env, headers: Headers, w: QuotaWindow) {
    && w.family in SpeakingFamilies(env, headers)
    && exists order :: ReadsAs(env, headers, order, w)
  }

  ghost predicate ReadsAs(env: Env, headers: Headers, order: seq<string>, w: QuotaWindow) {
    && Orders(headers, order) && (forall name :: name in order ==> name in headers)
    && w == WindowOf(w.family, AskAll(env, headers, order, w.family))
  }

  /** Those are the windows whose fields are chosen freely among what the headers say. */
  lemma MayReadMeans(env: Env, headers: Headers, w: QuotaWindow)
    requires env.now >= ZERO_TIME
    ensures MayRead(env, headers, w)
            <==> w.family in SpeakingFamilies(env, headers)
                 && exists e :: MayEnter(Said(env, headers, w.family), e) && w == WindowOf(w.family, e)
  {
    if MayRead(env, headers, w) {
      var order :| ReadsAs(env, headers, order, w);
      OrderMayEnter(env, headers, order, w.family);
      AllHeard(env, headers, order, w.family);
    }
    if w.family in SpeakingFamilies(env, headers) {
      if e :| MayEnter(Said(env, headers, w.family), e) && w == WindowOf(w.family, e) {
        var order := ChoiceHasOrder(env, headers, w.family, e);
        assert ReadsAs(env, headers, order, w);
      }
    }
  }

  /** No two windows are of one family. */
  ghost predicate OwnFamilies(windows: seq<QuotaWindow>) {
    forall i, j :: 0 <= i < j < |windows| ==> windows[i].family != windows[j].family
  }

  ghost predicate OneEach(windows: seq<QuotaWindow>, families: set<string>) {
    && |windows| == |families| && OwnFamilies(windows)
    && (forall w :: w in windows ==> w.family in families)
    && (forall family :: family in families ==> exists w :: w in windows && w.family == family)
  }

  /** headerWindows: in any order of the headers, one window for each family they speak of. */
  method HeaderWindows(env: Env, headers: Headers) returns (windows: seq<QuotaWindow>)
    requires env.now >= ZERO_TIME
    ensures OneEach(windows, SpeakingFamilies(env, headers))
    ensures forall w :: w in windows ==> MayRead(env, headers, w)
  {
    var byFamily; ghost var order;
    byFamily, order := ReadHeaders(env, headers);
    forall family
      ensures Empty(Of(byFamily, family)) <==> !Speaks(env, headers, family)
    {
      OrderMayEnter(env, headers, order, family);
      AllHeard(env, headers, order, family);
      EmptyMeansSilent(Said(env, headers, family), Of(byFamily, family));
    }
    windows := ListWindows(byFamily);
    assert SpeakingIn(byFamily, byFamily.Keys) == SpeakingFamilies(env, headers);
    forall w | w in windows
      ensures MayRead(env, headers, w)
    {
      assert ReadsAs(env, headers, order, w);
    }
  }

  function SpeakingIn(byFamily: Table, families: set<string>): set<string> {
    set family | family in families && family in byFamily && !Empty(byFamily[family])
  }

  lemma SpeakingMore(byFamily: Table, families: set<string>, family: string)
    requires family in byFamily && family !in families
    ensures SpeakingIn(byFamily, families + {family})
            == SpeakingIn(byFamily, families) + if Empty(byFamily[family]) then {} else {family}
  {
  }

  method ListWindows(byFamily: Table) returns (windows: seq<QuotaWindow>)
    ensures OneEach(windows, SpeakingIn(byFamily, byFamily.Keys))
    ensures forall w :: w in windows ==> w == WindowOf(w.family, Of(byFamily, w.family))
  {
    windows := [];
    var todo := byFamily.Keys;
    while todo != {}
      invariant todo <= byFamily.Keys && OneEach(windows, SpeakingIn(byFamily, byFamily.Keys - todo))
      invariant forall w :: w in windows ==> w == WindowOf(w.family, Of(byFamily, w.family))
    {
      var family :| family in todo;
      var entry := byFamily[family];
      ghost var done := SpeakingIn(byFamily, byFamily.Keys - todo);
      assert byFamily.Keys - (todo - {family}) - {family} == byFamily.Keys - todo;
      todo := todo - {family};
      SpeakingMore(byFamily, byFamily.Keys - todo - {family}, family);
      assert byFamily.Keys - todo - {family} + {family} == byFamily.Keys - todo;
      if !(entry.used.None? && entry.limit.None? && entry.allowed.None? && entry.reset == ZERO_TIME) {
        OneMore(windows, done, WindowOf(family, entry));
        windows := windows + [WindowOf(family, entry)];
      }
    }
    assert byFamily.Keys - {} == byFamily.Keys;
  }

  lemma OneMore(windows: seq<QuotaWindow>, families: set<string>, w: QuotaWindow)
    requires OneEach(windows, families) && w.family !in families
    ensures OneEach(windows + [w], families + {w.family})
  {
    forall family | family in families + {w.family}
      ensures exists x :: x in windows + [w] && x.family == family
    {
      if family != w.family {
        var x :| x in windows && x.family == family;
        assert x in windows + [w];
      } else {
        assert w in windows + [w];
      }
    }
  }

  // ---------------------------------------------------------------- what the headers can show

  /** Some header says that the family's window is used up. */
  ghost predicate SomeExhausts(env: Env, headers: Headers, family: string) {
    exists r: Reading :: r.Exhausts() && r in Said(env, headers, family)
  }

  ghost predicate AgreeExhausted(said: iset<Reading>) {
    || ((exists p :: UsedIs(p) in said) && forall p :: UsedIs(p) in said ==> p >= 100.0)
    || (LimitIs(true) in said && LimitIs(false) !in said)
    || (AllowedIs(false) in said && AllowedIs(true) !in said)
  }

  /** Of one kind there are headers of the family, and all of them say so. */
  ghost predicate AllExhaust(env: Env, headers: Headers, family: string) {
    AgreeExhausted(Said(env, headers, family))
  }

  /** The readings furthest from exhaustion. */
  lemma Mildest(said: iset<Reading>) returns (e: Entry)
    requires ResetIs(ZERO_TIME) !in said
    ensures MayEnter(said, e)
    ensures WindowOf("", e).IsExhausted() ==> AgreeExhausted(said)
  {
    e := NoEntry;
    if p :| UsedIs(p) in said && p < 100.0 {
      e := e.(used := Some(p));
    } else if p :| UsedIs(p) in said {
      e := e.(used := Some(p));
    }
    if LimitIs(false) in said {
      e := e.(limit := Some(false));
    } else if LimitIs(true) in said {
      e := e.(limit := Some(true));
    }
    if AllowedIs(true) in said {
      e := e.(allowed := Some(true));
    } else if AllowedIs(false) in said {
      e := e.(allowed := Some(false));
    }
    if t :| ResetIs(t) in said {
      e := e.(reset := t);
    }
  }

  lemma NeverAtZero(env: Env, headers: Headers, family: string)
    requires env.now >= ZERO_TIME
    ensures ResetIs(ZERO_TIME) !in Said(env, headers, family)
  {
  }

  /** A window is exhausted only if a header of its family says so, and its reset, if it has
      one, lies within a year after now. */
  lemma ExhaustedIsSaid(env: Env, headers: Headers, w: QuotaWindow)
    requires env.now >= ZERO_TIME && MayRead(env, headers, w)
    ensures w.IsExhausted() ==> SomeExhausts(env, headers, w.family)
    ensures w.resetAt == ZERO_TIME || ValidReset(w.resetAt, env.now)
  {
    MayReadMeans(env, headers, w);
    if w.IsExhausted() {
      var r := if w.limitReached then LimitIs(true) else if w.allowed == Some(false) then AllowedIs(false)
               else UsedIs(w.usedPercent.value);
      assert r.Exhausts() && r in Said(env, headers, w.family);
    }
  }

  /** The window of a family may be exhausted if and only if some header of it says so. */
  lemma SometimesExhausted(env: Env, headers: Headers, family: string)
    requires env.now >= ZERO_TIME && family in Families
    ensures (exists w :: MayRead(env, headers, w) && w.family == family && w.IsExhausted())
            <==> SomeExhausts(env, headers, family)
  {
    if w :| MayRead(env, headers, w) && w.family == family && w.IsExhausted() {
      ExhaustedIsSaid(env, headers, w);
    }
    if r: Reading :| r.Exhausts() && r in Said(env, headers, family) {
      NeverAtZero(env, headers, family);
      var e := Toward(Said(env, headers, family), r, family);
      MayReadMeans(env, headers, WindowOf(family, e));
    }
  }

  /** Readings that include one given. */
  lemma Toward(said: iset<Reading>, r: Reading, family: string) returns (e: Entry)
    requires ResetIs(ZERO_TIME) !in said && r in said && r.Exhausts()
    ensures MayEnter(said, e) && WindowOf(family, e).IsExhausted()
  {
    e := Mildest(said);
    PutMore(said, e, r);
    assert said + iset{r} == said;
    e := Put(e, r);
  }

  /** It is exhausted in every order if and only if all headers of one kind say so. */
  lemma AlwaysExhausted(env: Env, headers: Headers, family: string)
    requires env.now >= ZERO_TIME && family in SpeakingFamilies(env, headers)
    ensures (forall w :: MayRead(env, headers, w) && w.family == family ==> w.IsExhausted()) <==> AllExhaust(env, headers, family)
  {
    if AllExhaust(env, headers, family) {
      forall w | MayRead(env, headers, w) && w.family == family
        ensures w.IsExhausted()
      {
        MayReadMeans(env, headers, w);
      }
    } else {
      NeverAtZero(env, headers, family);
      var e := Mildest(Said(env, headers, family));
      MayReadMeans(env, headers, WindowOf(family, e));
    }
  }
}
