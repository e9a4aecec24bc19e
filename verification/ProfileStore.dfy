/** The proxy profile catalog: saving, deleting, and the record of which credentials
    currently run on a fallback. */
module ProfileStore {
  import opened Basics
  import opened FallbackGraph

  const MAX_REMARK: nat := 120

  /** What the caller sent as proxy URL: nothing or blank, a text the URL validation refuses,
      or one it accepts with this canonical form. */
  datatype UrlInput = NoUrl | BadUrl | GoodUrl(canonical: string)

  // ---------------------------------------------------------------- the catalog invariant

  predicate ValidRemark(remark: string) {
    var trimmed := TrimSpace(remark);
    trimmed != "" && |trimmed| <= MAX_REMARK && Printable(trimmed)
  }

  predicate SameRemark(a: string, b: string) {
    ToLower(TrimSpace(a)) == ToLower(TrimSpace(b))
  }

  ghost predicate Ascending(s: seq<string>) {
    forall i, j :: 0 <= i < j < |s| ==> StrLess(s[i], s[j])
  }

  ghost predicate RecordOk(id: string, p: Profile) {
    && p.id == id && ValidId(id) && ValidRemark(p.remark)
    && (p.mode == NONE || p.mode == DIRECT || p.mode == PROFILE)
    && TrimSpace(p.backup) == p.backup && (p.mode != PROFILE ==> p.backup == "")
    && Ascending(p.indexes) && Clean(p.indexes)
  }

  ghost predicate RecordsOk(c: Catalog) {
    forall id :: id in c ==> RecordOk(id, c[id])
  }

  ghost predicate RemarksDistinct(c: Catalog) {
    forall a, b :: a in c && b in c && a != b ==> !SameRemark(c[a].remark, c[b].remark)
  }

  ghost predicate CatalogOk(c: Catalog) {
    |c| <= MAX_PROFILES && GraphOk(c) && RecordsOk(c) && RemarksDistinct(c)
  }

  /** While a fallback is active its profile, mode, target and the target's profile stay. */
  ghost predicate Frozen(c: Catalog, d: Catalog) {
    forall id :: id in c && c[id].active ==>
      && id in d && d[id].mode == c[id].mode && d[id].backup == c[id].backup
      && (c[id].mode == PROFILE ==> c[id].backup in d)
  }

  // ---------------------------------------------------------------- index lists

  function KeptIndexes(indexes: seq<string>): set<string> {
    set i | 0 <= i < |indexes| && ValidIndex(TrimSpace(indexes[i])) :: TrimSpace(indexes[i])
  }

  function Elements(s: seq<string>): set<string> {
    set x | x in s
  }

  method InsertString(sorted: seq<string>, x: string) returns (r: seq<string>)
    requires Ascending(sorted) && x !in sorted
    ensures Ascending(r) && Elements(r) == Elements(sorted) + {x}
  {
    var i := |sorted|;
    while i > 0 && StrLess(x, sorted[i - 1])
      invariant 0 <= i <= |sorted|
      invariant forall j :: i <= j < |sorted| ==> StrLess(x, sorted[j])
    {
      i := i - 1;
    }
    if i > 0 {
      StrLessTotal(sorted[i - 1], x);
    }
    forall j | 0 <= j < i
      ensures StrLess(sorted[j], x)
    {
      if j < i - 1 {
        StrLessTransitive(sorted[j], sorted[i - 1], x);
      }
    }
    r := sorted[..i] + [x] + sorted[i..];
    assert sorted == sorted[..i] + sorted[i..];
  }

  method SortStrings(s: seq<string>) returns (r: seq<string>)
    requires forall i, j :: 0 <= i < j < |s| ==> s[i] != s[j]
    ensures Ascending(r) && Elements(r) == Elements(s)
  {
    r := [];
    for i := 0 to |s|
      invariant Ascending(r) && Elements(r) == Elements(s[..i])
    {
      assert s[i] !in Elements(s[..i]);
      assert Elements(s[..i + 1]) == Elements(s[..i]) + {s[i]};
      r := InsertString(r, s[i]);
    }
    assert s[..|s|] == s;
  }

  /** Trims, drops what is not a usable index, drops repetitions, sorts. */
  method NormalizeAuthIndexes(indexes: seq<string>) returns (out: seq<string>)
    ensures Ascending(out) && Clean(out) && Elements(out) == KeptIndexes(indexes)
  {
    var seen: set<string> := {};
    var kept: seq<string> := [];
    for i := 0 to |indexes|
      invariant seen == KeptIndexes(indexes[..i]) == Elements(kept)
      invariant forall a, b :: 0 <= a < b < |kept| ==> kept[a] != kept[b]
    {
      var value := TrimSpace(indexes[i]);
      KeptGrows(indexes, i);
      if ValidIndex(value) && value !in seen {
        assert value !in kept;
        seen := seen + {value};
        kept := kept + [value];
      }
    }
    assert indexes[..|indexes|] == indexes;
    out := SortStrings(kept);
    NormalizedClean(indexes, out);
  }

  lemma KeptGrows(indexes: seq<string>, i: nat)
    requires i < |indexes|
    ensures var value := TrimSpace(indexes[i]);
            KeptIndexes(indexes[..i + 1]) == KeptIndexes(indexes[..i]) + if ValidIndex(value) then {value} else {}
  {
    var before, after := indexes[..i], indexes[..i + 1];
    assert forall k :: 0 <= k < i ==> after[k] == before[k];
    assert after[i] == indexes[i];
    forall x | x in KeptIndexes(before)
      ensures x in KeptIndexes(after)
    {
      var k :| 0 <= k < i && ValidIndex(TrimSpace(before[k])) && TrimSpace(before[k]) == x;
      assert after[k] == before[k];
    }
  }

  /** Lists of stored indexes need no cleaning. */
  predicate Clean(s: seq<string>) {
    forall x :: x in s ==> ValidIndex(x) && TrimSpace(x) == x
  }

  lemma KeptOfClean(s: seq<string>)
    requires Clean(s)
    ensures KeptIndexes(s) == Elements(s)
  {
    forall x | x in Elements(s)
      ensures x in KeptIndexes(s)
    {
      var i :| 0 <= i < |s| && s[i] == x;
      assert ValidIndex(TrimSpace(s[i]));
    }
  }

  lemma NormalizedClean(indexes: seq<string>, out: seq<string>)
    requires Elements(out) == KeptIndexes(indexes)
    ensures Clean(out)
  {
    forall x | x in out
      ensures ValidIndex(x) && TrimSpace(x) == x
    {
      assert x in KeptIndexes(indexes);
      var i :| 0 <= i < |indexes| && ValidIndex(TrimSpace(indexes[i])) && TrimSpace(indexes[i]) == x;
      TrimSpaceClean(indexes[i]);
      TrimSpaceClean(x);
    }
  }

  method AppendUnique(base: seq<string>, values: seq<string>) returns (out: seq<string>)
    requires Clean(base) && Clean(values)
    ensures Ascending(out) && Clean(out) && Elements(out) == Elements(base) + Elements(values)
  {
    out := NormalizeAuthIndexes(base + values);
    KeptOfClean(base + values);
  }

  method RemoveIndexes(base: seq<string>, remove: seq<string>) returns (out: seq<string>)
    requires Clean(base)
    ensures Ascending(out) && Clean(out) && Elements(out) == Elements(base) - Elements(remove)
  {
    var blocked: set<string> := {};
    for i := 0 to |remove|
      invariant blocked == Elements(remove[..i])
    {
      assert Elements(remove[..i + 1]) == Elements(remove[..i]) + {remove[i]};
      blocked := blocked + {remove[i]};
    }
    assert remove[..|remove|] == remove;
    var kept: seq<string> := [];
    for i := 0 to |base|
      invariant Elements(kept) == Elements(base[..i]) - blocked
    {
      assert Elements(base[..i + 1]) == Elements(base[..i]) + {base[i]};
      assert Elements(kept + [base[i]]) == Elements(kept) + {base[i]};
      if base[i] !in blocked {
        kept := kept + [base[i]];
      }
    }
    assert base[..|base|] == base;
    assert forall x :: x in kept ==> x in Elements(kept);
    out := NormalizeAuthIndexes(kept);
    KeptOfClean(kept);
  }

  lemma {:induction false} AscendingSize(s: seq<string>)
    requires Ascending(s)
    ensures |Elements(s)| == |s|
    decreases |s|
  {
    if s != [] {
      var n := |s| - 1;
      AscendingSize(s[..n]);
      if s[n] in s[..n] {
        StrLessTotal(s[n], s[n]);
        assert false;
      }
      assert Elements(s) == Elements(s[..n]) + {s[n]};
    }
  }

  // ---------------------------------------------------------------- what an operation does

  datatype SaveArgs = SaveArgs(name: string, remark: string, url: UrlInput, allowNamedCreate: bool, retainUrl: bool,
                               mode: Option<string>, backup: Option<string>, newId: string)
  {
    function Key(): string {
      TrimSpace(name)
    }
    function Id(): string {
      if Key() == "" then newId else Key()
    }
  }

  /** The mode and target a save asks for; what is not given is kept. */
  function SavedMode(c: Catalog, args: SaveArgs): string {
    if args.mode.Some? then (if TrimSpace(args.mode.value) == "" then NONE else TrimSpace(args.mode.value))
    else if args.Key() in c then c[args.Key()].mode else NONE
  }

  function SavedBackup(c: Catalog, args: SaveArgs): string {
    if SavedMode(c, args) != PROFILE then ""
    else if args.backup.Some? then TrimSpace(args.backup.value)
    else if args.Key() in c then c[args.Key()].backup else ""
  }

  ghost predicate RemarkFree(c: Catalog, id: string, remark: string) {
    forall other :: other in c && other != id ==> !SameRemark(c[other].remark, remark)
  }

  /** When a save is accepted, the write aside: everything but the graph, and the graph. */
  ghost predicate MaySave(c: Catalog, args: SaveArgs) {
    && MayPrepare(c, args)
    && (SavedMode(c, args) == PROFILE ==> SavedBackup(c, args) in c && !Reaches(c, SavedBackup(c, args), args.Id()))
  }

  ghost predicate MayPrepare(c: Catalog, args: SaveArgs) {
    var key := args.Key();
    && (key != "" ==> ValidId(key) && (key in c || args.allowNamedCreate))
    && ValidRemark(args.remark)
    && (args.url.GoodUrl? || (args.url.NoUrl? && key in c && args.retainUrl))
    && MayCompose(c, args)
  }

  ghost predicate MayCompose(c: Catalog, args: SaveArgs) {
    var key := args.Key();
    && ModeOk(args.Id(), SavedMode(c, args), SavedBackup(c, args))
    && (key in c && c[key].active ==> SavedMode(c, args) == c[key].mode && SavedBackup(c, args) == c[key].backup)
    && (key !in c ==> |c| < MAX_PROFILES)
    && RemarkFree(c, args.Id(), args.remark)
  }

  function SavedProfile(c: Catalog, args: SaveArgs): Profile {
    var key := args.Key();
    var url := if args.url.GoodUrl? then args.url.canonical else if key in c then c[key].url else "";
    Profile(args.Id(), TrimSpace(args.remark), url, SavedMode(c, args), SavedBackup(c, args),
            key in c && c[key].active, if key in c then c[key].indexes else [])
  }

  /** What an accepted save leaves, field by field: what is not given stays, and neither the
      active flag nor the affected credentials of any profile change. */
  ghost predicate SaveLeaves(c: Catalog, args: SaveArgs, d: Catalog) {
    var id := args.Id();
    && d.Keys == c.Keys + {id} && (forall other :: other in c && other != id ==> d[other] == c[other])
    && d[id].id == id && d[id].remark == TrimSpace(args.remark)
    && (args.url.GoodUrl? ==> d[id].url == args.url.canonical)
    && (!args.url.GoodUrl? && id in c ==> d[id].url == c[id].url)
    && (args.mode.Some? ==> d[id].mode == if TrimSpace(args.mode.value) == "" then NONE else TrimSpace(args.mode.value))
    && (args.mode.None? ==> d[id].mode == if id in c then c[id].mode else NONE)
    && (d[id].mode != PROFILE ==> d[id].backup == "")
    && (d[id].mode == PROFILE && args.backup.Some? ==> d[id].backup == TrimSpace(args.backup.value))
    && (d[id].mode == PROFILE && args.backup.None? ==> d[id].backup == if id in c then c[id].backup else "")
    && (id in c ==> d[id].active == c[id].active && d[id].indexes == c[id].indexes)
    && (id !in c ==> !d[id].active && d[id].indexes == [])
  }

  lemma SavedLeaves(c: Catalog, args: SaveArgs)
    requires RecordsOk(c) && args.newId !in c
    ensures SaveLeaves(c, args, c[args.Id() := SavedProfile(c, args)])
  {
    NoEmptyKey(c);
  }

  /** Nothing else is left: the fields determine the catalogue. */
  lemma SaveLeavesOne(c: Catalog, args: SaveArgs, d: Catalog)
    requires RecordsOk(c) && args.newId !in c && MayPrepare(c, args) && SaveLeaves(c, args, d)
    ensures d == c[args.Id() := SavedProfile(c, args)]
  {
    SavedConfig(c, args, d);
    SavedRest(c, args, d);
    PutIs(c, args.Id(), SavedProfile(c, args), d);
  }

  lemma PutIs(c: Catalog, id: string, p: Profile, d: Catalog)
    requires d.Keys == c.Keys + {id} && forall other :: other in c && other != id ==> d[other] == c[other]
    requires d[id].id == p.id && d[id].remark == p.remark && d[id].url == p.url && d[id].mode == p.mode
    requires d[id].backup == p.backup && d[id].active == p.active && d[id].indexes == p.indexes
    ensures d == c[id := p]
  {
    assert d[id] == p;
    assert d.Keys == c[id := p].Keys;
  }

  lemma SavedConfig(c: Catalog, args: SaveArgs, d: Catalog)
    requires RecordsOk(c) && args.newId !in c && SaveLeaves(c, args, d)
    ensures d[args.Id()].mode == SavedMode(c, args) && d[args.Id()].backup == SavedBackup(c, args)
  {
    NoEmptyKey(c);
  }

  lemma SavedRest(c: Catalog, args: SaveArgs, d: Catalog)
    requires RecordsOk(c) && args.newId !in c && MayPrepare(c, args) && SaveLeaves(c, args, d)
    ensures var p, q := d[args.Id()], SavedProfile(c, args);
            p.id == q.id && p.remark == q.remark && p.url == q.url && p.active == q.active && p.indexes == q.indexes
  {
    NoEmptyKey(c);
  }

  lemma SavedModeClean(c: Catalog, args: SaveArgs)
    requires RecordsOk(c)
    ensures TrimSpace(SavedMode(c, args)) == SavedMode(c, args) != ""
    ensures TrimSpace(SavedBackup(c, args)) == SavedBackup(c, args)
  {
    ModesTrimmed();
    TrimTwice(if args.mode.Some? then args.mode.value else "");
    TrimTwice(if args.backup.Some? then args.backup.value else "");
    var key := args.Key();
    if key in c {
      assert RecordOk(key, c[key]);
    }
  }

  lemma SaveFieldsOk(c: Catalog, args: SaveArgs)
    requires CatalogOk(c) && ModeOk(args.Id(), SavedMode(c, args), SavedBackup(c, args))
    requires var key := args.Key(); key in c && c[key].active ==> SavedMode(c, args) == c[key].mode
    ensures var p := SavedProfile(c, args); FieldsOk(args.Id(), p.mode, p.backup, p.indexes, p.active)
  {
    var key := args.Key();
    if key in c {
      assert FieldsOk(key, c[key].mode, c[key].backup, c[key].indexes, c[key].active);
    }
  }

  lemma SaveRecordOk(c: Catalog, args: SaveArgs)
    requires CatalogOk(c) && ModeOk(args.Id(), SavedMode(c, args), SavedBackup(c, args))
    requires ValidId(args.Id()) && ValidRemark(args.remark)
    ensures RecordOk(args.Id(), SavedProfile(c, args))
  {
    SavedModeClean(c, args);
    TrimSpaceClean(args.remark);
    TrimSpaceClean(TrimSpace(args.remark));
    var key := args.Key();
    if key in c {
      assert RecordOk(key, c[key]);
    }
  }

  /** The graph check on the new catalog comes down to the one new edge. */
  lemma SaveGraph(c: Catalog, args: SaveArgs)
    requires CatalogOk(c) && ModeOk(args.Id(), SavedMode(c, args), SavedBackup(c, args))
    requires var key := args.Key(); key in c && c[key].active ==> SavedMode(c, args) == c[key].mode
    ensures GraphOk(c[args.Id() := SavedProfile(c, args)]) <==>
            (SavedMode(c, args) == PROFILE ==> SavedBackup(c, args) in c && !Reaches(c, SavedBackup(c, args), args.Id()))
  {
    var id, p := args.Id(), SavedProfile(c, args);
    var d := c[id := p];
    SavedModeClean(c, args);
    SaveFieldsOk(c, args);
    OneEdge(c, id, p);
    assert AllFieldsOk(d);
    if p.mode == PROFILE && p.backup !in c {
      assert d[id].backup !in d;
    }
  }

  lemma PutSize(c: Catalog, id: string, p: Profile)
    ensures |c[id := p]| == |c| + if id in c then 0 else 1
  {
    var d := c[id := p];
    assert d.Keys == c.Keys + {id};
    assert |c.Keys| == |c| && |d.Keys| == |d|;
  }

  lemma PutRemark(c: Catalog, id: string, p: Profile)
    requires RemarksDistinct(c) && RemarkFree(c, id, p.remark)
    ensures RemarksDistinct(c[id := p])
  {
    var d := c[id := p];
    forall a, b | a in d && b in d && a != b
      ensures !SameRemark(d[a].remark, d[b].remark)
    {
      var other := if a == id then b else a;
      assert other != id ==> other in c;
    }
  }

  /** Putting one good record into the catalog. */
  lemma PutKeeps(c: Catalog, id: string, p: Profile)
    requires CatalogOk(c) && RecordOk(id, p) && RemarkFree(c, id, p.remark) && GraphOk(c[id := p])
    requires id !in c ==> |c| < MAX_PROFILES
    ensures CatalogOk(c[id := p])
  {
    PutSize(c, id, p);
    PutRemark(c, id, p);
    assert RecordsOk(c[id := p]);
  }

  lemma PutFrozen(c: Catalog, id: string, p: Profile)
    requires TargetsExist(c)
    requires id in c && c[id].active ==> p.mode == c[id].mode && p.backup == c[id].backup
    ensures Frozen(c, c[id := p])
  {
  }

  lemma SaveKeeps(c: Catalog, args: SaveArgs, d: Catalog)
    requires CatalogOk(c) && MaySave(c, args) && ValidId(args.newId) && args.newId !in c && SaveLeaves(c, args, d)
    ensures CatalogOk(d) && Frozen(c, d)
  {
    SaveLeavesOne(c, args, d);
    SavedKeeps(c, args);
  }

  lemma SavedKeeps(c: Catalog, args: SaveArgs)
    requires CatalogOk(c) && MaySave(c, args) && ValidId(args.newId) && args.newId !in c
    ensures CatalogOk(c[args.Id() := SavedProfile(c, args)]) && Frozen(c, c[args.Id() := SavedProfile(c, args)])
  {
    SaveGraph(c, args);
    SaveRecordOk(c, args);
    TrimTwice(args.remark);
    var p := SavedProfile(c, args);
    assert SameRemark(p.remark, args.remark);
    forall other | other in c && other != args.Id()
      ensures !SameRemark(c[other].remark, p.remark)
    {
    }
    NoEmptyKey(c);
    PutKeeps(c, args.Id(), p);
    PutFrozen(c, args.Id(), p);
  }

  lemma NoEmptyKey(c: Catalog)
    requires RecordsOk(c)
    ensures "" !in c
  {
  }

  // ---------------------------------------------------------------- saves that are accepted

  /** A new profile with a good URL, a usable free remark and no fallback is accepted while there
      is room. */
  lemma NewProfileIsAccepted(c: Catalog, args: SaveArgs)
    requires CatalogOk(c) && |c| < MAX_PROFILES && TrimSpace(args.name) == "" && args.newId !in c
    requires args.url.GoodUrl? && ValidRemark(args.remark) && RemarkFree(c, args.newId, args.remark) && args.mode.None?
    ensures MaySave(c, args)
  {
    NoEmptyKey(c);
    ModesTrimmed();
    TrimSpaceClean("");
  }

  /** A save that names a profile and gives nothing but its own remark is accepted whatever its
      state, and changes nothing but outer space of the remark. */
  lemma IdleSaveIsAccepted(c: Catalog, args: SaveArgs)
    requires CatalogOk(c) && TrimSpace(args.name) in c && args.newId !in c
    requires args.url.NoUrl? && args.retainUrl && args.mode.None? && args.backup.None?
    requires args.remark == c[TrimSpace(args.name)].remark
    ensures MaySave(c, args)
    ensures var id := TrimSpace(args.name);
            forall d :: SaveLeaves(c, args, d) ==> d == c[id := c[id].(remark := TrimSpace(c[id].remark))]
  {
    var id := TrimSpace(args.name);
    NoEmptyKey(c);
    assert RecordOk(id, c[id]);
    assert FieldsOk(id, c[id].mode, c[id].backup, c[id].indexes, c[id].active);
    OwnRemarkFree(c, id);
    if c[id].mode == PROFILE && Reaches(c, c[id].backup, id) {
      ReachesItself(c, id);
      assert false;
    }
    assert MayPrepare(c, args);
    forall d | SaveLeaves(c, args, d)
      ensures d == c[id := c[id].(remark := TrimSpace(c[id].remark))]
    {
      PutIs(c, id, c[id].(remark := TrimSpace(c[id].remark)), d);
    }
  }

  // ---------------------------------------------------------------- deleting

  ghost predicate Referenced(c: Catalog, id: string) {
    exists other :: other in c && other != id && c[other].mode == PROFILE && c[other].backup == id
  }

  lemma DeleteAcyclic(c: Catalog, id: string)
    requires GraphOk(c) && !Referenced(c, id)
    ensures Acyclic(c - {id})
  {
    var d := c - {id};
    forall x | x in d
      ensures !OnCycle(d, x)
    {
      if OnCycle(d, x) {
        var n: nat :| n >= 1 && Walk(d, x, n) == Some(x);
        forall k: nat | k < n
          ensures Walk(d, x, k) != Some(id)
        {
          if Walk(d, x, k).Some? {
            WalkStays(d, x, k);
          }
        }
        AvoidingCycle(d, c, id, x, n);
        assert false;
      }
    }
  }

  lemma DeleteKeeps(c: Catalog, id: string)
    requires CatalogOk(c) && id in c && !c[id].active && !Referenced(c, id)
    ensures CatalogOk(c - {id}) && Frozen(c, c - {id})
  {
    var d := c - {id};
    assert d.Keys == c.Keys - {id};
    assert |d.Keys| == |d| && |c.Keys| == |c|;
    SubsetSize(d.Keys, c.Keys);
    DeleteAcyclic(c, id);
    assert RecordsOk(d) && RemarksDistinct(d);
    assert AllFieldsOk(d);
  }

  // ---------------------------------------------------------------- active fallbacks

  /** The profile with its list of affected credentials replaced. */
  function WithIndexes(p: Profile, indexes: seq<string>): Profile {
    p.(active := indexes != [], indexes := indexes)
  }

  lemma UpdateFields(c: Catalog, id: string, indexes: seq<string>)
    requires CatalogOk(c) && id in c && c[id].mode != NONE && Ascending(indexes) && Clean(indexes)
    ensures var p := WithIndexes(c[id], indexes);
            && RecordOk(id, p)
            && (FieldsOk(id, p.mode, p.backup, p.indexes, p.active) <==> |indexes| <= MAX_PROFILES)
  {
    assert RecordOk(id, c[id]) && FieldsOk(id, c[id].mode, c[id].backup, c[id].indexes, c[id].active);
    ModesTrimmed();
    IndexesAreOk(indexes);
  }

  lemma SameEdgesAcyclic(c: Catalog, id: string, p: Profile)
    requires Acyclic(c) && id in c && p.mode == c[id].mode && p.backup == c[id].backup
    ensures Acyclic(c[id := p])
  {
    OneEdge(c, id, p);
    if p.mode == PROFILE && Reaches(c, p.backup, id) {
      ReachesItself(c, id);
      assert false;
    }
  }

  lemma OwnRemarkFree(c: Catalog, id: string)
    requires RemarksDistinct(c) && id in c
    ensures RemarkFree(c, id, c[id].remark)
  {
  }

  lemma PutGraph(c: Catalog, id: string, p: Profile)
    requires GraphOk(c) && id in c && p.mode == c[id].mode && p.backup == c[id].backup
    ensures GraphOk(c[id := p]) <==> FieldsOk(id, p.mode, p.backup, p.indexes, p.active)
  {
    var d := c[id := p];
    SameEdgesAcyclic(c, id, p);
    assert d[id] == p;
    assert TargetsExist(d);
    if FieldsOk(id, p.mode, p.backup, p.indexes, p.active) {
      assert AllFieldsOk(d);
    }
  }

  lemma UpdateKeeps(c: Catalog, id: string, indexes: seq<string>)
    requires CatalogOk(c) && id in c && c[id].mode != NONE && Ascending(indexes) && Clean(indexes)
    ensures var d := c[id := WithIndexes(c[id], indexes)];
            && (GraphOk(d) <==> |indexes| <= MAX_PROFILES)
            && (GraphOk(d) ==> CatalogOk(d) && Frozen(c, d))
  {
    var p := WithIndexes(c[id], indexes);
    UpdateFields(c, id, indexes);
    PutGraph(c, id, p);
    PutFrozen(c, id, p);
    if |indexes| <= MAX_PROFILES {
      OwnRemarkFree(c, id);
      PutKeeps(c, id, p);
    }
  }

  lemma ModesTrimmed()
    ensures TrimSpace(NONE) == NONE && TrimSpace(DIRECT) == DIRECT && TrimSpace(PROFILE) == PROFILE
  {
    TrimSpaceClean(NONE);
    TrimSpaceClean(DIRECT);
    TrimSpaceClean(PROFILE);
  }

  lemma IndexesAreOk(indexes: seq<string>)
    requires Ascending(indexes) && Clean(indexes)
    ensures IndexesOk(indexes) <==> |indexes| <= MAX_PROFILES
  {
    forall i, j | 0 <= i < j < |indexes|
      ensures TrimSpace(indexes[i]) != TrimSpace(indexes[j])
    {
      StrLessTotal(indexes[i], indexes[j]);
    }
  }

  // ---------------------------------------------------------------- the store

  class Store {
    var profiles: Catalog
    /** The committed document. */
    var disk: Catalog

    ghost predicate Valid()
      reads this
    {
      CatalogOk(profiles) && disk == profiles
    }

    constructor ()
      ensures Valid() && profiles == map[]
    {
      profiles := map[];
      disk := map[];
    }

    /** An atomic write and, only after it, the change in memory. */
    method Commit(next: Catalog, written: bool) returns (ok: bool)
      requires Valid() && CatalogOk(next)
      modifies this
      ensures Valid() && ok == written && profiles == if written then next else old(profiles)
    {
      if !written {
        return false;
      }
      disk := next;
      profiles := next;
      return true;
    }

    method DuplicateRemark(id: string, remark: string) returns (duplicate: bool)
      ensures duplicate <==> !RemarkFree(profiles, id, remark)
    {
      var todo := profiles.Keys;
      while todo != {}
        invariant todo <= profiles.Keys
        invariant forall other :: other in profiles.Keys - todo && other != id ==> !SameRemark(profiles[other].remark, remark)
      {
        var other :| other in todo;
        todo := todo - {other};
        if other != id && SameRemark(profiles[other].remark, remark) {
          return true;
        }
      }
      return false;
    }

    /** Creates a profile or edits one. `newId` is the fresh random identifier. */
    method Save(args: SaveArgs, written: bool) returns (r: Result<Profile>)
      requires Valid() && ValidId(args.newId) && args.newId !in profiles
      modifies this
      ensures Valid() && Frozen(old(profiles), profiles)
      ensures r.Ok? <==> written && MaySave(old(profiles), args)
      ensures r.Ok? ==> SaveLeaves(old(profiles), args, profiles) && r.value == profiles[args.Id()]
      ensures r.Err? ==> profiles == old(profiles)
      ensures Does(old(profiles), Saves(args, written), profiles)
    {
      var profile := Prepare(args);
      if profile.Err? {
        return profile;
      }
      var next := profiles[args.Id() := profile.value];
      var ok := ValidateFallbackGraph(next);
      SaveGraph(profiles, args);
      if !ok {
        return Err("proxy profile is invalid");
      }
      SavedLeaves(profiles, args);
      SaveKeeps(profiles, args, next);
      ok := Commit(next, written);
      return if ok then profile else Err("atomic write failed");
    }

    /** The checks that come before the graph, in their order. */
    method Prepare(args: SaveArgs) returns (r: Result<Profile>)
      requires Valid() && ValidId(args.newId) && args.newId !in profiles
      ensures r.Ok? <==> MayPrepare(profiles, args)
      ensures r.Ok? ==> r.value == SavedProfile(profiles, args)
    {
      var id := TrimSpace(args.name);
      if id != "" && !ValidId(id) {
        return Err("proxy profile is invalid");
      }
      if !ValidRemark(args.remark) {
        return Err("proxy profile is invalid");
      }
      var known := id in profiles;
      if id != "" && !known && !args.allowNamedCreate {
        return Err("proxy profile not found");
      }
      var canonical := "";
      if args.url.GoodUrl? {
        canonical := args.url.canonical;
      } else if args.url.NoUrl? && known && args.retainUrl {
        canonical := profiles[id].url;
      } else {
        return Err("proxy URL");
      }
      r := Compose(args, canonical);
    }

    /** The second half: the fallback configuration, then room and remark. */
    method Compose(args: SaveArgs, canonical: string) returns (r: Result<Profile>)
      requires Valid() && ValidRemark(args.remark)
      ensures r.Ok? <==> MayCompose(profiles, args)
      ensures r.Ok? ==> r.value == SavedProfile(profiles, args).(url := canonical)
    {
      var id := TrimSpace(args.name);
      var known := id in profiles;
      var mode, backup := ResolveFallback(args);
      if known && profiles[id].active && (mode != profiles[id].mode || backup != profiles[id].backup) {
        return Err("proxy profile has an active fallback");
      }
      var ok := ValidateFallbackFields(args.Id(), mode, backup, [], false);
      if !ok {
        return Err("proxy profile is invalid");
      }
      var profile := Profile(args.Id(), TrimSpace(args.remark), canonical, mode, backup, false, []);
      if known && profiles[id].active {
        profile := profile.(active := true, indexes := profiles[id].indexes);
      } else if known && args.mode.None? && args.backup.None? {
        profile := profile.(active := profiles[id].active, indexes := profiles[id].indexes);
      }
      assert known ==> FieldsOk(id, profiles[id].mode, profiles[id].backup, profiles[id].indexes, profiles[id].active);
      if !known && |profiles| >= MAX_PROFILES {
        return Err("proxy profile limit reached");
      }
      var duplicate := DuplicateRemark(args.Id(), args.remark);
      if duplicate {
        return Err("proxy profile remark already exists");
      }
      return Ok(profile);
    }

    method ResolveFallback(args: SaveArgs) returns (mode: string, backup: string)
      requires Valid()
      ensures mode == SavedMode(profiles, args) && backup == SavedBackup(profiles, args)
    {
      var id := TrimSpace(args.name);
      mode, backup := NONE, "";
      if id in profiles {
        assert RecordOk(id, profiles[id]);
        mode, backup := profiles[id].mode, profiles[id].backup;
      }
      if args.mode.Some? {
        mode := TrimSpace(args.mode.value);
        if mode == "" {
          mode := NONE;
        }
        if mode != PROFILE {
          backup := "";
        }
      }
      if args.backup.Some? {
        backup := TrimSpace(args.backup.value);
      }
      if mode != PROFILE {
        backup := "";
      }
    }

    method IsReferenced(id: string) returns (referenced: bool)
      ensures referenced <==> Referenced(profiles, id)
    {
      var todo := profiles.Keys;
      while todo != {}
        invariant todo <= profiles.Keys
        invariant forall other :: other in profiles.Keys - todo && other != id ==>
                    !(profiles[other].mode == PROFILE && profiles[other].backup == id)
      {
        var other :| other in todo;
        todo := todo - {other};
        if other != id && profiles[other].mode == PROFILE && profiles[other].backup == id {
          return true;
        }
      }
      return false;
    }

    /** Refused for an unknown profile, an active fallback, or a profile others fall back to. */
    method Delete(name: string, written: bool) returns (ok: bool)
      requires Valid()
      modifies this
      ensures Valid() && Frozen(old(profiles), profiles)
      ensures var id := TrimSpace(name);
              ok <==> written && id in old(profiles) && !old(profiles)[id].active && !Referenced(old(profiles), id)
      ensures profiles == if ok then old(profiles) - {TrimSpace(name)} else old(profiles)
      ensures Does(old(profiles), Deletes(name, written), profiles)
    {
      var id := TrimSpace(name);
      if id !in profiles || profiles[id].active {
        return false;
      }
      var referenced := IsReferenced(id);
      if referenced {
        return false;
      }
      DeleteKeeps(profiles, id);
      ok := Commit(profiles - {id}, written);
    }

    /** The credentials that run on the fallback of a profile: more of them, or fewer. */
    method UpdateFallbackState(name: string, authIndexes: seq<string>, activate: bool, written: bool) returns (ok: bool)
      requires Valid()
      modifies this
      ensures Valid() && Frozen(old(profiles), profiles)
      ensures !ok ==> profiles == old(profiles)
      ensures var id, given := TrimSpace(name), KeptIndexes(authIndexes);
              ok <==> written && given != {} && id in old(profiles) && old(profiles)[id].mode != NONE
                      && |Affected(old(profiles)[id], given, activate)| <= MAX_PROFILES
      ensures var id, given := TrimSpace(name), KeptIndexes(authIndexes);
              ok ==> && id in old(profiles) && id in profiles
                     && profiles == old(profiles)[id := WithIndexes(old(profiles)[id], profiles[id].indexes)]
                     && Elements(profiles[id].indexes) == Affected(old(profiles)[id], given, activate)
      ensures Does(old(profiles), if activate then Marks(name, authIndexes, written) else Clears(name, authIndexes, written), profiles)
    {
      var id := TrimSpace(name);
      var indexes := NormalizeAuthIndexes(authIndexes);
      if |indexes| == 0 {
        return false;
      }
      assert indexes[0] in Elements(indexes);
      if id !in profiles || profiles[id].mode == NONE {
        return false;
      }
      assert RecordOk(id, profiles[id]);
      var current := profiles[id].indexes;
      if activate {
        current := AppendUnique(current, indexes);
        assert indexes[0] in Elements(current);
      } else {
        current := RemoveIndexes(current, indexes);
      }
      AscendingSize(current);
      var next := profiles[id := profiles[id].(active := activate || |current| > 0, indexes := current)];
      UpdateKeeps(profiles, id, current);
      ok := ValidateFallbackGraph(next);
      if !ok {
        return false;
      }
      ok := Commit(next, written);
    }
  }

  function Affected(p: Profile, given: set<string>, activate: bool): set<string> {
    if activate then Elements(p.indexes) + given else Elements(p.indexes) - given
  }

  // ---------------------------------------------------------------- over every sequence of operations

  datatype Op =
    | Saves(args: SaveArgs, written: bool)
    | Deletes(name: string, written: bool)
    | Marks(name: string, indexes: seq<string>, written: bool)
    | Clears(name: string, indexes: seq<string>, written: bool)

  ghost predicate MayDelete(c: Catalog, id: string) {
    id in c && !c[id].active && !Referenced(c, id)
  }

  ghost predicate MayUpdate(c: Catalog, id: string, given: set<string>, activate: bool) {
    given != {} && id in c && c[id].mode != NONE && |Affected(c[id], given, activate)| <= MAX_PROFILES
  }

  ghost predicate Updated(c: Catalog, d: Catalog, id: string, given: set<string>, activate: bool) {
    && id in c && id in d && d == c[id := WithIndexes(c[id], d[id].indexes)]
    && Ascending(d[id].indexes) && Elements(d[id].indexes) == Affected(c[id], given, activate)
  }

  /** What an operation makes of the catalogue: a refusal or a failed write leaves it alone. */
  ghost predicate Does(c: Catalog, op: Op, d: Catalog) {
    match op
    case Saves(args, written) =>
      if written && MaySave(c, args) then SaveLeaves(c, args, d) else d == c
    case Deletes(name, written) =>
      if written && MayDelete(c, TrimSpace(name)) then d == c - {TrimSpace(name)} else d == c
    case Marks(name, indexes, written) =>
      if written && MayUpdate(c, TrimSpace(name), KeptIndexes(indexes), true)
      then Updated(c, d, TrimSpace(name), KeptIndexes(indexes), true) else d == c
    case Clears(name, indexes, written) =>
      if written && MayUpdate(c, TrimSpace(name), KeptIndexes(indexes), false)
      then Updated(c, d, TrimSpace(name), KeptIndexes(indexes), false) else d == c
  }

  /** Generated identifiers are well-formed and unused. */
  predicate FreshId(c: Catalog, op: Op) {
    op.Saves? ==> ValidId(op.args.newId) && op.args.newId !in c
  }

  lemma AffectedClean(p: Profile, given: seq<string>, activate: bool, indexes: seq<string>)
    requires Clean(p.indexes) && Elements(indexes) == Affected(p, KeptIndexes(given), activate)
    ensures Clean(indexes)
  {
    forall x | x in indexes
      ensures ValidIndex(x) && TrimSpace(x) == x
    {
      assert x in Elements(indexes);
      if x in Elements(p.indexes) {
        assert x in p.indexes;
      } else {
        var i :| 0 <= i < |given| && ValidIndex(TrimSpace(given[i])) && TrimSpace(given[i]) == x;
        TrimTwice(given[i]);
      }
    }
  }

  lemma UpdatedKeeps(c: Catalog, d: Catalog, id: string, given: seq<string>, activate: bool)
    requires CatalogOk(c) && MayUpdate(c, id, KeptIndexes(given), activate) && Updated(c, d, id, KeptIndexes(given), activate)
    ensures CatalogOk(d) && Frozen(c, d)
  {
    assert RecordOk(id, c[id]);
    AffectedClean(c[id], given, activate, d[id].indexes);
    AscendingSize(d[id].indexes);
    UpdateKeeps(c, id, d[id].indexes);
  }

  /** Each operation keeps the catalogue invariant and the configuration of active fallbacks. */
  lemma OpKeeps(c: Catalog, op: Op, d: Catalog)
    requires CatalogOk(c) && FreshId(c, op) && Does(c, op, d)
    ensures CatalogOk(d) && Frozen(c, d)
  {
    if d != c {
      match op
      case Saves(args, _) => SaveKeeps(c, args, d);
      case Deletes(name, _) => DeleteKeeps(c, TrimSpace(name));
      case Marks(name, indexes, _) => UpdatedKeeps(c, d, TrimSpace(name), indexes, true);
      case Clears(name, indexes, _) => UpdatedKeeps(c, d, TrimSpace(name), indexes, false);
    } else {
      SameFrozen(c);
    }
  }

  lemma SameFrozen(c: Catalog)
    requires CatalogOk(c)
    ensures Frozen(c, c)
  {
  }

  /** The catalogues a sequence of operations goes through, from the empty one on. */
  ghost predicate History(cs: seq<Catalog>, ops: seq<Op>) {
    && |cs| == |ops| + 1 && cs[0] == map[]
    && forall i :: 0 <= i < |ops| ==> Happens(cs, ops, i)
  }

  ghost predicate Happens(cs: seq<Catalog>, ops: seq<Op>, i: nat)
    requires |cs| == |ops| + 1 && i < |ops|
  {
    FreshId(cs[i], ops[i]) && Does(cs[i], ops[i], cs[i + 1])
  }

  lemma EmptyOk()
    ensures CatalogOk(map[])
  {
  }

  ghost predicate Kept(c: Catalog, d: Catalog) {
    CatalogOk(c) ==> CatalogOk(d) && Frozen(c, d)
  }

  lemma HistoryStep(cs: seq<Catalog>, ops: seq<Op>, i: nat)
    requires History(cs, ops) && i < |ops|
    ensures Kept(cs[i], cs[i + 1])
  {
    assert Happens(cs, ops, i);
    if CatalogOk(cs[i]) {
      OpKeeps(cs[i], ops[i], cs[i + 1]);
    }
  }

  lemma {:induction false} Along(cs: seq<Catalog>, good: Catalog -> bool, i: nat)
    requires i < |cs| && good(cs[0])
    requires forall k :: 0 <= k < i && good(cs[k]) ==> good(cs[k + 1])
    ensures good(cs[i])
  {
    if i > 0 {
      Along(cs, good, i - 1);
      assert good(cs[i - 1 + 1]);
    }
  }

  /** After every sequence of saves, deletions, marks and clears, with any of their writes
      failing, the catalogue is well-formed: acyclic, at most 256 profiles, remarks distinct,
      active exactly with a non-empty list, lists sorted and distinct. */
  lemma HistoryOk(cs: seq<Catalog>, ops: seq<Op>, i: nat)
    requires History(cs, ops) && i < |cs|
    ensures CatalogOk(cs[i])
  {
    EmptyOk();
    forall k | 0 <= k < i && CatalogOk(cs[k])
      ensures CatalogOk(cs[k + 1])
    {
      HistoryStep(cs, ops, k);
    }
    Along(cs, c => CatalogOk(c), i);
  }

  lemma {:induction false} FrozenChain(cs: seq<Catalog>, id: string, i: nat, j: nat)
    requires i <= j < |cs| && id in cs[i]
    requires forall k {:trigger cs[k]} :: i <= k < j ==> id in cs[k] && cs[k][id].active && Frozen(cs[k], cs[k + 1])
    ensures id in cs[j] && cs[j][id].mode == cs[i][id].mode && cs[j][id].backup == cs[i][id].backup
    ensures i < j && cs[i][id].mode == PROFILE ==> cs[i][id].backup in cs[j]
    decreases j - i
  {
    if i < j {
      FrozenChain(cs, id, i, j - 1);
      assert Frozen(cs[j - 1], cs[j - 1 + 1]);
    }
  }

  lemma TargetExists(c: Catalog, id: string)
    requires CatalogOk(c) && id in c && c[id].mode == PROFILE
    ensures c[id].backup in c
  {
    assert RecordOk(id, c[id]);
  }

  /** From a moment at which a fallback is active, and for as long as it has been active since:
      its profile, mode and target are unchanged and the target's profile is still there. */
  lemma ActiveStaysPut(cs: seq<Catalog>, ops: seq<Op>, id: string, i: nat, j: nat)
    requires History(cs, ops) && i <= j < |cs| && id in cs[i]
    requires forall k :: i <= k < j ==> id in cs[k] && cs[k][id].active
    ensures id in cs[j] && cs[j][id].mode == cs[i][id].mode && cs[j][id].backup == cs[i][id].backup
    ensures cs[i][id].mode == PROFILE ==> cs[i][id].backup in cs[j]
  {
    forall k | i <= k < j
      ensures id in cs[k] && cs[k][id].active && Frozen(cs[k], cs[k + 1])
    {
      HistoryOk(cs, ops, k);
      HistoryStep(cs, ops, k);
    }
    FrozenChain(cs, id, i, j);
    HistoryOk(cs, ops, i);
    if cs[i][id].mode == PROFILE {
      TargetExists(cs[i], id);
    }
  }

  // ---------------------------------------------------------------- what makes a fallback active

  /** The operation is a mark (or clear) that goes through and names the credential. */
  ghost predicate MarkDone(c: Catalog, op: Op, id: string, x: string) {
    && op.Marks? && op.written && TrimSpace(op.name) == id && x in KeptIndexes(op.indexes)
    && MayUpdate(c, id, KeptIndexes(op.indexes), true)
  }

  ghost predicate ClearDone(c: Catalog, op: Op, id: string, x: string) {
    && op.Clears? && op.written && TrimSpace(op.name) == id && x in KeptIndexes(op.indexes)
    && MayUpdate(c, id, KeptIndexes(op.indexes), false)
  }

  /** The positions of those that go through along a history. */
  ghost function MarkedAt(cs: seq<Catalog>, ops: seq<Op>, id: string, x: string): iset<nat>
    requires |cs| == |ops| + 1
  {
    iset k: nat | k < |ops| && MarkDone(cs[k], ops[k], id, x)
  }

  ghost function ClearedAt(cs: seq<Catalog>, ops: seq<Op>, id: string, x: string): iset<nat>
    requires |cs| == |ops| + 1
  {
    iset k: nat | k < |ops| && ClearDone(cs[k], ops[k], id, x)
  }

  /** Marked before position j, and not cleared since. */
  ghost predicate Lasts(marked: iset<nat>, cleared: iset<nat>, j: nat) {
    exists i :: i in marked && i < j && forall k :: k in cleared ==> !(i < k < j)
  }

  ghost predicate InForce(cs: seq<Catalog>, ops: seq<Op>, id: string, x: string, j: nat)
    requires |cs| == |ops| + 1
  {
    Lasts(MarkedAt(cs, ops, id, x), ClearedAt(cs, ops, id, x), j)
  }

  lemma LastsStep(marked: iset<nat>, cleared: iset<nat>, j: nat)
    ensures Lasts(marked, cleared, j + 1) <==> j in marked || (Lasts(marked, cleared, j) && j !in cleared)
  {
    if Lasts(marked, cleared, j) && j !in cleared {
      var i :| i in marked && i < j && forall k :: k in cleared ==> !(i < k < j);
      assert forall k :: k in cleared ==> !(i < k < j + 1);
    }
    if Lasts(marked, cleared, j + 1) && j !in marked {
      var i :| i in marked && i < j + 1 && forall k :: k in cleared ==> !(i < k < j + 1);
      assert i < j;
    }
  }

  ghost predicate OnList(c: Catalog, id: string, x: string) {
    id in c && x in Elements(c[id].indexes)
  }

  /** How one operation changes the lists. */
  lemma OnListStep(c: Catalog, op: Op, d: Catalog, id: string, x: string)
    requires CatalogOk(c) && FreshId(c, op) && Does(c, op, d)
    ensures OnList(d, id, x) <==> MarkDone(c, op, id, x) || (OnList(c, id, x) && !ClearDone(c, op, id, x))
  {
    match op
    case Saves(args, written) => OnListSaves(c, args, written, d, id, x);
    case Deletes(name, written) => OnListDeletes(c, name, written, d, id, x);
    case Marks(name, indexes, written) => OnListUpdates(c, op, d, TrimSpace(name), KeptIndexes(indexes), true, id, x);
    case Clears(name, indexes, written) => OnListUpdates(c, op, d, TrimSpace(name), KeptIndexes(indexes), false, id, x);
  }

  lemma OnListSaves(c: Catalog, args: SaveArgs, written: bool, d: Catalog, id: string, x: string)
    requires Does(c, Saves(args, written), d)
    ensures OnList(d, id, x) <==> OnList(c, id, x)
  {
    if written && MaySave(c, args) {
      SaveKeepsLists(c, args, d, id, x);
    }
  }

  lemma OnListDeletes(c: Catalog, name: string, written: bool, d: Catalog, id: string, x: string)
    requires CatalogOk(c) && Does(c, Deletes(name, written), d)
    ensures OnList(d, id, x) <==> OnList(c, id, x)
  {
    if written && MayDelete(c, TrimSpace(name)) {
      DeletedHadNone(c, TrimSpace(name));
      DeleteKeepsLists(c, TrimSpace(name), id, x);
    }
  }

  lemma DeleteKeepsLists(c: Catalog, gone: string, id: string, x: string)
    requires gone in c && c[gone].indexes == []
    ensures OnList(c - {gone}, id, x) <==> OnList(c, id, x)
  {
  }

  lemma OnListUpdates(c: Catalog, op: Op, d: Catalog, name: string, given: set<string>, activate: bool, id: string, x: string)
    requires Does(c, op, d) && !op.Saves? && !op.Deletes? && (op.Marks? <==> activate)
    requires TrimSpace(op.name) == name && KeptIndexes(op.indexes) == given
    ensures OnList(d, id, x) <==> MarkDone(c, op, id, x) || (OnList(c, id, x) && !ClearDone(c, op, id, x))
  {
    if op.written && MayUpdate(c, name, given, activate) {
      UpdateChangesList(c, d, name, given, activate, id, x);
    }
  }

  lemma SaveKeepsLists(c: Catalog, args: SaveArgs, d: Catalog, id: string, x: string)
    requires SaveLeaves(c, args, d)
    ensures OnList(d, id, x) <==> OnList(c, id, x)
  {
  }

  lemma DeletedHadNone(c: Catalog, id: string)
    requires CatalogOk(c) && id in c && !c[id].active
    ensures c[id].indexes == []
  {
    assert FieldsOk(id, c[id].mode, c[id].backup, c[id].indexes, c[id].active);
  }

  lemma UpdateChangesList(c: Catalog, d: Catalog, name: string, given: set<string>, activate: bool, id: string, x: string)
    requires Updated(c, d, name, given, activate)
    ensures OnList(d, id, x) <==>
              if id == name && x in given then activate else OnList(c, id, x)
  {
  }

  lemma {:induction false} ListsAreInForce(cs: seq<Catalog>, ops: seq<Op>, id: string, x: string, j: nat)
    requires History(cs, ops) && j < |cs|
    ensures OnList(cs[j], id, x) <==> InForce(cs, ops, id, x, j)
  {
    if j > 0 {
      ListsAreInForce(cs, ops, id, x, j - 1);
      LastsStep(MarkedAt(cs, ops, id, x), ClearedAt(cs, ops, id, x), j - 1);
      HistoryListStep(cs, ops, id, x, j - 1);
    }
  }

  lemma HistoryListStep(cs: seq<Catalog>, ops: seq<Op>, id: string, x: string, j: nat)
    requires History(cs, ops) && j < |ops|
    ensures OnList(cs[j + 1], id, x)
            <==> j in MarkedAt(cs, ops, id, x) || (OnList(cs[j], id, x) && j !in ClearedAt(cs, ops, id, x))
  {
    HistoryOk(cs, ops, j);
    assert Happens(cs, ops, j);
    OnListStep(cs[j], ops[j], cs[j + 1], id, x);
  }

  /** Along every history: a credential is listed under a profile exactly when a mark that went
      through put it there and no clear that went through has taken it out since; a fallback is
      active exactly when there is such a credential. No save changes either. */
  lemma ActiveExactly(cs: seq<Catalog>, ops: seq<Op>, id: string, j: nat)
    requires History(cs, ops) && j < |cs| && id in cs[j]
    ensures forall x :: x in cs[j][id].indexes <==> InForce(cs, ops, id, x, j)
    ensures cs[j][id].active <==> exists x :: InForce(cs, ops, id, x, j)
  {
    ActiveHasList(cs, ops, id, j);
    forall x
      ensures x in cs[j][id].indexes <==> InForce(cs, ops, id, x, j)
    {
      ListsAreInForce(cs, ops, id, x, j);
      assert x in Elements(cs[j][id].indexes) <==> x in cs[j][id].indexes;
    }
    if cs[j][id].indexes != [] {
      assert cs[j][id].indexes[0] in cs[j][id].indexes;
    }
  }

  /** So an active fallback ends only with a clear of its profile that went through. */
  lemma OnlyClearsEnd(cs: seq<Catalog>, ops: seq<Op>, id: string, j: nat)
    requires History(cs, ops) && j < |ops| && id in cs[j] && cs[j][id].active
    requires id !in cs[j + 1] || !cs[j + 1][id].active
    ensures ops[j].Clears? && ops[j].written && TrimSpace(ops[j].name) == id
    ensures Elements(cs[j][id].indexes) <= KeptIndexes(ops[j].indexes)
  {
    ActiveHasList(cs, ops, id, j);
    if id in cs[j + 1] {
      ActiveHasList(cs, ops, id, j + 1);
    }
    forall x | x in Elements(cs[j][id].indexes)
      ensures ClearDone(cs[j], ops[j], id, x)
    {
      assert !OnList(cs[j + 1], id, x);
      HistoryListStep(cs, ops, id, x, j);
    }
    assert cs[j][id].indexes[0] in Elements(cs[j][id].indexes);
  }

  lemma ActiveHasList(cs: seq<Catalog>, ops: seq<Op>, id: string, j: nat)
    requires History(cs, ops) && j < |cs| && id in cs[j]
    ensures cs[j][id].active <==> cs[j][id].indexes != []
  {
    HistoryOk(cs, ops, j);
    assert FieldsOk(id, cs[j][id].mode, cs[j][id].backup, cs[j][id].indexes, cs[j][id].active);
  }
}
