/** Decoded JSON with numbers kept as text, paths into it, and typed field access. */
module JsonTree {
  import opened Basics

  datatype Json =
    | Null
    | Bool(b: bool)
    | Number(text: string)
    | Text(text: string)
    | Arr(items: seq<Json>)
    | Obj(fields: map<string, Json>)

  datatype Step = Key(k: string) | Index(i: nat)

  type Path = seq<Step>

  function Child(v: Json, s: Step): Option<Json> {
    match (v, s)
    case (Obj(fields), Key(k)) => if k in fields then Some(fields[k]) else None
    case (Arr(items), Index(i)) => if i < |items| then Some(items[i]) else None
    case _ => None
  }

  /** The node a path leads to. */
  function At(v: Json, p: Path): Option<Json>
    decreases |p|
  {
    if p == [] then Some(v)
    else
      var up := At(v, p[..|p| - 1]);
      if up.None? then None else Child(up.value, p[|p| - 1])
  }

  predicate ObjectAt(v: Json, p: Path) {
    At(v, p).Some? && At(v, p).value.Obj?
  }

  lemma AtChild(v: Json, p: Path, s: Step)
    ensures At(v, p + [s]) == if At(v, p).None? then None else Child(At(v, p).value, s)
  {
    assert (p + [s])[..|p|] == p;
  }

  /** Every prefix of a path that leads somewhere leads somewhere. */
  lemma {:induction false} PrefixExists(v: Json, p: Path, k: nat)
    requires k <= |p| && At(v, p).Some?
    ensures At(v, p[..k]).Some?
    decreases |p| - k
  {
    if k < |p| {
      PrefixExists(v, p, k + 1);
      assert p[..k + 1][..k] == p[..k];
    } else {
      assert p[..k] == p;
    }
  }

  // ---------------------------------------------------------------- the dotted text of a path

  function Decimal(n: nat): string {
    var digit := [('0' as int + n % 10) as char];
    if n < 10 then digit else Decimal(n / 10) + digit
  }

  function Extend(text: string, s: Step): string {
    match s
    case Key(k) => if text == "" then k else text + "." + k
    case Index(i) => text + "." + Decimal(i)
  }

  function PathText(p: Path): string
    decreases |p|
  {
    if p == [] then "" else Extend(PathText(p[..|p| - 1]), p[|p| - 1])
  }

  lemma PathTextExtend(p: Path, s: Step)
    ensures PathText(p + [s]) == Extend(PathText(p), s)
  {
    assert (p + [s])[..|p|] == p;
  }

  predicate HasSuffix(s: string, suffix: string) {
    |suffix| <= |s| && s[|s| - |suffix|..] == suffix
  }

  predicate HasPrefix(s: string, prefix: string) {
    prefix <= s
  }

  predicate Contains(s: string, part: string) {
    |part| <= |s| && (s[..|part|] == part || (s != "" && Contains(s[1..], part)))
  }

  function TrimSuffix(s: string, suffix: string): string {
    if HasSuffix(s, suffix) then s[..|s| - |suffix|] else s
  }

  function LastSegment(s: string): string {
    if s == "" || s[|s| - 1] == '.' then "" else LastSegment(s[..|s| - 1]) + [s[|s| - 1]]
  }

  function FamilyName(path: string): string {
    var family := TrimSuffix(TrimSuffix(LastSegment(path), "_window"), "Window");
    if path == "" || family == "" then "quota" else family
  }

  predicate IsCandidate(path: string) {
    var lower := ToLower(path);
    Contains(lower, "window") || HasSuffix(lower, "rate_limit") || HasSuffix(lower, "rate_limits")
  }

  // ---------------------------------------------------------------- typed fields

  function ParseBool(s: string): Option<bool> {
    if s == "1" || s == "t" || s == "T" || s == "TRUE" || s == "true" || s == "True" then Some(true)
    else if s == "0" || s == "f" || s == "F" || s == "FALSE" || s == "false" || s == "False" then Some(false)
    else None
  }

  function ToBool(v: Json): Option<bool> {
    match v
    case Bool(b) => Some(b)
    case Text(text) => ParseBool(TrimSpace(text))
    case _ => None
  }

  /** The first key that is present decides, even when its value is not a truth value. */
  function BoolField(m: map<string, Json>, keys: seq<string>): Option<bool> {
    if keys == [] then None
    else if keys[0] in m then ToBool(m[keys[0]])
    else BoolField(m, keys[1..])
  }

  const LimitKeys: seq<string> := ["limit_reached", "limitReached", "exhausted"]
  const AllowedKeys: seq<string> := ["allowed"]

  predicate SaysLimit(m: map<string, Json>) {
    BoolField(m, LimitKeys) == Some(true)
  }

  predicate SaysDenied(m: map<string, Json>) {
    BoolField(m, AllowedKeys) == Some(false)
  }

  // ---------------------------------------------------------------- flags along a path

  datatype Flag = LimitReached | Denied

  predicate Says(m: map<string, Json>, f: Flag) {
    if f.LimitReached? then SaysLimit(m) else SaysDenied(m)
  }

  predicate PrefixSays(root: Json, p: Path, k: nat, f: Flag) {
    k <= |p| && ObjectAt(root, p[..k]) && Says(At(root, p[..k]).value.fields, f)
  }

  /** Some object on the path, its end included, says the limit is reached (or: not allowed). */
  ghost predicate OnPath(root: Json, p: Path, f: Flag) {
    exists k: nat :: PrefixSays(root, p, k, f)
  }

  /** The same for the objects strictly above the end of the path. */
  ghost predicate Above(root: Json, p: Path, f: Flag) {
    exists k: nat :: k < |p| && PrefixSays(root, p, k, f)
  }

  lemma OnPathIsAboveOrHere(root: Json, p: Path, f: Flag)
    requires At(root, p).Some?
    ensures OnPath(root, p, f) <==> Above(root, p, f) || (At(root, p).value.Obj? && Says(At(root, p).value.fields, f))
  {
    assert p[..|p|] == p;
    assert PrefixSays(root, p, |p|, f) <==> (At(root, p).value.Obj? && Says(At(root, p).value.fields, f));
  }

  lemma AboveChild(root: Json, p: Path, s: Step, f: Flag)
    ensures Above(root, p + [s], f) <==> OnPath(root, p, f)
  {
    forall k: nat | k <= |p|
      ensures PrefixSays(root, p + [s], k, f) == PrefixSays(root, p, k, f)
    {
      assert (p + [s])[..k] == p[..k];
    }
  }
}
