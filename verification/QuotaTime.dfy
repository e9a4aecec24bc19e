/** Reset instants: every accepted one lies in the year after `now`, and none of the 64-bit
    duration arithmetic on the way can overflow. */
module QuotaTime {
  import opened Basics
  import opened Backoff
  import opened Domain
  import opened JsonTree

  const SECOND: Duration := 1_000_000_000
  const MAX_RESET_SECONDS: int := 31_536_000  // 365 days
  const MAX_RESET_FUTURE: Time := 31_536_000_000_000_000
  const UNIX_EPOCH: Time := 62_135_596_800_000_000_000  // nanoseconds after Go's zero time

  /** The clock and the text parsers of the standard library. */
  datatype Env = Env(now: Time, float: string -> Option<real>, integer: string -> Option<int>,
                     rfc3339: string -> Option<Time>, httpDate: string -> Option<Time>)

  predicate ValidReset(t: Time, now: Time) {
    now < t <= now + MAX_RESET_FUTURE
  }

  function UnixMilli(t: Time): int {
    (t - UNIX_EPOCH) / 1_000_000
  }

  /** Seconds as a 64-bit duration. The cast is where an overflow would show. */
  function SecondsToDuration(seconds: real): (d: Duration)
    requires 0.0 <= seconds <= MAX_RESET_SECONDS as real
    ensures 0 <= d as int <= MAX_RESET_FUTURE
  {
    var product := seconds * 1_000_000_000.0;
    assert product <= MAX_RESET_SECONDS as real * 1_000_000_000.0;
    product.Floor as Duration
  }

  function FiniteSeconds(env: Env, v: Json): (r: Option<real>)
    ensures r.Some? ==> 0.0 <= r.value <= MAX_RESET_SECONDS as real
  {
    var f := match v
      case Number(text) => env.float(text)
      case Text(text) => env.float(TrimSpace(text))
      case _ => None;
    if f.Some? && 0.0 <= f.value <= MAX_RESET_SECONDS as real then f else None
  }

  /** A count of seconds from now. */
  function AfterSeconds(env: Env, v: Json): (r: Option<Time>)
    ensures r.Some? ==> ValidReset(r.value, env.now)
  {
    var seconds := FiniteSeconds(env, v);
    if seconds.None? then None
    else
      var t := env.now + SecondsToDuration(seconds.value) as int;
      if ValidReset(t, env.now) then Some(t) else None
  }

  /** Large numbers are Unix milliseconds, middling ones Unix seconds, small ones seconds from now. */
  function ParseInteger(env: Env, n: int): (r: Option<Time>)
    ensures r.Some? ==> ValidReset(r.value, env.now)
  {
    if n > 1_000_000_000_000 && n > UnixMilli(env.now + MAX_RESET_FUTURE) then None
    else
      var t := if n > 1_000_000_000_000 then UNIX_EPOCH + n * 1_000_000
               else if n > 1_000_000_000 then UNIX_EPOCH + n * 1_000_000_000
               else if n >= 0 then env.now + (n as Duration * SECOND) as int
               else ZERO_TIME;
      if ValidReset(t, env.now) then Some(t) else None
  }

  function ParseTime(env: Env, text: string): (r: Option<Time>)
    ensures r.Some? ==> ValidReset(r.value, env.now)
  {
    var value := TrimSpace(text);
    if value == "" then None
    else if env.integer(value).Some? then ParseInteger(env, env.integer(value).value)
    else if env.rfc3339(value).Some? && ValidReset(env.rfc3339(value).value, env.now) then env.rfc3339(value)
    else if env.httpDate(value).Some? && ValidReset(env.httpDate(value).value, env.now) then env.httpDate(value)
    else None
  }

  function ParseTimeValue(env: Env, v: Json): (r: Option<Time>)
    ensures r.Some? ==> ValidReset(r.value, env.now)
  {
    match v
    case Text(text) => ParseTime(env, text)
    case Number(text) => ParseTime(env, text)
    case _ => None
  }

  /** The early test on milliseconds refuses nothing that is valid. */
  lemma MillisGuardIsExact(env: Env, n: int)
    requires n > 1_000_000_000_000
    ensures ParseInteger(env, n) ==
              if ValidReset(UNIX_EPOCH + n * 1_000_000, env.now) then Some(UNIX_EPOCH + n * 1_000_000) else None
  {
    var limit := env.now + MAX_RESET_FUTURE - UNIX_EPOCH;
    assert limit == (limit / 1_000_000) * 1_000_000 + limit % 1_000_000;
  }

  /** What a whole number means as a reset: from one second to a year it is a distance from now,
      above 10^9 a point in time in seconds, above 10^12 one in milliseconds. */
  lemma IntegersByMagnitude(env: Env, n: int)
    requires env.now >= ZERO_TIME
    ensures n <= 1_000_000_000 ==>
              ParseInteger(env, n) == if 1 <= n <= MAX_RESET_SECONDS then Some(env.now + n * 1_000_000_000) else None
    ensures 1_000_000_000 < n <= 1_000_000_000_000 && ParseInteger(env, n).Some? ==>
              (ParseInteger(env, n).value - UNIX_EPOCH) == n * 1_000_000_000
    ensures n > 1_000_000_000_000 && ParseInteger(env, n).Some? ==> UnixMilli(ParseInteger(env, n).value) == n
  {
  }

  /** A text that is no whole number is a date: in RFC 3339 form if that gives an instant within
      the year, else in the form of HTTP if that does, else nothing. */
  lemma DatesAreRead(env: Env, text: string)
    requires !Blank(text) && env.integer(TrimSpace(text)).None?
    ensures var rfc, http := env.rfc3339(TrimSpace(text)), env.httpDate(TrimSpace(text));
            && (rfc.Some? && env.now < rfc.value <= env.now + MAX_RESET_FUTURE ==> ParseTime(env, text) == rfc)
            && (ParseTime(env, text).Some? ==> ParseTime(env, text) == rfc || ParseTime(env, text) == http)
            && (http.Some? && env.now < http.value <= env.now + MAX_RESET_FUTURE ==> ParseTime(env, text).Some?)
            && (http.Some? && env.now < http.value <= env.now + MAX_RESET_FUTURE && rfc.None? ==> ParseTime(env, text) == http)
  {
  }

  /** A whole number is read as `ParseInteger` says; a blank text is nothing. */
  lemma NumbersAreRead(env: Env, text: string)
    ensures Blank(text) ==> ParseTime(env, text) == None
    ensures !Blank(text) && env.integer(TrimSpace(text)).Some? ==> ParseTime(env, text) == ParseInteger(env, env.integer(TrimSpace(text)).value)
  {
  }

  /** A number of seconds, whole or not, given as a number or as text, is that distance from
      now, to the nanosecond; up to a year, and not zero. */
  lemma SecondsAreRead(env: Env, v: Json, text: string, seconds: real)
    requires v == Number(text) || v == Text(text)
    requires env.float(if v.Number? then text else TrimSpace(text)) == Some(seconds)
    ensures AfterSeconds(env, v) ==
              if 0.0 <= seconds <= 31_536_000.0 && (seconds * 1_000_000_000.0).Floor > 0
              then Some(env.now + (seconds * 1_000_000_000.0).Floor) else None
  {
    if 0.0 <= seconds <= MAX_RESET_SECONDS as real {
      assert SecondsToDuration(seconds) as int == (seconds * 1_000_000_000.0).Floor;
    }
  }
}
