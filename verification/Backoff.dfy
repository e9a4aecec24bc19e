/** The two retry delays. Both are loops over 64-bit durations that must not overflow. */
module Backoff {
  import opened Basics

  newtype Duration = x: int | -0x8000_0000_0000_0000 <= x < 0x8000_0000_0000_0000

  const MAX_LEVEL: int := 32
  const DEFAULT_INITIAL: Duration := 900_000_000_000  // 15 minutes in nanoseconds

  function Pow2(n: nat): (p: nat)
    ensures p >= 1
  {
    if n == 0 then 1 else 2 * Pow2(n - 1)
  }

  /** `initial` doubled `steps` times. */
  function Doubled(initial: int, steps: nat): int {
    if steps == 0 then initial else 2 * Doubled(initial, steps - 1)
  }

  lemma {:induction false} DoubledIsPower(initial: int, steps: nat)
    ensures Doubled(initial, steps) == initial * Pow2(steps)
  {
    if steps > 0 {
      DoubledIsPower(initial, steps - 1);
      var p := Pow2(steps - 1);
      assert initial * (2 * p) == 2 * (initial * p);
    }
  }

  /** Doubling from `initial`, cut at `maximum`: what both loops are meant to compute. */
  function Doubling(initial: int, maximum: int, steps: nat): int {
    Min(maximum, Doubled(initial, steps))
  }

  lemma {:induction false} DoubledMonotone(initial: int, a: nat, b: nat)
    requires 0 < initial && a <= b
    ensures initial <= Doubled(initial, a) <= Doubled(initial, b)
    decreases b
  {
    if a < b {
      DoubledMonotone(initial, a, b - 1);
    } else if a > 0 {
      DoubledMonotone(initial, a - 1, a - 1);
    }
  }

  /** The level the recovery loop really uses. */
  function ClampLevel(level: int): (l: int)
    ensures 1 <= l <= MAX_LEVEL
  {
    if level < 1 then 1 else if level > MAX_LEVEL then MAX_LEVEL else level
  }

  function EffectiveInitial(initial: Duration): (r: Duration)
    ensures r > 0
  {
    if initial <= 0 then DEFAULT_INITIAL else initial
  }

  function EffectiveMaximum(initial: Duration, maximum: Duration): (r: Duration)
    ensures r >= EffectiveInitial(initial)
  {
    if maximum <= 0 || maximum < EffectiveInitial(initial) then EffectiveInitial(initial) else maximum
  }

  /** Closed form of the recovery delay for a level. */
  function RecoveryDelay(initial: Duration, maximum: Duration, level: int): (d: int)
    ensures 0 < d
  {
    var init := EffectiveInitial(initial) as int;
    DoubledMonotone(init, 0, ClampLevel(level) - 1);
    Doubling(init, EffectiveMaximum(initial, maximum) as int, ClampLevel(level) - 1)
  }

  method BackoffForLevel(configInitial: Duration, configMaximum: Duration, configLevel: int)
    returns (delay: Duration)
    ensures delay as int == RecoveryDelay(configInitial, configMaximum, configLevel)
    ensures 0 < delay <= EffectiveMaximum(configInitial, configMaximum)
  {
    var level := configLevel;
    if level < 1 {
      level := 1;
    }
    if level > MAX_LEVEL {
      level := MAX_LEVEL;
    }
    var initial := configInitial;
    if initial <= 0 {
      initial := DEFAULT_INITIAL;
    }
    var maximum := configMaximum;
    if maximum <= 0 || maximum < initial {
      maximum := initial;
    }
    delay := initial;
    var i := 1;
    while i < level
      invariant 1 <= i <= level
      invariant initial <= delay
      invariant delay as int == Doubled(initial as int, i - 1)
    {
      if delay >= maximum {
        DoubledMonotone(initial as int, i - 1, level - 1);
        return maximum;
      }
      if delay > maximum / 2 {
        DoubledMonotone(initial as int, i, level - 1);
        return maximum;
      }
      delay := delay * 2;
      i := i + 1;
    }
    if delay > maximum {
      return maximum;
    }
  }

  /** Closed form of the wake-up delay. The loop compares with `>= maximum/2`, so it jumps
      to the maximum one nanosecond early when the doubled delay is exactly `maximum - 1`. */
  function WakeDelay(initial: int, maximum: int, attempt: int): int {
    var steps := if attempt < 1 then 0 else attempt - 1;
    if steps > 0 && Doubled(initial, steps) == maximum - 1 then maximum
    else Doubling(initial, maximum, steps)
  }

  method WakeBackoff(initial: Duration, maximum: Duration, attemptCount: int) returns (delay: Duration)
    requires 0 < initial <= maximum  // NewWithClock establishes this
    ensures delay as int == WakeDelay(initial as int, maximum as int, attemptCount)
  {
    var attempt := attemptCount;
    if attempt < 1 {
      attempt := 1;
    }
    delay := initial;
    var i := 1;
    while i < attempt
      invariant 1 <= i <= attempt
      invariant initial <= delay
      invariant delay as int == Doubled(initial as int, i - 1)
      invariant i > 1 ==> delay < maximum - 1
    {
      if delay >= maximum / 2 {
        DoubledMonotone(initial as int, i, attempt - 1);
        return maximum;
      }
      delay := delay * 2;
      i := i + 1;
    }
    if delay > maximum {
      return maximum;
    }
  }

  /** Never above the maximum, never more than one nanosecond from plain doubling, and
      never shorter for a later attempt. */
  lemma {:induction false} WakeDelayBounds(initial: int, maximum: int, attempt: int, later: int)
    requires 0 < initial <= maximum && attempt <= later
    ensures 0 < WakeDelay(initial, maximum, attempt) <= maximum
    ensures var exact := Doubling(initial, maximum, if attempt < 1 then 0 else attempt - 1);
            exact <= WakeDelay(initial, maximum, attempt) <= exact + 1
    ensures WakeDelay(initial, maximum, attempt) <= WakeDelay(initial, maximum, later)
  {
    var a := if attempt < 1 then 0 else attempt - 1;
    var b := if later < 1 then 0 else later - 1;
    DoubledMonotone(initial, 0, a);
    DoubledMonotone(initial, a, b);
    if 0 < a < b {
      DoubledMonotone(initial, a + 1, b);
    }
  }

  /** The delay of the recovery loop never shrinks as failures accumulate. */
  lemma RecoveryDelayMonotone(initial: Duration, maximum: Duration, level: int, later: int)
    requires level <= later
    ensures RecoveryDelay(initial, maximum, level) <= RecoveryDelay(initial, maximum, later)
  {
    DoubledMonotone(EffectiveInitial(initial) as int, ClampLevel(level) - 1, ClampLevel(later) - 1);
  }
}
