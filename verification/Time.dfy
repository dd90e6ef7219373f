/**
 Clock arithmetic. Instants are nanoseconds counted from 2000-01-01T00:00:00Z, PostgreSQL's
 own epoch, on one clock shared by every process. Durations are Go's signed 64-bit nanosecond
 counts. A `timestamp(0)` column keeps whole seconds and rounds, half away from the epoch.
 */
module Time {

  type Time = int

  const SECOND: int := 1_000_000_000
  const MINUTE: int := 60 * SECOND
  const HOUR: int := 60 * MINUTE

  const MAX_DURATION: int := 0x7FFF_FFFF_FFFF_FFFF
  const MIN_DURATION: int := -0x8000_0000_0000_0000

  type Duration = d: int | MIN_DURATION <= d <= MAX_DURATION witness 0

  /** Go's zero `time.Time`: 0001-01-01T00:00:00Z. */
  const ZERO_TIME: Time := -63_082_281_600 * SECOND

  /** `time.Since`: the difference saturates at the ends of the 64-bit range. */
  function Since(t: Time, now: Time): (d: Duration)
    ensures MIN_DURATION <= now - t <= MAX_DURATION ==> d == now - t
    ensures now - t > MAX_DURATION ==> d == MAX_DURATION
    ensures now - t < MIN_DURATION ==> d == MIN_DURATION
  {
    var d := now - t;
    if d > MAX_DURATION then MAX_DURATION else if d < MIN_DURATION then MIN_DURATION else d
  }

  predicate Whole(t: int) {
    t % SECOND == 0
  }

  /** What a `timestamp(0)` column stores for `t`. */
  function RoundToSecond(t: Time): Time {
    if t >= 0 then (t + SECOND / 2) / SECOND * SECOND
    else -((-t + SECOND / 2) / SECOND * SECOND)
  }

  /** The whole seconds in `d`; equal to `d` when `d` is itself a whole number of seconds. */
  function FloorSecond(d: int): int {
    d / SECOND * SECOND
  }

  function CeilSecond(d: int): int {
    -FloorSecond(-d)
  }

  lemma RoundFacts(t: Time)
    requires 0 <= t
    ensures Whole(RoundToSecond(t))
    ensures t - SECOND / 2 < RoundToSecond(t) <= t + SECOND / 2
    ensures 0 <= RoundToSecond(t)
  {
  }

  lemma RoundMonotone(a: Time, b: Time)
    requires 0 <= a <= b
    ensures RoundToSecond(a) <= RoundToSecond(b)
  {
  }

  /** Rounding a start and its end separately moves their distance by less than a second. */
  lemma RoundShift(born: Time, d: int)
    requires 0 <= born && 0 <= d
    ensures RoundToSecond(born) + FloorSecond(d) <= RoundToSecond(born + d)
    ensures RoundToSecond(born + d) <= RoundToSecond(born) + CeilSecond(d)
  {
    var q, r := d / SECOND, d % SECOND;
    assert d == q * SECOND + r;
    var b := (born + SECOND / 2) / SECOND;
    assert (born + d + SECOND / 2) / SECOND == q + (born + r + SECOND / 2) / SECOND;
    assert b <= (born + r + SECOND / 2) / SECOND <= b + (if r == 0 then 0 else 1);
    assert CeilSecond(d) == q * SECOND + (if r == 0 then 0 else SECOND);
  }

  lemma FloorFacts(d: int)
    ensures Whole(FloorSecond(d)) && Whole(CeilSecond(d))
    ensures FloorSecond(d) <= d < FloorSecond(d) + SECOND
    ensures d <= CeilSecond(d) < d + SECOND
    ensures Whole(d) ==> FloorSecond(d) == d == CeilSecond(d)
  {
    assert Whole(d) ==> Whole(-d);
  }

  lemma FloorMonotone(a: int, b: int)
    requires a <= b
    ensures FloorSecond(a) <= FloorSecond(b)
  {
  }

  lemma RoundPastWhole(made: Time, d: int)
    requires 0 <= made && Whole(made) && 0 <= d
    ensures RoundToSecond(made + d) == made + RoundToSecond(d)
  {
    var q := made / SECOND;
    assert made == q * SECOND;
    assert (made + d + SECOND / 2) / SECOND == q + (d + SECOND / 2) / SECOND;
  }

  lemma RoundWhole(t: Time)
    requires 0 <= t && Whole(t)
    ensures RoundToSecond(t) == t
  {
    RoundPastWhole(t, 0);
  }
}
