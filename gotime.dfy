/**
 * The parts of Go's time package that machine.go uses: instants, 64-bit
 * nanosecond durations, `Time.Add`, `Time.Sub` and `time.Until`.
 */
module GoTime {

  const MinInt64: int := -0x8000_0000_0000_0000
  const MaxInt64: int := 0x7FFF_FFFF_FFFF_FFFF
  const TwoTo64: int := 0x1_0000_0000_0000_0000

  /** `time.Duration`: a signed 64-bit count of nanoseconds. */
  type Duration = d: int | MinInt64 <= d <= MaxInt64

  /** `time.Second`. */
  const Second: Duration := 1_000_000_000

  /** `time.Time`: an instant, as nanoseconds since January 1, year 1, 00:00:00
      UTC (Go's zero time), with the UTC offset of its zone in seconds. The
      offset only matters for display; comparisons and differences use the
      instant. */
  datatype Time = Time(nanos: int, offset: int)

  /** The zero value of `time.Time`. */
  const ZeroTime: Time := Time(0, 0)

  /** Two's-complement wrap-around of an integer into 64 bits. */
  function Wrap64(x: int): (d: Duration)
    ensures (x - d) % TwoTo64 == 0
    ensures MinInt64 <= x <= MaxInt64 ==> d == x
  {
    var r := (x - MinInt64) % TwoTo64;
    assert x - (r + MinInt64) == ((x - MinInt64) / TwoTo64) * TwoTo64;
    r + MinInt64
  }

  /** `a * b` on two durations, which wraps around on overflow. */
  function Mul(a: Duration, b: Duration): (d: Duration)
    ensures (a * b - d) % TwoTo64 == 0
    ensures MinInt64 <= a * b <= MaxInt64 ==> d == a * b
  {
    Wrap64(a * b)
  }

  /** `t.Add(d)`: the instant moves by `d`, the zone stays; `Sub` measures the
      step back. */
  function Add(t: Time, d: Duration): (u: Time)
    ensures Sub(u, t) == d && u.offset == t.offset
  {
    Time(t.nanos + d, t.offset)
  }

  /** `t.Sub(u)`: the duration from `u` to `t`, saturated to the smallest or
      largest duration when it does not fit in 64 bits. */
  function Sub(t: Time, u: Time): (d: Duration)
    ensures MinInt64 <= t.nanos - u.nanos <= MaxInt64 ==> d == t.nanos - u.nanos
    ensures t.nanos - u.nanos < MinInt64 ==> d == MinInt64
    ensures t.nanos - u.nanos > MaxInt64 ==> d == MaxInt64
    ensures (d < 0) == (t.nanos < u.nanos) && (d == 0) == (t.nanos == u.nanos)
  {
    var diff := t.nanos - u.nanos;
    if diff < MinInt64 then MinInt64
    else if diff > MaxInt64 then MaxInt64
    else diff
  }

  /** `time.Until(t)` with the wall clock given as `now`: `t.Sub(now)`. A time
      produced by `time.Parse` carries no monotonic reading, so the wall clocks
      are compared. */
  function Until(t: Time, now: Time): (d: Duration)
    ensures MinInt64 <= t.nanos - now.nanos <= MaxInt64 ==> Add(now, d) == Time(t.nanos, now.offset)
    ensures d < 0 <==> t.nanos < now.nanos
    ensures d == 0 <==> t.nanos == now.nanos
  {
    Sub(t, now)
  }
}
