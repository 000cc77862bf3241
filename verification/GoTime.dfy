/** Go's `time.Time` and `time.Duration`, in integer nanoseconds.

    An instant is an unbounded integer; the zero `time.Time` is modelled by `Option.None`
    wherever the program tests for it. A duration is a 64-bit integer: products of
    durations wrap, differences of instants saturate. */
module GoTime {

  type Time = int

  const MAX_INT64: int := 0x7fff_ffff_ffff_ffff
  const MIN_INT64: int := -0x8000_0000_0000_0000
  const TWO_TO_64: int := 0x1_0000_0000_0000_0000

  type Int64 = x: int | MIN_INT64 <= x <= MAX_INT64

  type Duration = Int64

  const SECOND: Duration := 1_000_000_000

  /** Two's complement: what a 64-bit multiplication leaves of an unbounded product. */
  function Wrap(x: int): (r: Int64)
    ensures (r - x) % TWO_TO_64 == 0
    ensures MIN_INT64 <= x <= MAX_INT64 ==> r == x
  {
    (x - MIN_INT64) % TWO_TO_64 + MIN_INT64
  }

  /** `a.Sub(b)`: the exact difference, clamped to what a Duration can hold. */
  function Sub(a: Time, b: Time): (d: Duration)
    ensures MIN_INT64 <= a - b <= MAX_INT64 ==> d == a - b
    ensures a - b > MAX_INT64 ==> d == MAX_INT64
    ensures a - b < MIN_INT64 ==> d == MIN_INT64
  {
    if a - b > MAX_INT64 then MAX_INT64 else if a - b < MIN_INT64 then MIN_INT64 else a - b
  }

  /** Clamping never changes a comparison with a positive timeout. */
  lemma SubBelow(a: Time, b: Time, timeout: Duration)
    requires timeout > 0
    ensures Sub(a, b) < timeout <==> a - b < timeout
  {
  }

  /** Integer division as Go does it: the quotient is truncated toward zero. */
  function TruncDiv(a: int, b: int): (q: int)
    requires b > 0
    ensures a >= 0 ==> q == a / b
    ensures a < 0 ==> q == -((-a) / b)
  {
    if a >= 0 then a / b else -((-a) / b)
  }
}
