/** retry.go: the retry budget, the wait schedule and its jitter, in int64 nanoseconds. */
module Retry {

  const MAX_INT64: int := 0x7fff_ffff_ffff_ffff
  const TWO_TO_64: int := 0x1_0000_0000_0000_0000

  newtype int64 = x: int | -0x8000_0000_0000_0000 <= x <= 0x7fff_ffff_ffff_ffff

  const MAX_ATTEMPTS: nat := 9

  const SECOND: int64 := 1_000_000_000

  const PRODUCTION_SCHEDULE: seq<int64> := [
    SECOND, 5 * SECOND, 30 * SECOND, 300 * SECOND,
    1800 * SECOND, 7200 * SECOND, 28800 * SECOND, 86400 * SECOND]

  /** The two's-complement value an int64 operation leaves for the exact result x. */
  function Wrap(x: int): (r: int64) {
    var m := x % TWO_TO_64;
    if m > MAX_INT64 then (m - TWO_TO_64) as int64 else m as int64
  }

  /** Go's truncating division. */
  function Quot(x: int64, y: int64): int64
    requires y > 0
  {
    if x >= 0 then x / y else -(-(x as int) / y as int) as int64
  }

  function Span(base: int64): int64 {
    Quot(Wrap(base as int * 30), 100)
  }

  /** draw is the value rand.Int63n(span) returned. */
  predicate Drawn(base: int64, draw: int64) {
    base > 0 && Span(base) > 0 ==> 0 <= draw < Span(base)
  }

  function ApplyJitter(base: int64, draw: int64): int64
    requires Drawn(base, draw)
  {
    if base <= 0 then 0
    else if Span(base) <= 0 then base
    else Wrap(base as int + (draw as int - Quot(Span(base), 2) as int))
  }

  /** Wrap-around of base*30 only ever shortens the jitter span, and near the
      top of the int64 range it makes the span non-positive. */
  lemma SpanFitsBase(base: int64)
    requires base > 0 && Span(base) > 0
    ensures 10 * Span(base) as int <= 3 * base as int
    ensures base as int + Span(base) as int / 2 <= MAX_INT64
  {
    var b := base as int;
    var w := Wrap(b * 30) as int;
    var k := b * 30 / TWO_TO_64;
    assert w == b * 30 - k * TWO_TO_64 || w == b * 30 - (k + 1) * TWO_TO_64;
    assert Span(base) as int == w / 100;
  }

  /** The jittered wait is within 15 percent of base for every positive int64
      base and every draw: base*30 may wrap around, the sum never does. */
  lemma JitterWithin15Percent(base: int64, draw: int64)
    requires base > 0 && Drawn(base, draw)
    ensures 100 * (ApplyJitter(base, draw) as int - base as int) <= 15 * base as int
    ensures 100 * (base as int - ApplyJitter(base, draw) as int) <= 15 * base as int
    ensures ApplyJitter(base, draw) > 0
  {
    if Span(base) > 0 {
      SpanFitsBase(base);
      var d := draw as int - Span(base) as int / 2;
      assert ApplyJitter(base, draw) as int == base as int + d;
    }
  }

  predicate DrawnFor(schedule: seq<int64>, n: int, draw: int64) {
    2 <= n <= |schedule| + 1 ==> Drawn(schedule[n-2], draw)
  }

  /** The wait before attempt n, counted from 1, under the active schedule. */
  function Delay(schedule: seq<int64>, n: int, draw: int64): int64
    requires DrawnFor(schedule, n, draw)
  {
    if n < 2 || n > MAX_ATTEMPTS then 0
    else if n - 2 >= |schedule| then 0
    else ApplyJitter(schedule[n-2], draw)
  }

  lemma DelayPositiveExactlyInBudget(n: int, draw: int64)
    requires DrawnFor(PRODUCTION_SCHEDULE, n, draw)
    ensures Delay(PRODUCTION_SCHEDULE, n, draw) > 0 <==> 2 <= n <= MAX_ATTEMPTS
  {
    if 2 <= n <= MAX_ATTEMPTS {
      JitterWithin15Percent(PRODUCTION_SCHEDULE[n-2], draw);
    }
  }

  /** Every wait is positive and exceeds 115/85 times the one before it. */
  predicate WellSpaced(schedule: seq<int64>) {
    && (forall i :: 0 <= i < |schedule| ==> schedule[i] > 0)
    && forall i, j :: 0 <= i < j < |schedule| ==> 115 * schedule[i] as int < 85 * schedule[j] as int
  }

  /** Under a well-spaced schedule a later retry waits longer than an earlier
      one whatever the two draws are: the ranges of Delay are disjoint. */
  lemma DelaysIncrease(schedule: seq<int64>, m: int, n: int, drawM: int64, drawN: int64)
    requires WellSpaced(schedule) && 2 <= m < n <= MAX_ATTEMPTS && n - 2 < |schedule|
    requires DrawnFor(schedule, m, drawM) && DrawnFor(schedule, n, drawN)
    ensures Delay(schedule, m, drawM) < Delay(schedule, n, drawN)
  {
    JitterWithin15Percent(schedule[m-2], drawM);
    JitterWithin15Percent(schedule[n-2], drawN);
  }

  lemma ProductionScheduleFitsBudget()
    ensures WellSpaced(PRODUCTION_SCHEDULE)
    ensures |PRODUCTION_SCHEDULE| + 1 == MAX_ATTEMPTS
  {
  }
}
