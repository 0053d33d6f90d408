/**
 The moving average of processing times, computed in floating point. The rounding is any function with
 the relative error of double precision; no value here is so small or so large that more could be lost.
 */
module MovingAverage {
  import opened Naturals
  import Decimal

  /** Half a unit in the last place of a double, 2^-53. */
  const HALF_ULP: real := 0.00000000000000011102230246251565404236316680908203125

  ghost predicate Rounds(rnd: real -> real) {
    forall x: real :: x >= 0.0 ==> x * (1.0 - HALF_ULP) <= rnd(x) <= x * (1.0 + HALF_ULP)
  }

  /** A weight times a rounded number, rounded. */
  function Term(weight: real, n: nat, rnd: real -> real): real {
    rnd(weight * rnd(n as real))
  }

  /** A tenth of the newest time and nine tenths of the average, every operation rounded. */
  function Weighted(average: nat, time: nat, rnd: real -> real): real {
    var alpha := rnd(0.1);
    rnd(Term(alpha, time, rnd) + Term(rnd(1.0 - alpha), average, rnd))
  }

  /** The conversion to a 64-bit integer, which saturates. */
  function Truncated(x: real): nat {
    if x < 0.0 then 0 else Min(x.Floor, Decimal.U64_MAX)
  }

  function Smoothed(average: nat, time: nat, rnd: real -> real): nat {
    if average == 0 then time else Truncated(Weighted(average, time, rnd))
  }

  function AverageOf(times: seq<nat>, rnd: real -> real): nat {
    if times == [] then 0 else Smoothed(AverageOf(times[..|times| - 1], rnd), times[|times| - 1], rnd)
  }

  // ---------------------------------------------------------------------------------------------
  // How far rounding can carry the average
  // ---------------------------------------------------------------------------------------------

  lemma ProductBetween(x: real, lo: real, hi: real, y: real, ylo: real, yhi: real)
    requires 0.0 <= lo <= x <= hi && 0.0 <= ylo <= y <= yhi
    ensures lo * ylo <= x * y <= hi * yhi
  {
    assert lo * ylo <= lo * y <= x * y;
    assert x * y <= x * yhi <= hi * yhi;
  }

  lemma WeightsAreClose(rnd: real -> real)
    requires Rounds(rnd)
    ensures 0.1 * (1.0 - HALF_ULP) <= rnd(0.1) <= 0.1 * (1.0 + HALF_ULP)
    ensures 0.9 * (1.0 - 2.0 * HALF_ULP) <= rnd(1.0 - rnd(0.1)) <= 0.9 * (1.0 + 2.0 * HALF_ULP)
  {
  }

  lemma NewTermIsClose(time: nat, rnd: real -> real)
    requires Rounds(rnd)
    ensures 0.1 * time as real * (1.0 - 4.0 * HALF_ULP) <= Term(rnd(0.1), time, rnd)
    ensures Term(rnd(0.1), time, rnd) <= 0.1 * time as real * (1.0 + 4.0 * HALF_ULP)
  {
    WeightsAreClose(rnd);
    var x := time as real;
    ProductBetween(rnd(0.1), 0.1 * (1.0 - HALF_ULP), 0.1 * (1.0 + HALF_ULP),
                   rnd(x), x * (1.0 - HALF_ULP), x * (1.0 + HALF_ULP));
  }

  lemma OldTermIsClose(average: nat, rnd: real -> real)
    requires Rounds(rnd)
    ensures 0.9 * average as real * (1.0 - 5.0 * HALF_ULP) <= Term(rnd(1.0 - rnd(0.1)), average, rnd)
    ensures Term(rnd(1.0 - rnd(0.1)), average, rnd) <= 0.9 * average as real * (1.0 + 5.0 * HALF_ULP)
  {
    WeightsAreClose(rnd);
    var x := average as real;
    ProductBetween(rnd(1.0 - rnd(0.1)), 0.9 * (1.0 - 2.0 * HALF_ULP), 0.9 * (1.0 + 2.0 * HALF_ULP),
                   rnd(x), x * (1.0 - HALF_ULP), x * (1.0 + HALF_ULP));
  }

  /** The relative error of the whole expression. */
  const DRIFT: real := 0.000000000000001

  lemma SumIsClose(p: real, q: real, x: real, y: real, rnd: real -> real)
    requires Rounds(rnd) && x >= 0.0 && y >= 0.0
    requires x * (1.0 - 4.0 * HALF_ULP) <= p <= x * (1.0 + 4.0 * HALF_ULP)
    requires y * (1.0 - 5.0 * HALF_ULP) <= q <= y * (1.0 + 5.0 * HALF_ULP)
    ensures (x + y) * (1.0 - DRIFT) <= rnd(p + q) <= (x + y) * (1.0 + DRIFT)
  {
  }

  lemma WeightedIsClose(average: nat, time: nat, rnd: real -> real)
    requires Rounds(rnd)
    ensures var exact := 0.1 * time as real + 0.9 * average as real;
            exact * (1.0 - DRIFT) <= Weighted(average, time, rnd) <= exact * (1.0 + DRIFT)
  {
    NewTermIsClose(time, rnd);
    OldTermIsClose(average, rnd);
    SumIsClose(Term(rnd(0.1), time, rnd), Term(rnd(1.0 - rnd(0.1)), average, rnd),
               0.1 * time as real, 0.9 * average as real, rnd);
  }

  /** The first time is the average; later ones move it a tenth of the way, rounded down to whole nanoseconds. */
  lemma SmoothedIsClose(average: nat, time: nat, rnd: real -> real)
    requires Rounds(rnd)
    ensures var next := Smoothed(average, time, rnd);
            var exact := 0.1 * time as real + 0.9 * average as real;
            if average == 0 then next == time
            else
              && next as real <= exact * (1.0 + DRIFT) && next <= Decimal.U64_MAX
              && (exact * (1.0 - DRIFT) < next as real + 1.0 || next == Decimal.U64_MAX)
  {
    WeightedIsClose(average, time, rnd);
  }

  /** The average stays within two parts in 10^14 and ten nanoseconds of the times. */
  const SLACK: real := 0.00000000000002

  predicate Between(average: nat, low: nat, high: nat) {
    && average as real <= high as real * (1.0 + SLACK)
    && (average as real >= low as real * (1.0 - SLACK) - 10.0 || average >= Decimal.U64_MAX)
  }

  lemma StaysBelow(average: nat, time: nat, high: nat, rnd: real -> real)
    requires Rounds(rnd) && time <= high && average as real <= high as real * (1.0 + SLACK)
    ensures Smoothed(average, time, rnd) as real <= high as real * (1.0 + SLACK)
  {
    WeightedIsClose(average, time, rnd);
  }

  lemma StaysAbove(average: nat, time: nat, low: nat, rnd: real -> real)
    requires Rounds(rnd) && low <= time
    requires average as real >= low as real * (1.0 - SLACK) - 10.0 || average >= Decimal.U64_MAX
    ensures var next := Smoothed(average, time, rnd);
            next as real >= low as real * (1.0 - SLACK) - 10.0 || next >= Decimal.U64_MAX
  {
    WeightedIsClose(average, time, rnd);
  }

  /**
   Whatever the rounding: after any processing times between `low` and `high`, the average is between
   them too, up to two parts in 10^14 and ten nanoseconds, or has reached the largest 64-bit number.
   */
  lemma {:induction false} AverageIsBetween(times: seq<nat>, low: nat, high: nat, rnd: real -> real)
    requires Rounds(rnd) && times != [] && forall i :: 0 <= i < |times| ==> low <= times[i] <= high
    ensures Between(AverageOf(times, rnd), low, high)
  {
    var front, last := times[..|times| - 1], times[|times| - 1];
    if front == [] {
      assert AverageOf(times, rnd) == last;
    } else {
      AverageIsBetween(front, low, high, rnd);
      StaysBelow(AverageOf(front, rnd), last, high, rnd);
      StaysAbove(AverageOf(front, rnd), last, low, rnd);
    }
  }
}
