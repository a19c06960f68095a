/**
 * Technical indicators over a series of closing prices (oldest first):
 * the seeded exponential moving average, the relative strength index over
 * the last `period` differences, and the MACD line with its signal line.
 * Prices are exact reals.
 */
module Indicators {

  /** Smoothing factor of an EMA over `period` samples. */
  function Alpha(period: nat): real {
    2.0 / (period as real + 1.0)
  }

  lemma AlphaInUnitInterval(period: nat)
    requires period >= 1
    ensures 0.0 < Alpha(period) <= 1.0
  {
  }

  // ---------------------------------------------------------------- EMA

  /** One EMA step: the new value weighted by `k`, the previous average by `1 - k`. */
  function EmaStep(value: real, prevAvg: real, k: real): real {
    value * k + prevAvg * (1.0 - k)
  }

  /**
   * The EMA series with smoothing factor `k`: seeded with the first value,
   * then each element mixes the new value with the previous average.
   */
  function EmaOf(values: seq<real>, k: real): (r: seq<real>)
    requires |values| >= 1
    ensures |r| == |values|
    decreases |values|
  {
    if |values| == 1 then [values[0]]
    else
      var prev := EmaOf(values[..|values| - 1], k);
      prev + [EmaStep(values[|values| - 1], prev[|values| - 2], k)]
  }

  /** The seed and the recurrence that every element of the EMA satisfies. */
  lemma {:induction false} EmaRecurrence(values: seq<real>, k: real)
    requires |values| >= 1
    ensures EmaOf(values, k)[0] == values[0]
    ensures forall i :: 1 <= i < |values| ==>
      EmaOf(values, k)[i] == EmaStep(values[i], EmaOf(values, k)[i - 1], k)
  {
    if |values| > 1 {
      var init := values[..|values| - 1];
      EmaRecurrence(init, k);
      var prev := EmaOf(init, k);
      var r := EmaOf(values, k);
      assert r == prev + [EmaStep(values[|values| - 1], prev[|values| - 2], k)];
      forall i | 1 <= i < |values|
        ensures r[i] == EmaStep(values[i], r[i - 1], k)
      {
        if i < |values| - 1 {
          assert init[i] == values[i];
          assert r[i] == prev[i] && r[i - 1] == prev[i - 1];
        }
      }
    }
  }

  /** The EMA is causal: its first `j` elements depend only on the first `j` values. */
  lemma {:induction false} EmaPrefix(values: seq<real>, k: real, j: nat)
    requires 1 <= j <= |values|
    ensures EmaOf(values[..j], k) == EmaOf(values, k)[..j]
  {
    if j < |values| {
      var init := values[..|values| - 1];
      assert values[..j] == init[..j];
      EmaPrefix(init, k, j);
    } else {
      assert values[..j] == values;
    }
  }

  lemma MulNonNegative(a: real, b: real)
    requires a >= 0.0 && b >= 0.0
    ensures a * b >= 0.0
  {
  }

  /** An EMA step between two values of an interval, with `k` in [0, 1], stays in the interval. */
  lemma StepBetween(x: real, y: real, k: real, lo: real, hi: real)
    requires lo <= x <= hi && lo <= y <= hi && 0.0 <= k <= 1.0
    ensures lo <= EmaStep(x, y, k) <= hi
  {
    MulNonNegative(x - lo, k);
    MulNonNegative(y - lo, 1.0 - k);
    MulNonNegative(hi - x, k);
    MulNonNegative(hi - y, 1.0 - k);
    assert EmaStep(x, y, k) - lo == (x - lo) * k + (y - lo) * (1.0 - k);
    assert hi - EmaStep(x, y, k) == (hi - x) * k + (hi - y) * (1.0 - k);
  }

  /** For a smoothing factor in [0, 1] the EMA never leaves the range of the values. */
  lemma {:induction false} EmaBounds(values: seq<real>, k: real, lo: real, hi: real)
    requires |values| >= 1 && 0.0 <= k <= 1.0
    requires forall i :: 0 <= i < |values| ==> lo <= values[i] <= hi
    ensures forall i :: 0 <= i < |values| ==> lo <= EmaOf(values, k)[i] <= hi
  {
    if |values| > 1 {
      var init := values[..|values| - 1];
      EmaBounds(init, k, lo, hi);
      var prev := EmaOf(init, k);
      StepBetween(values[|values| - 1], prev[|values| - 2], k, lo, hi);
      assert EmaOf(values, k) == prev + [EmaStep(values[|values| - 1], prev[|values| - 2], k)];
    }
  }

  /** The EMA of a constant series is that constant everywhere. */
  lemma {:induction false} EmaConstant(values: seq<real>, k: real, c: real)
    requires |values| >= 1
    requires forall i :: 0 <= i < |values| ==> values[i] == c
    ensures forall i :: 0 <= i < |values| ==> EmaOf(values, k)[i] == c
  {
    if |values| > 1 {
      var init := values[..|values| - 1];
      EmaConstant(init, k, c);
      var prev := EmaOf(init, k);
      assert EmaStep(c, c, k) == c * (k + (1.0 - k));
      assert EmaOf(values, k) == prev + [EmaStep(values[|values| - 1], prev[|values| - 2], k)];
    }
  }

  /** The EMA as the source computes it: a loop that pushes one average per value. */
  method Ema(values: seq<real>, period: nat) returns (result: seq<real>)
    requires |values| >= 1
    ensures result == EmaOf(values, Alpha(period))
    ensures |result| == |values| && result[0] == values[0]
    ensures forall i :: 1 <= i < |values| ==> result[i] == EmaStep(values[i], result[i - 1], Alpha(period))
  {
    var k := 2.0 / (period as real + 1.0);
    result := [values[0]];
    var i := 1;
    while i < |values|
      invariant 1 <= i <= |values|
      invariant result == EmaOf(values[..i], k)
    {
      assert values[..i + 1][..i] == values[..i];
      result := result + [EmaStep(values[i], result[i - 1], k)];
      i := i + 1;
    }
    assert values[..|values|] == values;
    EmaRecurrence(values, k);
  }

  /** The worked example: EMA([10, 20, 30], 9) with k = 0.2. */
  lemma EmaExample()
    ensures EmaOf([10.0, 20.0, 30.0], Alpha(9)) == [10.0, 12.0, 15.6]
  {
    assert Alpha(9) == 0.2;
    assert [10.0, 20.0, 30.0][..2] == [10.0, 20.0];
    assert [10.0, 20.0][..1] == [10.0];
  }

  // ---------------------------------------------------------------- RSI

  /** The price went up (strictly) from `i - 1` to `i`. */
  predicate Rises(values: seq<real>, i: int)
    requires 1 <= i < |values|
  {
    values[i] > values[i - 1]
  }

  /** The price went down (strictly) from `i - 1` to `i`. */
  predicate Falls(values: seq<real>, i: int)
    requires 1 <= i < |values|
  {
    values[i] < values[i - 1]
  }

  /** What difference `i` adds to the gains (a zero difference counts as a gain of 0). */
  function Gain(values: seq<real>, i: int): real
    requires 1 <= i < |values|
  {
    var diff := values[i] - values[i - 1];
    if diff >= 0.0 then diff else 0.0
  }

  /** What difference `i` adds to the losses: its absolute value when negative. */
  function Loss(values: seq<real>, i: int): real
    requires 1 <= i < |values|
  {
    var diff := values[i] - values[i - 1];
    if diff >= 0.0 then 0.0 else -diff
  }

  /** Sum of the gains of the differences lo .. hi-1. */
  function GainSum(values: seq<real>, lo: int, hi: int): (s: real)
    requires 1 <= lo <= hi <= |values|
    ensures s >= 0.0
    decreases hi - lo
  {
    if lo == hi then 0.0 else GainSum(values, lo, hi - 1) + Gain(values, hi - 1)
  }

  /** Sum of the losses of the differences lo .. hi-1. */
  function LossSum(values: seq<real>, lo: int, hi: int): (s: real)
    requires 1 <= lo <= hi <= |values|
    ensures s >= 0.0
    decreases hi - lo
  {
    if lo == hi then 0.0 else LossSum(values, lo, hi - 1) + Loss(values, hi - 1)
  }

  /** The RSI formula for positive losses lies in [0, 100), and is 0 exactly when there are no gains. */
  lemma RsiFormula(gains: real, losses: real)
    requires gains >= 0.0 && losses > 0.0
    ensures 0.0 <= 100.0 - 100.0 / (1.0 + gains / losses) < 100.0
    ensures 100.0 - 100.0 / (1.0 + gains / losses) == 0.0 <==> gains == 0.0
  {
    var rs := gains / losses;
    assert rs * losses == gains;
    assert rs >= 0.0;
    var q := 100.0 / (1.0 + rs);
    assert q * (1.0 + rs) == 100.0;
    assert 0.0 < q <= 100.0;
    assert q == 100.0 <==> rs == 0.0;
  }

  /** The RSI of the last `period` differences of `values`. */
  function RsiOf(values: seq<real>, period: nat): (r: real)
    requires period + 1 <= |values|
    ensures 0.0 <= r <= 100.0
  {
    var gains := GainSum(values, |values| - period, |values|);
    var losses := LossSum(values, |values| - period, |values|);
    if losses == 0.0 then 100.0
    else
      RsiFormula(gains, losses);
      100.0 - 100.0 / (1.0 + gains / losses)
  }

  /** The losses are zero exactly when no difference in the window is negative. */
  lemma {:induction false} LossSumZero(values: seq<real>, lo: int, hi: int)
    requires 1 <= lo <= hi <= |values|
    ensures LossSum(values, lo, hi) == 0.0 <==> forall i :: lo <= i < hi ==> !Falls(values, i)
    decreases hi - lo
  {
    if lo < hi {
      LossSumZero(values, lo, hi - 1);
      assert Loss(values, hi - 1) == 0.0 <==> !Falls(values, hi - 1);
      if LossSum(values, lo, hi) == 0.0 {
        forall i | lo <= i < hi ensures !Falls(values, i) {
          if i < hi - 1 {
            assert LossSum(values, lo, hi - 1) == 0.0;
          }
        }
      }
    }
  }

  /** The gains are zero exactly when no difference in the window is positive. */
  lemma {:induction false} GainSumZero(values: seq<real>, lo: int, hi: int)
    requires 1 <= lo <= hi <= |values|
    ensures GainSum(values, lo, hi) == 0.0 <==> forall i :: lo <= i < hi ==> !Rises(values, i)
    decreases hi - lo
  {
    if lo < hi {
      GainSumZero(values, lo, hi - 1);
      assert Gain(values, hi - 1) == 0.0 <==> !Rises(values, hi - 1);
      if GainSum(values, lo, hi) == 0.0 {
        forall i | lo <= i < hi ensures !Rises(values, i) {
          if i < hi - 1 {
            assert GainSum(values, lo, hi - 1) == 0.0;
          }
        }
      }
    }
  }

  /** RSI is exactly 100 if and only if none of the last `period` differences is negative. */
  lemma RsiHundred(values: seq<real>, period: nat)
    requires period + 1 <= |values|
    ensures RsiOf(values, period) == 100.0 <==>
      forall i :: |values| - period <= i < |values| ==> !Falls(values, i)
  {
    var lo := |values| - period;
    LossSumZero(values, lo, |values|);
    var losses := LossSum(values, lo, |values|);
    if losses != 0.0 {
      RsiFormula(GainSum(values, lo, |values|), losses);
    }
  }

  /**
   * RSI is exactly 0 if and only if none of the last `period` differences is
   * positive and at least one of them is negative.
   */
  lemma RsiZero(values: seq<real>, period: nat)
    requires period + 1 <= |values|
    ensures RsiOf(values, period) == 0.0 <==>
      (forall i :: |values| - period <= i < |values| ==> !Rises(values, i)) &&
      (exists i :: |values| - period <= i < |values| && Falls(values, i))
  {
    var lo := |values| - period;
    LossSumZero(values, lo, |values|);
    GainSumZero(values, lo, |values|);
    var losses := LossSum(values, lo, |values|);
    if losses != 0.0 {
      RsiFormula(GainSum(values, lo, |values|), losses);
    }
  }

  /** The RSI as the source computes it: one loop accumulating gains and losses. */
  method Rsi(values: seq<real>, period: nat) returns (r: real)
    requires period + 1 <= |values|
    ensures r == RsiOf(values, period)
    ensures 0.0 <= r <= 100.0
  {
    var gains, losses := 0.0, 0.0;
    var lo := |values| - period;
    var i := lo;
    while i < |values|
      invariant lo <= i <= |values|
      invariant gains == GainSum(values, lo, i)
      invariant losses == LossSum(values, lo, i)
    {
      var diff := values[i] - values[i - 1];
      if diff >= 0.0 {
        gains := gains + diff;
      } else {
        losses := losses + -diff;
      }
      i := i + 1;
    }
    if losses == 0.0 {
      return 100.0;
    }
    var rs := gains / losses;
    r := 100.0 - 100.0 / (1.0 + rs);
  }

  // ---------------------------------------------------------------- MACD

  /** The latest MACD value and the latest value of its signal line. */
  datatype MacdReading = MacdReading(macd: real, signal: real)

  const MACD_FAST: nat := 12
  const MACD_SLOW: nat := 26
  const MACD_SIGNAL: nat := 9

  /** The MACD line: EMA(12) minus EMA(26), element by element. */
  function MacdLine(values: seq<real>): (line: seq<real>)
    requires |values| >= 1
    ensures |line| == |values|
  {
    var fast := EmaOf(values, Alpha(MACD_FAST));
    var slow := EmaOf(values, Alpha(MACD_SLOW));
    seq(|values|, i requires 0 <= i < |values| => fast[i] - slow[i])
  }

  /** The last element of the MACD line and of its EMA(9). */
  function Macd(values: seq<real>): MacdReading
    requires |values| >= 1
  {
    var line := MacdLine(values);
    MacdReading(line[|line| - 1], EmaOf(line, Alpha(MACD_SIGNAL))[|line| - 1])
  }

  /**
   * If the prices stay within [lo, hi], both reported MACD values lie within
   * [lo - hi, hi - lo].
   */
  lemma MacdBounded(values: seq<real>, lo: real, hi: real)
    requires |values| >= 1
    requires forall i :: 0 <= i < |values| ==> lo <= values[i] <= hi
    ensures lo - hi <= Macd(values).macd <= hi - lo
    ensures lo - hi <= Macd(values).signal <= hi - lo
  {
    AlphaInUnitInterval(MACD_FAST);
    AlphaInUnitInterval(MACD_SLOW);
    AlphaInUnitInterval(MACD_SIGNAL);
    EmaBounds(values, Alpha(MACD_FAST), lo, hi);
    EmaBounds(values, Alpha(MACD_SLOW), lo, hi);
    var line := MacdLine(values);
    EmaBounds(line, Alpha(MACD_SIGNAL), lo - hi, hi - lo);
  }

  /** On a constant series the MACD and its signal are both 0. */
  lemma MacdFlat(values: seq<real>, c: real)
    requires |values| >= 1
    requires forall i :: 0 <= i < |values| ==> values[i] == c
    ensures Macd(values) == MacdReading(0.0, 0.0)
  {
    MacdBounded(values, c, c);
  }
}
