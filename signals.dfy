/**
 * The signal rule: EMA(9) against EMA(21), RSI(14) against 50 and, when the
 * configuration asks for it, the MACD against its signal line.
 */
module Signals {
  import opened Options
  import opened Indicators

  /** `LONG`, `SHORT` or `null` in the source. */
  datatype Signal = Long | Short | NoSignal

  const FAST_PERIOD: nat := 9
  const SLOW_PERIOD: nat := 21
  const RSI_PERIOD: nat := 14
  const RSI_MIDLINE := 50.0

  /** The MACD agrees with the direction (`up` for long); no MACD means no condition. */
  predicate Confirms(macd: Option<MacdReading>, up: bool) {
    match macd
    case None => true
    case Some(m) => if up then m.macd > m.signal else m.macd < m.signal
  }

  /**
   * The decision, tested LONG first: since the two conditions exclude each
   * other, the order of the tests never matters.
   */
  function Decide(fast: real, slow: real, rsi: real, macd: Option<MacdReading>): (s: Signal)
    ensures s == Long <==> fast > slow && rsi > RSI_MIDLINE && Confirms(macd, true)
    ensures s == Short <==> fast < slow && rsi < RSI_MIDLINE && Confirms(macd, false)
  {
    if fast > slow && rsi > RSI_MIDLINE && Confirms(macd, true) then Long
    else if fast < slow && rsi < RSI_MIDLINE && Confirms(macd, false) then Short
    else NoSignal
  }

  /** The last element of a nonempty series. */
  function Last(s: seq<real>): real
    requires |s| >= 1
  {
    s[|s| - 1]
  }

  /**
   * The signal for a window of closing prices. A window shorter than
   * RSI_PERIOD + 1 yields no signal: the source then reads past the start of
   * the array, its RSI is NaN and both comparisons with 50 are false.
   */
  function SignalOf(closes: seq<real>, useMacd: bool): Signal {
    if |closes| < RSI_PERIOD + 1 then NoSignal
    else
      Decide(Last(EmaOf(closes, Alpha(FAST_PERIOD))), Last(EmaOf(closes, Alpha(SLOW_PERIOD))),
             RsiOf(closes, RSI_PERIOD), if useMacd then Some(Macd(closes)) else None)
  }

  /** The signal as the source computes it, with the indicator loops. */
  method GetSignal(closes: seq<real>, useMacd: bool) returns (s: Signal)
    ensures s == SignalOf(closes, useMacd)
  {
    if |closes| < RSI_PERIOD + 1 {
      return NoSignal;
    }
    var fastSeries := Ema(closes, FAST_PERIOD);
    var slowSeries := Ema(closes, SLOW_PERIOD);
    var fast := fastSeries[|fastSeries| - 1];
    var slow := slowSeries[|slowSeries| - 1];
    var rsiVal := Rsi(closes, RSI_PERIOD);
    var macdVal := if useMacd then Some(Macd(closes)) else None;
    s := Decide(fast, slow, rsiVal, macdVal);
  }

  /** With too few closes for RSI(14) the symbol gets no signal. */
  lemma ShortWindowNoSignal(closes: seq<real>, useMacd: bool)
    requires |closes| < RSI_PERIOD + 1
    ensures SignalOf(closes, useMacd) == NoSignal
  {
  }

  /** A window of identical closes never signals: both EMAs equal the price. */
  lemma FlatWindowNoSignal(closes: seq<real>, useMacd: bool, c: real)
    requires forall i :: 0 <= i < |closes| ==> closes[i] == c
    ensures SignalOf(closes, useMacd) == NoSignal
  {
    if |closes| >= RSI_PERIOD + 1 {
      EmaConstant(closes, Alpha(FAST_PERIOD), c);
      EmaConstant(closes, Alpha(SLOW_PERIOD), c);
    }
  }

  /** LONG exactly when fast > slow, RSI > 50 and, with MACD on, MACD > signal. */
  lemma LongIff(closes: seq<real>, useMacd: bool)
    requires |closes| >= RSI_PERIOD + 1
    ensures SignalOf(closes, useMacd) == Long <==>
      Last(EmaOf(closes, Alpha(FAST_PERIOD))) > Last(EmaOf(closes, Alpha(SLOW_PERIOD))) &&
      RsiOf(closes, RSI_PERIOD) > RSI_MIDLINE &&
      (useMacd ==> Macd(closes).macd > Macd(closes).signal)
  {
    var m := if useMacd then Some(Macd(closes)) else None;
    assert SignalOf(closes, useMacd) ==
      Decide(Last(EmaOf(closes, Alpha(FAST_PERIOD))), Last(EmaOf(closes, Alpha(SLOW_PERIOD))),
             RsiOf(closes, RSI_PERIOD), m);
  }

  /** SHORT exactly when fast < slow, RSI < 50 and, with MACD on, MACD < signal. */
  lemma ShortIff(closes: seq<real>, useMacd: bool)
    requires |closes| >= RSI_PERIOD + 1
    ensures SignalOf(closes, useMacd) == Short <==>
      Last(EmaOf(closes, Alpha(FAST_PERIOD))) < Last(EmaOf(closes, Alpha(SLOW_PERIOD))) &&
      RsiOf(closes, RSI_PERIOD) < RSI_MIDLINE &&
      (useMacd ==> Macd(closes).macd < Macd(closes).signal)
  {
    var m := if useMacd then Some(Macd(closes)) else None;
    assert SignalOf(closes, useMacd) ==
      Decide(Last(EmaOf(closes, Alpha(FAST_PERIOD))), Last(EmaOf(closes, Alpha(SLOW_PERIOD))),
             RsiOf(closes, RSI_PERIOD), m);
  }

  /**
   * The MACD only filters: every signal the MACD-confirmed rule (bun.js) gives
   * is the signal the plain rule (nr2.js) gives for the same window.
   */
  lemma MacdOnlyFilters(closes: seq<real>)
    ensures SignalOf(closes, true) != NoSignal ==> SignalOf(closes, true) == SignalOf(closes, false)
  {
  }
}
