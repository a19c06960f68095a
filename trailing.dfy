/**
 * The trailing-stop state of one symbol: the best mark price seen so far and
 * whether the stop is armed. The stop is armed once the position is 12% in
 * profit, stays armed, and closes the position on a 3% retracement from the
 * best price.
 */
module Trailing {
  import opened Options

  datatype Side = Long | Short

  /** One entry of the exchange's position list; `contracts` may be absent. */
  datatype Position = Position(
    symbol: string,
    side: Side,
    entryPrice: real,
    markPrice: real,
    contracts: Option<real>)

  datatype TrailState = TrailState(peak: real, active: bool)

  const ACTIVATION_PROFIT := 0.12
  const LONG_STOP := 0.97
  const SHORT_STOP := 1.03

  /** Unrealised profit as a fraction of the entry price, in the position's direction. */
  function Profit(p: Position): real
    requires p.entryPrice > 0.0
  {
    if p.side == Long then (p.markPrice - p.entryPrice) / p.entryPrice
    else (p.entryPrice - p.markPrice) / p.entryPrice
  }

  /**
   * The state after observing `p`: a missing entry starts at the mark price,
   * unarmed; the peak moves to a better mark; the stop arms at 12% profit.
   */
  function Observe(prev: Option<TrailState>, p: Position): TrailState
    requires p.entryPrice > 0.0
  {
    var s := if prev.None? then TrailState(p.markPrice, false) else prev.value;
    var peak :=
      if p.side == Long && p.markPrice > s.peak then p.markPrice
      else if p.side == Short && p.markPrice < s.peak then p.markPrice
      else s.peak;
    TrailState(peak, s.active || Profit(p) >= ACTIVATION_PROFIT)
  }

  /** Whether the stop closes `p` in state `s`: armed, and 3% back from the peak. */
  predicate Fires(s: TrailState, p: Position) {
    s.active &&
    if p.side == Long then p.markPrice <= s.peak * LONG_STOP
    else p.markPrice >= s.peak * SHORT_STOP
  }

  /** A first observation starts at the mark price, armed only if already 12% in profit. */
  lemma ObserveFresh(p: Position)
    requires p.entryPrice > 0.0
    ensures Observe(None, p) == TrailState(p.markPrice, Profit(p) >= ACTIVATION_PROFIT)
  {
  }

  /**
   * The peak ratchets: for a long it becomes the larger of the old peak and
   * the mark, for a short the smaller.
   */
  lemma ObservePeak(s: TrailState, p: Position)
    requires p.entryPrice > 0.0
    ensures p.side == Long ==>
      Observe(Some(s), p).peak >= s.peak && Observe(Some(s), p).peak >= p.markPrice &&
      (Observe(Some(s), p).peak == s.peak || Observe(Some(s), p).peak == p.markPrice)
    ensures p.side == Short ==>
      Observe(Some(s), p).peak <= s.peak && Observe(Some(s), p).peak <= p.markPrice &&
      (Observe(Some(s), p).peak == s.peak || Observe(Some(s), p).peak == p.markPrice)
  {
  }

  /** Arming is sticky: the stop is armed afterwards iff it was armed or profit reached 12%. */
  lemma ObserveArming(prev: Option<TrailState>, p: Position)
    requires p.entryPrice > 0.0
    ensures Observe(prev, p).active <==>
      (prev.Some? && prev.value.active) || Profit(p) >= ACTIVATION_PROFIT
  {
  }

  /** An unarmed stop never closes; an armed one closes exactly on a 3% retracement. */
  lemma FiresIff(s: TrailState, p: Position)
    ensures !s.active ==> !Fires(s, p)
    ensures s.active && p.side == Long ==> (Fires(s, p) <==> p.markPrice <= s.peak * LONG_STOP)
    ensures s.active && p.side == Short ==> (Fires(s, p) <==> p.markPrice >= s.peak * SHORT_STOP)
  {
  }

  /** A positive mark that has just become the peak never closes the position. */
  lemma NoCloseAtNewPeak(prev: Option<TrailState>, p: Position)
    requires p.entryPrice > 0.0 && p.markPrice > 0.0
    requires Observe(prev, p).peak == p.markPrice
    ensures !Fires(Observe(prev, p), p)
  {
  }

  /** Every position in `ps` could be observed (positive entry price). */
  predicate Observable(ps: seq<Position>) {
    forall i :: 0 <= i < |ps| ==> ps[i].entryPrice > 0.0
  }

  /** The state after observing `ps` one after another, starting from `s`, without a close. */
  function Track(s: TrailState, ps: seq<Position>): TrailState
    requires Observable(ps)
    decreases |ps|
  {
    if ps == [] then s
    else Observe(Some(Track(s, ps[..|ps| - 1])), ps[|ps| - 1])
  }

  /**
   * Over a run of long observations the peak is never below the starting
   * peak or any mark seen, and it is one of them: the best price seen.
   */
  lemma {:induction false} TrackLongPeak(s: TrailState, ps: seq<Position>)
    requires Observable(ps)
    requires forall i :: 0 <= i < |ps| ==> ps[i].side == Long
    ensures Track(s, ps).peak >= s.peak
    ensures forall i :: 0 <= i < |ps| ==> Track(s, ps).peak >= ps[i].markPrice
    ensures Track(s, ps).peak == s.peak || exists i :: 0 <= i < |ps| && Track(s, ps).peak == ps[i].markPrice
    decreases |ps|
  {
    if ps != [] {
      var init := ps[..|ps| - 1];
      TrackLongPeak(s, init);
      var before := Track(s, init);
      ObservePeak(before, ps[|ps| - 1]);
      if Track(s, ps).peak != s.peak && Track(s, ps).peak != ps[|ps| - 1].markPrice {
        var i :| 0 <= i < |init| && before.peak == init[i].markPrice;
        assert ps[i] == init[i];
      }
    }
  }

  /**
   * Over a run of short observations the peak is never above the starting
   * peak or any mark seen, and it is one of them: the best price seen.
   */
  lemma {:induction false} TrackShortPeak(s: TrailState, ps: seq<Position>)
    requires Observable(ps)
    requires forall i :: 0 <= i < |ps| ==> ps[i].side == Short
    ensures Track(s, ps).peak <= s.peak
    ensures forall i :: 0 <= i < |ps| ==> Track(s, ps).peak <= ps[i].markPrice
    ensures Track(s, ps).peak == s.peak || exists i :: 0 <= i < |ps| && Track(s, ps).peak == ps[i].markPrice
    decreases |ps|
  {
    if ps != [] {
      var init := ps[..|ps| - 1];
      TrackShortPeak(s, init);
      var before := Track(s, init);
      ObservePeak(before, ps[|ps| - 1]);
      if Track(s, ps).peak != s.peak && Track(s, ps).peak != ps[|ps| - 1].markPrice {
        var i :| 0 <= i < |init| && before.peak == init[i].markPrice;
        assert ps[i] == init[i];
      }
    }
  }

  /**
   * Over a run of observations the stop ends armed exactly when it started
   * armed or some observation reached 12% profit: it never disarms.
   */
  lemma {:induction false} TrackArming(s: TrailState, ps: seq<Position>)
    requires Observable(ps)
    ensures Track(s, ps).active <==>
      s.active || exists i :: 0 <= i < |ps| && Profit(ps[i]) >= ACTIVATION_PROFIT
    decreases |ps|
  {
    if ps != [] {
      var init := ps[..|ps| - 1];
      TrackArming(s, init);
      if exists i :: 0 <= i < |init| && Profit(init[i]) >= ACTIVATION_PROFIT {
        var i :| 0 <= i < |init| && Profit(init[i]) >= ACTIVATION_PROFIT;
        assert ps[i] == init[i];
      }
      if exists i :: 0 <= i < |ps| && Profit(ps[i]) >= ACTIVATION_PROFIT {
        var i :| 0 <= i < |ps| && Profit(ps[i]) >= ACTIVATION_PROFIT;
        if i < |init| {
          assert init[i] == ps[i];
        }
      }
    }
  }

  /**
   * A long entered at 100: a mark of 115 (15% profit) arms the stop at peak
   * 115 without closing; a following mark of 111 is below 115 * 0.97 and closes.
   */
  lemma LongScenario(symbol: string)
    ensures var p1 := Position(symbol, Long, 100.0, 115.0, Some(1.0));
            var s1 := Observe(None, p1);
            s1 == TrailState(115.0, true) && !Fires(s1, p1)
    ensures var p2 := Position(symbol, Long, 100.0, 111.0, Some(1.0));
            var s2 := Observe(Some(TrailState(115.0, true)), p2);
            s2 == TrailState(115.0, true) && Fires(s2, p2)
  {
  }
}
