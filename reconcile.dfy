/**
 * One reconciliation cycle: close the positions whose trailing stop fires,
 * then, below the cap of three open positions, open one market order per
 * pair with a signal. Exchange reads are snapshots passed in; orders are
 * returned in the order the source submits them.
 */
module Reconcile {
  import opened Options
  import opened Settings
  import opened Indicators
  import opened Signals
  import opened Sizing
  import opened Trailing

  datatype OrderSide = Buy | Sell

  /** A market order: what `createMarketOrder(symbol, side, qty)` is called with. */
  datatype Order = Order(symbol: string, side: OrderSide, qty: real)

  /** The base-currency balance as the exchange reports it. */
  datatype Account = Account(free: real, total: real)

  /** The market data of one pair: closing prices, oldest first, and the ticker's last price. */
  datatype Quote = Quote(closes: seq<real>, last: real)

  const MAX_OPEN: nat := 3

  function Abs(x: real): real {
    if x < 0.0 then -x else x
  }

  /** The position holds contracts: neither absent nor zero. */
  predicate Live(p: Position) {
    p.contracts.Some? && p.contracts.value != 0.0
  }

  /** The close order for a live position: opposite side, all its contracts. */
  function CloseOrder(p: Position): (o: Order)
    requires Live(p)
    ensures o.symbol == p.symbol && o.qty > 0.0
    ensures o.side == (if p.side.Long? then Sell else Buy)
  {
    Order(p.symbol, if p.side.Long? then Sell else Buy, Abs(p.contracts.value))
  }

  /** The order side for a signal: LONG buys, SHORT sells. */
  function OpenSide(s: Signal): OrderSide
    requires s != NoSignal
  {
    if s.Long? then Buy else Sell
  }

  /** Closing a position opened on a signal trades the other way. */
  lemma CloseReversesOpen(p: Position, s: Signal)
    requires Live(p) && s != NoSignal
    requires p.side.Long? <==> s.Long?
    ensures CloseOrder(p).side != OpenSide(s)
  {
  }

  function Get(t: map<string, TrailState>, k: string): Option<TrailState> {
    if k in t then Some(t[k]) else None
  }

  /** Every live position can be observed by the trailing stop. */
  predicate EntriesPositive(ps: seq<Position>) {
    forall i :: 0 <= i < |ps| ==> Live(ps[i]) ==> ps[i].entryPrice > 0.0
  }

  /** Live positions carry distinct symbols (one position per symbol). */
  predicate DistinctLive(ps: seq<Position>) {
    forall i, j :: 0 <= i < j < |ps| && Live(ps[i]) && Live(ps[j]) ==> ps[i].symbol != ps[j].symbol
  }

  lemma EntriesPositivePrefix(ps: seq<Position>, n: nat)
    requires EntriesPositive(ps) && n <= |ps|
    ensures EntriesPositive(ps[..n])
  {
    var pre := ps[..n];
    forall i | 0 <= i < n ensures Live(pre[i]) ==> pre[i].entryPrice > 0.0 {
      assert pre[i] == ps[i];
    }
  }

  /** The trailing map and the close orders after part of a position sweep. */
  datatype Sweep = Sweep(trailing: map<string, TrailState>, orders: seq<Order>)

  /** One position of the sweep: skipped, kept with its new state, or closed and forgotten. */
  function Visit(t: map<string, TrailState>, p: Position): Sweep
    requires Live(p) ==> p.entryPrice > 0.0
  {
    if !Live(p) then Sweep(t, [])
    else
      var s := Observe(Get(t, p.symbol), p);
      if Fires(s, p) then Sweep(t - {p.symbol}, [CloseOrder(p)])
      else Sweep(t[p.symbol := s], [])
  }

  /**
   * Visiting a position changes at most its own symbol's entry; a close
   * removes that entry and emits exactly its close order.
   */
  lemma VisitTouchesOnlyItsSymbol(t: map<string, TrailState>, p: Position, k: string)
    requires Live(p) ==> p.entryPrice > 0.0
    ensures k != p.symbol ==> Get(Visit(t, p).trailing, k) == Get(t, k)
    ensures Visit(t, p).orders != [] <==> Live(p) && p.symbol !in Visit(t, p).trailing
    ensures Visit(t, p).orders != [] ==> Visit(t, p).orders == [CloseOrder(p)]
  {
  }

  /** The sweep over all positions, in list order. */
  function Manage(t: map<string, TrailState>, ps: seq<Position>): (r: Sweep)
    requires EntriesPositive(ps)
    ensures |r.orders| <= |ps|
    decreases |ps|
  {
    if ps == [] then Sweep(t, [])
    else
      var before := Manage(t, ps[..|ps| - 1]);
      var last := Visit(before.trailing, ps[|ps| - 1]);
      Sweep(last.trailing, before.orders + last.orders)
  }

  /** A key with no live position in the list keeps its entry, or its absence: nothing prunes it. */
  lemma {:induction false} ManageUntouched(t: map<string, TrailState>, ps: seq<Position>, k: string)
    requires EntriesPositive(ps)
    requires forall i :: 0 <= i < |ps| ==> Live(ps[i]) ==> ps[i].symbol != k
    ensures Get(Manage(t, ps).trailing, k) == Get(t, k)
    decreases |ps|
  {
    if ps != [] {
      var init := ps[..|ps| - 1];
      assert forall i :: 0 <= i < |init| ==> init[i] == ps[i];
      ManageUntouched(t, init, k);
    }
  }

  /** The `j`-th order of the sweep is the close order of the live position at index `i`. */
  lemma {:induction false} ManageOrderAt(t: map<string, TrailState>, ps: seq<Position>, j: int) returns (i: int)
    requires EntriesPositive(ps) && 0 <= j < |Manage(t, ps).orders|
    ensures 0 <= i < |ps| && Live(ps[i]) && Manage(t, ps).orders[j] == CloseOrder(ps[i])
    decreases |ps|
  {
    var n := |ps| - 1;
    var init := ps[..n];
    EntriesPositivePrefix(ps, n);
    var before := Manage(t, init);
    var last := Visit(before.trailing, ps[n]);
    assert Manage(t, ps).orders == before.orders + last.orders;
    if j < |before.orders| {
      i := ManageOrderAt(t, init, j);
      assert init[i] == ps[i];
    } else {
      i := n;
    }
  }

  /** Every order of the sweep is the close order of a live position of the list. */
  lemma ManageOrders(t: map<string, TrailState>, ps: seq<Position>)
    requires EntriesPositive(ps)
    ensures forall o :: o in Manage(t, ps).orders ==>
      exists i :: 0 <= i < |ps| && Live(ps[i]) && o == CloseOrder(ps[i])
  {
    forall o | o in Manage(t, ps).orders
      ensures exists i :: 0 <= i < |ps| && Live(ps[i]) && o == CloseOrder(ps[i])
    {
      var j :| 0 <= j < |Manage(t, ps).orders| && Manage(t, ps).orders[j] == o;
      var i := ManageOrderAt(t, ps, j);
    }
  }

  /**
   * With one live position per symbol, each live position ends the sweep
   * exactly as the trailing stop decides from the entry it started with:
   * when the stop fires its symbol is gone from the map and its close order
   * is emitted; otherwise the map holds the observed state and no close
   * order for it is emitted.
   */
  lemma {:induction false} ManageEntry(t: map<string, TrailState>, ps: seq<Position>, i: int)
    requires EntriesPositive(ps) && DistinctLive(ps)
    requires 0 <= i < |ps| && Live(ps[i])
    ensures var s := Observe(Get(t, ps[i].symbol), ps[i]);
      if Fires(s, ps[i]) then
        ps[i].symbol !in Manage(t, ps).trailing && CloseOrder(ps[i]) in Manage(t, ps).orders
      else
        Get(Manage(t, ps).trailing, ps[i].symbol) == Some(s) && CloseOrder(ps[i]) !in Manage(t, ps).orders
    decreases |ps|
  {
    var n := |ps|;
    var init := ps[..n - 1];
    var p := ps[i];
    var before := Manage(t, init);
    var s := Observe(Get(t, p.symbol), p);
    assert forall j :: 0 <= j < |init| ==> init[j] == ps[j];
    if i == n - 1 {
      ManageUntouched(t, init, p.symbol);
      if !Fires(s, p) {
        forall j | 0 <= j < |before.orders| ensures before.orders[j] != CloseOrder(p) {
          var m := ManageOrderAt(t, init, j);
          assert ps[m].symbol != p.symbol;
        }
      }
    } else {
      ManageEntry(t, init, i);
      var q := ps[n - 1];
      assert Live(q) ==> q.symbol != p.symbol;
    }
  }

  /**
   * Entries outlive their positions: when a symbol's position was closed
   * elsewhere, its armed entry survives the sweep, and a new long on that
   * symbol opened below 97% of the old peak is closed on its first visit,
   * at zero profit. For example, entry `(100, armed)` and a new long at 90.
   */
  lemma StaleEntryClosesNewPosition(t: map<string, TrailState>, ps: seq<Position>, p: Position, peak: real)
    requires EntriesPositive(ps)
    requires forall i :: 0 <= i < |ps| ==> Live(ps[i]) ==> ps[i].symbol != p.symbol
    requires Get(t, p.symbol) == Some(TrailState(peak, true))
    requires Live(p) && p.side.Long? && p.entryPrice == p.markPrice > 0.0
    requires p.markPrice <= peak * LONG_STOP
    ensures Visit(Manage(t, ps).trailing, p).orders == [CloseOrder(p)]
  {
    ManageUntouched(t, ps, p.symbol);
  }

  /** The example: a stale armed entry at peak 100 closes a new long entered at 90 at once. */
  lemma StaleEntryExample(symbol: string)
    ensures var p := Position(symbol, Side.Long, 90.0, 90.0, Some(1.0));
            Visit(map[symbol := TrailState(100.0, true)], p).orders == [CloseOrder(p)]
  {
  }

  /** Positions counted as open after the closes: `contracts != 0`, so an absent count also counts. */
  function OpenCount(ps: seq<Position>): (n: nat)
    ensures n <= |ps|
    decreases |ps|
  {
    if ps == [] then 0
    else OpenCount(ps[..|ps| - 1]) + (if ps[|ps| - 1].contracts != Some(0.0) then 1 else 0)
  }

  /** Whether the balance snapshot has what the configured funds field needs. */
  predicate FundsKnown(cfg: Config, balance: map<string, Account>) {
    cfg.funds == Total ==> BASE in balance
  }

  /** The balance that sizes new orders: free (0 when the currency is missing) or total. */
  function Funds(cfg: Config, balance: map<string, Account>): real
    requires FundsKnown(cfg, balance)
  {
    match cfg.funds
    case Free => if BASE in balance then balance[BASE].free else 0.0
    case Total => balance[BASE].total
  }

  /**
   * bun.js sizes from the free balance, 0 when the currency is missing;
   * nr2.js sizes from the total balance.
   */
  lemma FundsByVariant(leverage: real, risk: real, balance: map<string, Account>)
    ensures Funds(BunConfig(leverage, risk), balance) == if BASE in balance then balance[BASE].free else 0.0
    ensures BASE in balance ==> Funds(Nr2Config(leverage, risk), balance) == balance[BASE].total
  {
  }

  /** Every pair has a quote with a positive last price. */
  predicate Quoted(pairs: seq<string>, market: map<string, Quote>) {
    forall i :: 0 <= i < |pairs| ==> pairs[i] in market && market[pairs[i]].last > 0.0
  }

  lemma QuotedPrefix(pairs: seq<string>, market: map<string, Quote>, n: nat)
    requires Quoted(pairs, market) && n <= |pairs|
    ensures Quoted(pairs[..n], market)
  {
    var pre := pairs[..n];
    forall i | 0 <= i < n ensures pre[i] in market && market[pre[i]].last > 0.0 {
      assert pre[i] == pairs[i];
    }
  }

  /** The pair's window of closes gives a LONG or SHORT signal. */
  predicate Signalling(cfg: Config, q: Quote) {
    SignalOf(q.closes, cfg.useMacd) != NoSignal
  }

  /** The open order `openTrade` submits for a signalling pair. */
  function OpenOrder(cfg: Config, funds: real, symbol: string, q: Quote): Order
    requires Signalling(cfg, q) && q.last > 0.0
  {
    Order(symbol, OpenSide(SignalOf(q.closes, cfg.useMacd)), CalcSize(cfg, funds, q.last))
  }

  /** The open order for one pair, if its window gives a signal. */
  function OpenFor(cfg: Config, funds: real, symbol: string, q: Quote): seq<Order>
    requires q.last > 0.0
  {
    if Signalling(cfg, q) then [OpenOrder(cfg, funds, symbol, q)] else []
  }

  /** The open orders for `pairs`, in pair order. */
  function Opens(cfg: Config, funds: real, pairs: seq<string>, market: map<string, Quote>): (r: seq<Order>)
    requires Quoted(pairs, market)
    ensures |r| <= |pairs|
    decreases |pairs|
  {
    if pairs == [] then []
    else
      var init := pairs[..|pairs| - 1];
      QuotedPrefix(pairs, market, |pairs| - 1);
      Opens(cfg, funds, init, market) + OpenFor(cfg, funds, pairs[|pairs| - 1], market[pairs[|pairs| - 1]])
  }

  /** One more pair appends that pair's open order, if any, to the orders of the pairs before it. */
  lemma OpensStep(cfg: Config, funds: real, pairs: seq<string>, market: map<string, Quote>, i: int)
    requires Quoted(pairs, market) && 0 <= i < |pairs|
    ensures Quoted(pairs[..i], market) && Quoted(pairs[..i + 1], market)
    ensures Opens(cfg, funds, pairs[..i + 1], market) ==
      Opens(cfg, funds, pairs[..i], market) + OpenFor(cfg, funds, pairs[i], market[pairs[i]])
  {
    QuotedPrefix(pairs, market, i);
    QuotedPrefix(pairs, market, i + 1);
    assert pairs[..i + 1][..i] == pairs[..i];
  }

  /** For the three configured pairs: BTC first, then ETH, then SOL. */
  lemma OpensThreePairs(cfg: Config, funds: real, market: map<string, Quote>)
    requires |cfg.pairs| == 3 && Quoted(cfg.pairs, market)
    ensures Opens(cfg, funds, cfg.pairs, market) ==
      OpenFor(cfg, funds, cfg.pairs[0], market[cfg.pairs[0]]) +
      OpenFor(cfg, funds, cfg.pairs[1], market[cfg.pairs[1]]) +
      OpenFor(cfg, funds, cfg.pairs[2], market[cfg.pairs[2]])
  {
    var p := cfg.pairs;
    QuotedPrefix(p, market, 2);
    QuotedPrefix(p, market, 1);
    QuotedPrefix(p, market, 0);
    assert p[..2][..1] == p[..1] && p[..1][..0] == p[..0] == [];
    assert Opens(cfg, funds, p[..0], market) == [];
    assert Opens(cfg, funds, p[..1], market) == OpenFor(cfg, funds, p[0], market[p[0]]);
    assert Opens(cfg, funds, p[..2], market) == Opens(cfg, funds, p[..1], market) + OpenFor(cfg, funds, p[1], market[p[1]]);
    assert Opens(cfg, funds, p, market) == Opens(cfg, funds, p[..2], market) + OpenFor(cfg, funds, p[2], market[p[2]]);
  }

  /**
   * Each open order is for a pair whose window signals, on the signal's side,
   * sized from the funds and the pair's last price.
   */
  lemma {:induction false} OpensSound(cfg: Config, funds: real, pairs: seq<string>, market: map<string, Quote>, j: int)
    requires Quoted(pairs, market)
    requires 0 <= j < |Opens(cfg, funds, pairs, market)|
    ensures exists i :: (0 <= i < |pairs| && Signalling(cfg, market[pairs[i]]) &&
                         Opens(cfg, funds, pairs, market)[j] == OpenOrder(cfg, funds, pairs[i], market[pairs[i]]))
    decreases |pairs|
  {
    var n := |pairs| - 1;
    var init := pairs[..n];
    QuotedPrefix(pairs, market, n);
    var before := Opens(cfg, funds, init, market);
    var r := Opens(cfg, funds, pairs, market);
    assert r == before + OpenFor(cfg, funds, pairs[n], market[pairs[n]]);
    if j < |before| {
      OpensSound(cfg, funds, init, market, j);
      var i :| 0 <= i < |init| && Signalling(cfg, market[init[i]]) &&
        before[j] == OpenOrder(cfg, funds, init[i], market[init[i]]);
      assert init[i] == pairs[i];
      assert r[j] == before[j];
    } else {
      assert r[j] == OpenOrder(cfg, funds, pairs[n], market[pairs[n]]);
    }
  }

  /** Every pair whose window signals gets its open order. */
  lemma {:induction false} OpensComplete(cfg: Config, funds: real, pairs: seq<string>, market: map<string, Quote>, i: int)
    requires Quoted(pairs, market) && 0 <= i < |pairs|
    requires Signalling(cfg, market[pairs[i]])
    ensures OpenOrder(cfg, funds, pairs[i], market[pairs[i]]) in Opens(cfg, funds, pairs, market)
    decreases |pairs|
  {
    var init := pairs[..|pairs| - 1];
    QuotedPrefix(pairs, market, |pairs| - 1);
    if i < |pairs| - 1 {
      assert init[i] == pairs[i];
      OpensComplete(cfg, funds, init, market, i);
    }
  }

  /** The open orders of a cycle: none once three or more positions are counted open. */
  function CycleOpens(cfg: Config, balance: map<string, Account>, after: seq<Position>, market: map<string, Quote>): (r: seq<Order>)
    requires FundsKnown(cfg, balance) && Quoted(cfg.pairs, market)
    ensures OpenCount(after) >= MAX_OPEN ==> r == []
    ensures |r| <= |cfg.pairs|
  {
    if OpenCount(after) >= MAX_OPEN then []
    else Opens(cfg, Funds(cfg, balance), cfg.pairs, market)
  }

  /**
   * Below the cap, a pair that signals is opened even when the post-close
   * snapshot already holds a live position in it: held symbols are not skipped.
   */
  lemma HeldPairStillOpened(cfg: Config, balance: map<string, Account>, after: seq<Position>,
                            market: map<string, Quote>, i: int, k: int)
    requires FundsKnown(cfg, balance) && Quoted(cfg.pairs, market)
    requires OpenCount(after) < MAX_OPEN
    requires 0 <= i < |cfg.pairs| && Signalling(cfg, market[cfg.pairs[i]])
    requires 0 <= k < |after| && Live(after[k]) && after[k].symbol == cfg.pairs[i]
    ensures exists j :: (0 <= j < |CycleOpens(cfg, balance, after, market)| &&
                         CycleOpens(cfg, balance, after, market)[j].symbol == cfg.pairs[i])
  {
    OpensComplete(cfg, Funds(cfg, balance), cfg.pairs, market, i);
    var r := CycleOpens(cfg, balance, after, market);
    var o := OpenOrder(cfg, Funds(cfg, balance), cfg.pairs[i], market[cfg.pairs[i]]);
    var j :| 0 <= j < |r| && r[j] == o;
  }

  /**
   * The cap is checked once, before the open loop: with two positions counted
   * open and all three pairs signalling, the cycle emits three open orders on
   * top of them.
   */
  lemma CapCheckedOnce(cfg: Config, balance: map<string, Account>, after: seq<Position>, market: map<string, Quote>)
    requires FundsKnown(cfg, balance) && Quoted(cfg.pairs, market)
    requires OpenCount(after) == 2 && |cfg.pairs| == 3
    requires forall i :: 0 <= i < 3 ==> Signalling(cfg, market[cfg.pairs[i]])
    ensures OpenCount(after) + |CycleOpens(cfg, balance, after, market)| == 5
  {
    OpensThreePairs(cfg, Funds(cfg, balance), market);
  }

  /** The trading engine: the configuration and the per-symbol trailing-stop map. */
  class Engine {
    const cfg: Config
    var trailing: map<string, TrailState>

    constructor (cfg: Config)
      ensures this.cfg == cfg && trailing == map[]
    {
      this.cfg := cfg;
      trailing := map[];
    }

    /** The trailing stop for one position: update its entry, report whether to close. */
    method CheckTrailing(p: Position) returns (close: bool)
      requires p.entryPrice > 0.0
      modifies this
      ensures trailing == old(trailing)[p.symbol := Observe(Get(old(trailing), p.symbol), p)]
      ensures close == Fires(trailing[p.symbol], p)
    {
      var entry, mark := p.entryPrice, p.markPrice;
      var profit := if p.side.Long? then (mark - entry) / entry else (entry - mark) / entry;
      if p.symbol !in trailing {
        trailing := trailing[p.symbol := TrailState(mark, false)];
      }
      var state := trailing[p.symbol];
      if p.side.Long? && mark > state.peak {
        state := state.(peak := mark);
      }
      if p.side.Short? && mark < state.peak {
        state := state.(peak := mark);
      }
      if profit >= ACTIVATION_PROFIT {
        state := state.(active := true);
      }
      trailing := trailing[p.symbol := state];
      if !state.active {
        return false;
      }
      var trigger := if p.side.Long? then state.peak * LONG_STOP else state.peak * SHORT_STOP;
      close := if p.side.Long? then mark <= trigger else mark >= trigger;
    }

    /** Sweep the positions: close those whose stop fires and forget their entries. */
    method ManagePositions(positions: seq<Position>) returns (closes: seq<Order>)
      requires EntriesPositive(positions)
      modifies this
      ensures Sweep(trailing, closes) == Manage(old(trailing), positions)
    {
      closes := [];
      var i := 0;
      while i < |positions|
        invariant 0 <= i <= |positions|
        invariant EntriesPositive(positions[..i])
        invariant Sweep(trailing, closes) == Manage(old(trailing), positions[..i])
      {
        var p := positions[i];
        assert positions[..i + 1][..i] == positions[..i];
        EntriesPositivePrefix(positions, i + 1);
        if p.contracts.Some? && p.contracts.value != 0.0 {
          var close := CheckTrailing(p);
          if close {
            closes := closes + [CloseOrder(p)];
            trailing := trailing - {p.symbol};
          }
        }
        i := i + 1;
      }
      assert positions[..|positions|] == positions;
    }

    /** The open loop over the configured pairs: one order per signalling pair, in pair order. */
    method OpenTrades(funds: real, market: map<string, Quote>) returns (opens: seq<Order>)
      requires Quoted(cfg.pairs, market)
      ensures opens == Opens(cfg, funds, cfg.pairs, market)
    {
      opens := [];
      var i := 0;
      while i < |cfg.pairs|
        invariant 0 <= i <= |cfg.pairs|
        invariant Quoted(cfg.pairs[..i], market)
        invariant opens == Opens(cfg, funds, cfg.pairs[..i], market)
      {
        var symbol := cfg.pairs[i];
        OpensStep(cfg, funds, cfg.pairs, market, i);
        var signal := GetSignal(market[symbol].closes, cfg.useMacd);
        if signal != NoSignal {
          var price := market[symbol].last;
          opens := opens + [Order(symbol, OpenSide(signal), CalcSize(cfg, funds, price))];
        }
        i := i + 1;
      }
      assert cfg.pairs[..|cfg.pairs|] == cfg.pairs;
    }

    /**
     * One cycle: sweep `positions`, then, unless three or more positions of
     * `after` count as open, one open order per signalling pair. `balance`,
     * `positions`, `after` and `market` are the exchange snapshots the source
     * fetches (balance, positions twice, candles and tickers).
     */
    method Cycle(balance: map<string, Account>, positions: seq<Position>, after: seq<Position>,
                 market: map<string, Quote>) returns (orders: seq<Order>)
      requires FundsKnown(cfg, balance) && EntriesPositive(positions) && Quoted(cfg.pairs, market)
      modifies this
      ensures trailing == Manage(old(trailing), positions).trailing
      ensures orders == Manage(old(trailing), positions).orders + CycleOpens(cfg, balance, after, market)
    {
      var funds := Funds(cfg, balance);
      var closes := ManagePositions(positions);
      orders := closes;
      if OpenCount(after) >= MAX_OPEN {
        assert orders == closes + [];
        return;
      }
      var opens := OpenTrades(funds, market);
      orders := closes + opens;
    }
  }
}
