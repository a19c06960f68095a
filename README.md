# Trading decision engine of the Binance futures bot

This project models the decision engine of the bot's two strategy variants, `bun.js` and `nr2.js`, in Dafny and proves properties of it. The two files run the same engine, and one model serves both. What differs between them is a `Settings.Config` value:

| | bun.js | nr2.js |
|---|---|---|
| MACD must confirm the signal | yes | no |
| default risk per trade | 0.05 | 0.03 |
| balance that sizes new orders | `free` of USDC, 0 when missing | `total` of USDC |
| pairs | `BTC/USDC`, `ETH/USDC`, `SOL/USDC` | `BTC/USDC:USDC`, `ETH/USDC:USDC`, `SOL/USDC:USDC` |

Leverage defaults to 5 in both. Prices are exact `real`s.

The engine has five parts, one module each:

- `Indicators`: the seeded EMA (`EmaOf` as a function, `Ema` as the source's loop), the RSI over the last `period` differences (`GainSum`, `LossSum`, `RsiOf`, and the loop `Rsi`), and the MACD (`MacdLine`, `Macd`).
- `Signals`: the three-way decision `Decide` (LONG, SHORT or no signal) and `SignalOf`, which applies it to a window of closes. `GetSignal` computes the same result with the indicator loops.
- `Sizing`: `CalcSize`, the balance times risk times leverage, divided by the price.
- `Trailing`: the per-symbol trailing-stop state `TrailState(peak, active)`.
  - `Observe` creates a missing entry at the mark price, ratchets the peak and arms the stop at 12% profit.
  - `Fires` decides a close on a 3% retracement.
  - `Track` is a run of observations without a close.
- `Reconcile`: the class `Engine` holds the trailing map `map<string, TrailState>` and has one method per source operation: `CheckTrailing`, `ManagePositions`, `OpenTrades` (the open loop of `cycle`) and `Cycle`.
  - `ManagePositions` is specified by the sweep function `Manage`.
  - The open orders of a cycle are specified by `Opens` and `CycleOpens`.

The exchange is not called. `Cycle` receives four snapshots:

- the balance map;
- the position list read by `managePositions`;
- the position list read again after the closes;
- closes and last price per pair.

It returns the market orders in the order the source submits them: closes first, then opens.

The model follows the code, including where its behaviour may be surprising:

- `cycle` does not skip pairs that already hold a position (`HeldPairStillOpened`).
- The cap of three open positions is checked once, before the open loop, so with two positions counted open, one cycle can emit three more open orders (`CapCheckedOnce`).
- A trailing entry is deleted only when its stop fires. Entries of positions closed elsewhere stay in the map (`ManageUntouched`). A later position on the same symbol inherits the stale peak and arming. For example, an armed entry at peak 100 closes a new long entered at 90 on its first visit, at zero profit (`StaleEntryClosesNewPosition`, `StaleEntryExample`).
- After the closes, the source counts positions with `p.contracts != 0`. A position whose `contracts` is absent therefore counts as open (`OpenCount`), although `managePositions` skips it.
- The source never checks the window length. A window shorter than 15 closes makes the RSI read before the start of the array. The RSI is then NaN, and both comparisons with 50 are false, so the pair gets no signal. `SignalOf` models this as an explicit "no signal" for short windows (`ShortWindowNoSignal`).

## Model

| member | source | states |
|---|---|---|
| `Settings.BunConfig` | bun.js:4-10 | bun.js's configuration: the given leverage and risk, MACD confirmation on, sizing from the free balance, pairs `BTC/USDC`, `ETH/USDC`, `SOL/USDC` (bun.js:182-186) |
| `Settings.Nr2Config` | nr2.js:4-10 | nr2.js's configuration: the given leverage and risk, no MACD, sizing from the total balance, pairs `BTC/USDC:USDC`, `ETH/USDC:USDC`, `SOL/USDC:USDC` (nr2.js:188-192) |
| `Indicators.Alpha` | bun.js:20 | definition of the smoothing factor k = 2/(period + 1); its range is stated by `AlphaInUnitInterval` |
| `Indicators.EmaStep` | bun.js:24 | definition of one EMA step, value·k + previous·(1 − k); its bounds are stated by `StepBetween` |
| `Indicators.AlphaInUnitInterval` | bun.js:20 | the smoothing factor 2/(period+1) lies in (0, 1] for every period of at least 1 |
| `Indicators.EmaOf` | bun.js:19-27 | the EMA series has exactly as many elements as the input |
| `Indicators.EmaRecurrence` | bun.js:20-24 | the EMA is seeded with the first value, and each later element is value·k + previous average·(1−k) |
| `Indicators.EmaPrefix` | bun.js:23-24 | the EMA is causal: the EMA of the first j values is the first j elements of the EMA |
| `Indicators.StepBetween` | bun.js:24 | one EMA step between two values of an interval, with k in [0, 1], stays in that interval |
| `Indicators.EmaBounds` | bun.js:19-27 | with k in [0, 1], every EMA element lies within any bounds of the input values |
| `Indicators.EmaConstant` | bun.js:19-27 | for every smoothing factor k, the EMA of a constant series is that constant throughout |
| `Indicators.Ema` | bun.js:19-27 | the push loop returns exactly `EmaOf` with k = 2/(period+1): same length, seeded, satisfying the recurrence (nr2.js:39-47 is the same loop) |
| `Indicators.EmaExample` | bun.js:19-27 | EMA([10, 20, 30], 9) = [10, 12, 15.6] |
| `Indicators.Gain` | bun.js:33-34 | definition: the difference at i when it is ≥ 0, else 0 |
| `Indicators.Loss` | bun.js:33-35 | definition: the absolute value of the difference at i when it is negative, else 0 |
| `Indicators.GainSum` | bun.js:32-34 | the accumulated gains are never negative |
| `Indicators.LossSum` | bun.js:32-35 | the accumulated losses (absolute values of the negative differences) are never negative |
| `Indicators.RsiFormula` | bun.js:38-40 | with losses > 0, 100 − 100/(1 + gains/losses) lies in [0, 100) and is 0 exactly when the gains are 0 |
| `Indicators.RsiOf` | bun.js:29-41 | the RSI always lies in [0, 100] |
| `Indicators.LossSumZero` | bun.js:32-35 | the losses are zero exactly when no difference in the window is negative |
| `Indicators.GainSumZero` | bun.js:32-34 | the gains are zero exactly when no difference in the window is positive |
| `Indicators.RsiHundred` | bun.js:32-38 | RSI = 100 if and only if none of the last `period` differences is negative |
| `Indicators.RsiZero` | bun.js:32-40 | RSI = 0 if and only if no difference in the window is positive and at least one is negative |
| `Indicators.Rsi` | nr2.js:49-62 | the accumulating loop returns exactly `RsiOf` over the last `period` differences, a value in [0, 100] (bun.js:29-41 is the same loop) |
| `Indicators.MacdLine` | bun.js:44-46 | the MACD line has exactly as many elements as the input |
| `Indicators.Macd` | bun.js:43-53 | definition: the last element of the MACD line and of its EMA(9); its properties are stated by `MacdBounded` and `MacdFlat` |
| `Indicators.MacdBounded` | bun.js:43-53 | for prices within [lo, hi], the reported MACD and signal values lie within [lo − hi, hi − lo] |
| `Indicators.MacdFlat` | bun.js:43-53 | on a constant series the reported MACD and signal are both 0 |
| `Signals.Confirms` | bun.js:68-71 | definition of the MACD condition: macd > signal for LONG, macd < signal for SHORT, no condition without MACD (nr2.js:76-77) |
| `Signals.SignalOf` | bun.js:58-75 | definition of the signal of a window; no signal under 15 closes; characterised by `LongIff`, `ShortIff` and `ShortWindowNoSignal` |
| `Signals.Decide` | bun.js:68-74 | LONG iff fast > slow, rsi > 50 and the MACD confirms upwards; SHORT iff fast < slow, rsi < 50 and the MACD confirms downwards; the order of the two tests does not matter |
| `Signals.GetSignal` | bun.js:58-75 | the signal computed with the indicator loops equals `SignalOf` of the window |
| `Signals.ShortWindowNoSignal` | bun.js:32-33 | a window of fewer than 15 closes gives no signal |
| `Signals.FlatWindowNoSignal` | bun.js:63-74 | a window of identical closes never gives a signal, in either variant |
| `Signals.LongIff` | bun.js:63-69 | LONG exactly when EMA(9) > EMA(21), RSI(14) > 50 and, with MACD on, MACD > signal |
| `Signals.ShortIff` | bun.js:63-72 | SHORT exactly when EMA(9) < EMA(21), RSI(14) < 50 and, with MACD on, MACD < signal |
| `Signals.MacdOnlyFilters` | nr2.js:76-79 | whenever the MACD-confirmed rule (bun.js) signals, the plain rule (nr2.js) gives the same signal for the same window |
| `Sizing.CalcSize` | bun.js:80-83 | the order's notional size·price equals balance·risk·leverage |
| `Sizing.SizeLinearInBalance` | bun.js:80-83 | scaling the balance by c scales the size by c |
| `Sizing.SizeLinearInLeverage` | nr2.js:85-88 | scaling the leverage by c scales the size by c |
| `Sizing.SizeInverseInPrice` | bun.js:82 | multiplying the price by c > 0 divides the size by c |
| `Sizing.SizeNonNegative` | bun.js:80-83 | with non-negative balance, risk and leverage the size is non-negative |
| `Sizing.SizeExample` | bun.js:7-8 | with the bun.js defaults (leverage 5, risk 0.05), a balance of 1000 at price 50000 gives 0.005 |
| `Trailing.Profit` | bun.js:94-97 | definition of the unrealised profit: (mark − entry)/entry for a long, (entry − mark)/entry for a short |
| `Trailing.Observe` | bun.js:99-107 | definition of the state update; characterised by `ObserveFresh`, `ObservePeak` and `ObserveArming` |
| `Trailing.Fires` | bun.js:109-118 | definition of the close decision; characterised by `FiresIff` |
| `Trailing.ObserveFresh` | bun.js:99-107 | a symbol without an entry starts at peak = mark, armed only if already 12% in profit |
| `Trailing.ObservePeak` | bun.js:104-105 | the peak ratchets: for a long it becomes max(peak, mark), for a short min(peak, mark) |
| `Trailing.ObserveArming` | nr2.js:112 | after an observation the stop is armed iff it was armed or profit ≥ 0.12: arming is sticky |
| `Trailing.FiresIff` | bun.js:109-118 | an unarmed stop never closes; an armed long closes iff mark ≤ peak·0.97, an armed short iff mark ≥ peak·1.03 |
| `Trailing.NoCloseAtNewPeak` | bun.js:104-118 | a positive mark that has just become the peak never closes the position |
| `Trailing.TrackLongPeak` | bun.js:104 | over any run of long observations the peak is the best price seen: at least the start and every mark, and equal to one of them |
| `Trailing.TrackShortPeak` | nr2.js:110 | over any run of short observations the peak is the lowest price seen: at most the start and every mark, and equal to one of them |
| `Trailing.TrackArming` | bun.js:107 | over any run the stop ends armed iff it started armed or some observation reached 12% profit; it never disarms |
| `Trailing.LongScenario` | bun.js:88-119 | a long entered at 100: mark 115 arms the stop at peak 115 without closing, then mark 111 closes it |
| `Reconcile.Live` | bun.js:150 | definition: a position is visited unless its contracts are absent or zero |
| `Reconcile.OpenSide` | bun.js:136 | definition: LONG buys, SHORT sells |
| `Reconcile.CloseOrder` | bun.js:156-160 | the close order is for the position's symbol, on the opposite side (long → sell, short → buy), for \|contracts\| > 0 |
| `Reconcile.CloseReversesOpen` | nr2.js:142-164 | the close of a position opened on a signal trades the other way from the open (LONG → buy, SHORT → sell) |
| `Reconcile.Visit` | bun.js:150-163 | definition of one step of the sweep: skip a position that is not live; otherwise observe it and, if the stop fires, delete its entry and emit its close |
| `Reconcile.VisitTouchesOnlyItsSymbol` | bun.js:150-163 | one position changes at most its own symbol's entry; it emits an order exactly when it is live and its entry was deleted, and that order is its close order |
| `Reconcile.Manage` | bun.js:148-164 | the sweep emits at most one order per position |
| `Reconcile.ManageUntouched` | bun.js:162 | a symbol without a live position in the list keeps its entry, or its absence: nothing prunes entries of vanished positions |
| `Reconcile.ManageOrderAt` | bun.js:150-160 | the j-th order of the sweep is the close order of a live position at some index of the list |
| `Reconcile.ManageOrders` | bun.js:150-160 | every order of the sweep is the close order of a live position in the list |
| `Reconcile.ManageEntry` | nr2.js:154-169 | with one live position per symbol, a live position whose stop fires has its entry deleted and its close emitted; otherwise its entry holds the updated state and no close is emitted |
| `Reconcile.StaleEntryClosesNewPosition` | bun.js:162 | a stale armed entry surviving the sweep closes a new long on its symbol at its first visit when it was opened at or below 97% of the old peak |
| `Reconcile.StaleEntryExample` | bun.js:99-118 | an armed entry at peak 100 closes a new long entered and marked at 90 |
| `Reconcile.OpenCount` | nr2.js:183-184 | the post-close count is at most the number of positions (a position with absent contracts counts, since undefined != 0) |
| `Reconcile.Funds` | bun.js:173 | definition of the sizing balance: free, 0 when missing (bun.js), or total (nr2.js:179) |
| `Reconcile.FundsByVariant` | nr2.js:179 | nr2.js sizes from total[USDC]; bun.js (bun.js:173) from free, falling back to 0 |
| `Reconcile.OpenOrder` | bun.js:124-138 | definition of the order `openTrade` submits: the pair, the signal's side, `CalcSize` of the funds at the last price |
| `Reconcile.OpenFor` | bun.js:190-193 | definition: a signalling pair gives its open order, any other pair nothing |
| `Reconcile.Opens` | bun.js:188-194 | the open loop emits at most one order per pair |
| `Reconcile.OpensStep` | bun.js:188-194 | one more pair appends that pair's open order, if any, after the orders of the pairs before it |
| `Reconcile.OpensThreePairs` | bun.js:182-194 | with three pairs, the open orders are BTC's, then ETH's, then SOL's, each present iff that pair signals |
| `Reconcile.OpensSound` | bun.js:124-138 | every open order is for a signalling pair, on the side of its signal, sized by `CalcSize` from the funds and the pair's last price |
| `Reconcile.OpensComplete` | nr2.js:194-200 | every signalling pair gets its open order |
| `Reconcile.CycleOpens` | bun.js:177-180 | with three or more positions counted open there are no open orders; otherwise at most one per pair |
| `Reconcile.HeldPairStillOpened` | bun.js:188-194 | below the cap, a signalling pair is opened even when the post-close snapshot already holds a live position in it |
| `Reconcile.CapCheckedOnce` | bun.js:180 | with two positions counted open and all three pairs signalling, the cycle emits three open orders on top of them: the cap is not rechecked inside the loop |
| `Reconcile.Engine.constructor` | bun.js:13 | the engine starts with an empty trailing map |
| `Reconcile.Engine.CheckTrailing` | bun.js:88-119 | the map gains or updates exactly the position's entry, to `Observe` of its old entry, and the result is `Fires` of the new entry (nr2.js:93-124 is the same) |
| `Reconcile.Engine.ManagePositions` | bun.js:144-165 | the new trailing map and the close orders are exactly `Manage` of the old map and the position list |
| `Reconcile.Engine.OpenTrades` | nr2.js:194-200 | the open loop returns exactly `Opens` over the configured pairs |
| `Reconcile.Engine.Cycle` | bun.js:170-195 | the trailing map becomes the sweep's; the orders are the sweep's closes followed by `CycleOpens`, which is empty when three or more positions count as open (nr2.js:176-201 is the same with `total` funds) |

## Left out

- Exchange I/O is not modelled: `fetchBalance`, `fetchPositions`, `fetchOHLCV`, `fetchTicker`, `setLeverage`, `createMarketOrder` and `loadMarkets`. Reads are input snapshots and orders are returned values. `setLeverage` before each open is omitted, because it does not affect the decision.
- The timeframe and candle limit passed to `fetchOHLCV` (`'15m'`, 100) are not modelled. The closes arrive as input.
- The `setInterval` scheduling, possible overlap of cycles, the HTTP health servers, and console logging are not modelled (timers, concurrency, output).
- Environment-variable parsing (`parseInt`, `parseFloat`, `Number`) is not modelled. Leverage and risk are parameters of `BunConfig` and `Nr2Config`, with the defaults as constants.
- No error handling is modelled. The source has none: a failed exchange call rejects the whole cycle.
- IEEE-754 rounding, NaN and Infinity are not modelled. Prices are exact reals.
- Division by a zero entry price is not modelled. Live positions must have a positive entry price (`EntriesPositive`).
- Division by a zero ticker price is not modelled. Every configured pair must have a positive last price (`Quoted`), although the source reads the ticker only for signalling pairs.
- If `total[USDC]` is missing, nr2.js sizes orders as NaN. This is excluded by `FundsKnown`.
- A `contracts` value of NaN is not modelled, and the side is either `long` or `short`. Absent `contracts` is modelled (`Option`).
- Indicators.Rsi requires period + 1 ≤ |values|. The JavaScript NaN result on shorter input appears only through `Signals.SignalOf` returning no signal. The case of period 0 with an empty array is not covered.
- Reconcile.ManageEntry requires one live position per symbol. With two positions on one symbol (hedge mode), both share one trailing entry in the source. `ManageUntouched` and `ManageOrders` hold without this assumption.
- Reconcile.OpensSound and Reconcile.OpensComplete do not by themselves state the order of the orders. Order is stated by `Opens`'s definition and, for the three configured pairs, by `OpensThreePairs`.
- bot.js is not part of this model. It tests the connection and logs balances, and has no decision engine.
