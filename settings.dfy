/**
 * The run configuration of the two bot variants. Both share one engine and
 * differ only in the values below: whether the MACD must confirm a signal,
 * the default risk fraction, which balance field sizes new orders, and the
 * names of the three traded pairs.
 */
module Settings {

  /** The settlement currency of both variants. */
  const BASE := "USDC"

  /** Which field of the base-currency balance sizes new orders. */
  datatype FundsField = Free | Total

  datatype Config = Config(
    leverage: real,
    risk: real,
    useMacd: bool,
    funds: FundsField,
    pairs: seq<string>)

  /** bun.js: MACD confirmation, free balance, pairs "BTC/USDC", "ETH/USDC", "SOL/USDC". */
  function BunConfig(leverage: real, risk: real): Config {
    Config(leverage, risk, true, Free, ["BTC/" + BASE, "ETH/" + BASE, "SOL/" + BASE])
  }

  /** nr2.js: no MACD, total balance, perpetual pairs "BTC/USDC:USDC", ... */
  function Nr2Config(leverage: real, risk: real): Config {
    Config(leverage, risk, false, Total, ["BTC/USDC:USDC", "ETH/USDC:USDC", "SOL/USDC:USDC"])
  }

  /** Defaults when the environment sets nothing: leverage 5, risk 5% (bun.js) or 3% (nr2.js). */
  const BUN_DEFAULTS := BunConfig(5.0, 0.05)
  const NR2_DEFAULTS := Nr2Config(5.0, 0.03)
}
