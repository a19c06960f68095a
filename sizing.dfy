/** The position sizer: balance times risk fraction times leverage, over price. */
module Sizing {
  import opened Settings

  /**
   * The quantity to order: the notional `size * price` is the risked capital
   * `balance * risk` times the leverage.
   */
  function CalcSize(cfg: Config, balance: real, price: real): (size: real)
    requires price > 0.0
    ensures size * price == balance * cfg.risk * cfg.leverage
  {
    var risked := balance * cfg.risk;
    (risked * cfg.leverage) / price
  }

  /** The size is linear in the balance. */
  lemma SizeLinearInBalance(cfg: Config, balance: real, price: real, c: real)
    requires price > 0.0
    ensures CalcSize(cfg, c * balance, price) == c * CalcSize(cfg, balance, price)
  {
    var s1 := CalcSize(cfg, balance, price);
    var s2 := CalcSize(cfg, c * balance, price);
    assert s2 * price == c * (s1 * price);
    assert (s2 - c * s1) * price == 0.0;
  }

  /** The size is linear in the leverage. */
  lemma SizeLinearInLeverage(cfg: Config, balance: real, price: real, c: real)
    requires price > 0.0
    ensures CalcSize(cfg.(leverage := c * cfg.leverage), balance, price) == c * CalcSize(cfg, balance, price)
  {
    var s1 := CalcSize(cfg, balance, price);
    var s2 := CalcSize(cfg.(leverage := c * cfg.leverage), balance, price);
    assert s2 * price == c * (s1 * price);
    assert (s2 - c * s1) * price == 0.0;
  }

  /** The size is inversely proportional to the price. */
  lemma SizeInverseInPrice(cfg: Config, balance: real, price: real, c: real)
    requires price > 0.0 && c > 0.0
    ensures c * CalcSize(cfg, balance, c * price) == CalcSize(cfg, balance, price)
  {
    var s1 := CalcSize(cfg, balance, price);
    var s2 := CalcSize(cfg, balance, c * price);
    assert s2 * (c * price) == s1 * price;
    assert (c * s2 - s1) * price == 0.0;
  }

  /** With a non-negative balance, risk and leverage the size is never negative. */
  lemma SizeNonNegative(cfg: Config, balance: real, price: real)
    requires price > 0.0 && balance >= 0.0 && cfg.risk >= 0.0 && cfg.leverage >= 0.0
    ensures CalcSize(cfg, balance, price) >= 0.0
  {
    var s := CalcSize(cfg, balance, price);
    assert balance * cfg.risk >= 0.0;
    assert s * price >= 0.0;
  }

  /** 1000 at 5% risk and leverage 5, at a price of 50000: 0.005. */
  lemma SizeExample()
    ensures CalcSize(BUN_DEFAULTS, 1000.0, 50000.0) == 0.005
  {
  }
}
