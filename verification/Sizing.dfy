/** Risk-parity position sizing and the execution cost model. */
module Sizing {
  import opened Wrappers
  import opened Arithmetic
  import opened Domain

  const RISK_BUDGET_PCT := 0.004
  const STOP_ATR_MULT := 2.5
  const TARGET_ATR_MULT := 3.0
  const TRAIL_ATR_MULT := 3.0
  const MAX_POSITION_PCT := 0.025
  const MIN_NOTIONAL := 100.0

  datatype PositionSize = PositionSize(
    shares: real, notional: real, stopPrice: real, targetPrice: real, riskAmount: real)

  function RawShares(equity: real, price: real, atr: real, cash: real): real
    requires price > 0.0 && atr > 0.0
  {
    var riskShares := RISK_BUDGET_PCT * equity / (STOP_ATR_MULT * atr);
    var maxPositionShares := MAX_POSITION_PCT * equity / price;
    var affordableShares := cash / price;
    Min(Min(riskShares, maxPositionShares), affordableShares)
  }

  function SizePosition(equity: real, price: real, atr: real, cash: real): Option<PositionSize> {
    if equity <= 0.0 || price <= 0.0 || atr <= 0.0 || cash <= 0.0 then None
    else
      var stopDistance := STOP_ATR_MULT * atr;
      var shares := RawShares(equity, price, atr, cash);
      var notional := shares * price;
      if shares <= 0.0 || notional < MIN_NOTIONAL then None
      else Some(PositionSize(shares, notional, price - stopDistance,
                             price + TARGET_ATR_MULT * atr, shares * stopDistance))
  }

  /** The three limits a new position must respect: its stop may cost at most 0.4% of equity,
      it may take at most 2.5% of equity, and it must be affordable. */
  ghost predicate WithinLimits(shares: real, equity: real, price: real, atr: real, cash: real) {
    && shares * (2.5 * atr) <= 0.004 * equity
    && shares * price <= 0.025 * equity
    && shares * price <= cash
  }

  lemma QuotientBound(x: real, a: real, b: real)
    requires b > 0.0
    ensures x * b <= a <==> x <= a / b
  {
    var q := a / b;
    assert q * b == a;
    if x <= q {
      MulMono(b, x, q);
    } else {
      assert (x - q) * b > 0.0;
      assert x * b == (x - q) * b + q * b;
    }
  }

  lemma WithinLimitsIff(x: real, equity: real, price: real, atr: real, cash: real)
    requires price > 0.0 && atr > 0.0
    ensures WithinLimits(x, equity, price, atr, cash) <==> x <= RawShares(equity, price, atr, cash)
  {
    QuotientBound(x, RISK_BUDGET_PCT * equity, STOP_ATR_MULT * atr);
    QuotientBound(x, MAX_POSITION_PCT * equity, price);
    QuotientBound(x, cash, price);
  }

  lemma DustBound(x: real, price: real, best: real, least: real)
    requires price > 0.0 && x <= best && least > 0.0 && (best <= 0.0 || Amount(best, price) < least)
    ensures Amount(x, price) < least
  {
    MulMono(price, x, best);
    if best <= 0.0 { MulMono(price, best, 0.0); }
  }

  /** The raw size is the largest within the limits, and being below the minimum decides for all of them. */
  lemma RawIsLargest(equity: real, price: real, atr: real, cash: real)
    requires price > 0.0 && atr > 0.0
    ensures var best := RawShares(equity, price, atr, cash);
      && WithinLimits(best, equity, price, atr, cash)
      && (forall x :: WithinLimits(x, equity, price, atr, cash) ==> x <= best)
      && (best <= 0.0 || Amount(best, price) < 100.0 ==>
            forall x :: WithinLimits(x, equity, price, atr, cash) ==> Amount(x, price) < 100.0)
  {
    hide RawShares, WithinLimits;
    var best := RawShares(equity, price, atr, cash);
    WithinLimitsIff(best, equity, price, atr, cash);
    forall x | WithinLimits(x, equity, price, atr, cash) ensures x <= best {
      WithinLimitsIff(x, equity, price, atr, cash);
    }
    if best <= 0.0 || Amount(best, price) < 100.0 {
      forall x | WithinLimits(x, equity, price, atr, cash) ensures Amount(x, price) < 100.0 {
        WithinLimitsIff(x, equity, price, atr, cash);
        DustBound(x, price, best, 100.0);
      }
    }
  }

  /** `SizePosition` finds the largest size within all three limits, with its stop 2.5 ATR below and its target 3 ATR above the
      price. It refuses exactly when there is nothing to size or even that size is below 100 dollars. */
  lemma SizeIsLargest(equity: real, price: real, atr: real, cash: real)
    ensures match SizePosition(equity, price, atr, cash)
      case Some(p) =>
        && equity > 0.0 && price > 0.0 && atr > 0.0 && cash > 0.0
        && WithinLimits(p.shares, equity, price, atr, cash)
        && (forall x :: WithinLimits(x, equity, price, atr, cash) ==> x <= p.shares)
        && p.notional == p.shares * price >= 100.0
        && p.stopPrice == price - 2.5 * atr && p.targetPrice == price + 3.0 * atr && p.riskAmount == p.shares * (2.5 * atr)
      case None =>
        equity > 0.0 && price > 0.0 && atr > 0.0 && cash > 0.0 ==>
          forall x :: WithinLimits(x, equity, price, atr, cash) ==> Amount(x, price) < 100.0
  {
    hide RawShares, WithinLimits;
    if equity > 0.0 && price > 0.0 && atr > 0.0 && cash > 0.0 {
      RawIsLargest(equity, price, atr, cash);
    }
  }

  /** What every accepted size satisfies. */
  lemma SizeBounds(equity: real, price: real, atr: real, cash: real)
    requires SizePosition(equity, price, atr, cash).Some?
    ensures var p := SizePosition(equity, price, atr, cash).value;
      && equity > 0.0 && price > 0.0 && atr > 0.0 && cash > 0.0
      && p.shares > 0.0 && WithinLimits(p.shares, equity, price, atr, cash)
      && p.notional == p.shares * price >= 100.0
  {
    SizeIsLargest(equity, price, atr, cash);
  }
}

module CostModel {
  import opened Wrappers
  import opened Arithmetic
  import opened Domain

  const SLIPPAGE_BPS := 5.0
  const HALF_SPREAD_BPS := 2.0
  const IMPACT_BPS_PER_SPIKE := 3.0

  /** A pricing rule turns a mid price, a side and a volume ratio into an execution price. */
  type Pricing = (real, Side, Option<real>) -> real

  function CostBps(volumeRatio: Option<real>): (bps: real)
    ensures 7.0 <= bps <= 16.0
  {
    SLIPPAGE_BPS + HALF_SPREAD_BPS +
    if volumeRatio.Some? && volumeRatio.value > 1.5
    then IMPACT_BPS_PER_SPIKE * Min(volumeRatio.value - 1.5, 3.0)
    else 0.0
  }

  function FillPrice(mid: real, side: Side, volumeRatio: Option<real>): real {
    Adjusted(mid, side, CostBps(volumeRatio))
  }

  function Adjusted(mid: real, side: Side, bps: real): real {
    var adj := mid * bps / 10000.0;
    if side == Buy then mid + adj else mid - adj
  }

  /** Execution at the mid: no cost. */
  function MidPrice(mid: real, side: Side, volumeRatio: Option<real>): real { mid }

  lemma AdjustedBand(mid: real, bps: real)
    requires mid >= 0.0 && 7.0 <= bps <= 16.0
    ensures mid * 1.0007 <= Adjusted(mid, Buy, bps) <= mid * 1.0016
    ensures mid * 0.9984 <= Adjusted(mid, Sell, bps) <= mid * 0.9993
  {
    MulMono(mid, 7.0, bps);
    MulMono(mid, bps, 16.0);
  }

  /** The cost of a fill, in basis points of the mid price: seven in quiet trading, three more for each unit by which volume exceeds
      one and a half times its average, and sixteen from four and a half times on; a buy pays them and a sale gives them up. */
  lemma CostOf(mid: real, volumeRatio: Option<real>)
    ensures var paid, taken := FillPrice(mid, Buy, volumeRatio) - mid, mid - FillPrice(mid, Sell, volumeRatio);
      && paid == taken
      && (volumeRatio.None? || volumeRatio.value <= 1.5 ==> paid == mid * 0.0007)
      && (volumeRatio.Some? && 1.5 <= volumeRatio.value <= 4.5 ==> paid == mid * (0.0007 + 0.0003 * (volumeRatio.value - 1.5)))
      && (volumeRatio.Some? && volumeRatio.value >= 4.5 ==> paid == mid * 0.0016)
  {}

  /** Costs always go against the trade, by between 7 and 16 basis points. */
  lemma CostBand(mid: real, volumeRatio: Option<real>)
    requires mid >= 0.0
    ensures mid * 1.0007 <= FillPrice(mid, Buy, volumeRatio) <= mid * 1.0016
    ensures mid * 0.9984 <= FillPrice(mid, Sell, volumeRatio) <= mid * 0.9993
  {
    AdjustedBand(mid, CostBps(volumeRatio));
  }
}
