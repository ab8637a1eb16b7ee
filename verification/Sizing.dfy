/** Fixed fractional position sizing (src/strategy/sizing.py). */
module Sizing {
  import opened Wrappers
  import opened Decimals
  import opened MarketData
  import opened ExitRules

  datatype Limits = Limits(riskPct: real, maxPositionPct: real, maxPositionKrw: real)

  datatype PositionSizing =
    PositionSizing(symbol: Symbol, quantity: int, positionValue: real, riskAmount: real, riskPctOfPortfolio: real,
                   positionPctOfPortfolio: real, riskReward: Option<real>)

  /** Shares that may still be bought under the two position caps, before the risk quantity applies. */
  function RemainingCap(limits: Limits, entry: real, total: real, existing: real): (n: int)
    requires entry > 0.0
    ensures n >= 0
  {
    var byPct := Units(Percent(total, limits.maxPositionPct), entry);
    var byKrw := Units(limits.maxPositionKrw, entry);
    var held := Units(existing, entry);
    MinInt(MaxInt(0, byPct - held), MaxInt(0, byKrw - held))
  }

  /** Shares whose distance to the stop stays within the risk budget, before the one-share floor. */
  function RawQuantity(limits: Limits, entry: real, stop: real, total: real): int
    requires entry != stop
  {
    Units(Percent(total, limits.riskPct), Abs(entry - stop))
  }

  function Quantity(limits: Limits, entry: real, stop: real, total: real, existing: real): int
    requires entry > 0.0 && entry != stop
  {
    MaxInt(0, MinInt(MaxInt(1, RawQuantity(limits, entry, stop, total)), RemainingCap(limits, entry, total, existing)))
  }

  function Calculate(limits: Limits, symbol: Symbol, entry: real, stop: real, target: Option<real>, total: real,
                     existing: real): Result<PositionSizing, ValueError> {
    if entry <= 0.0 || stop <= 0.0 then Failure(NotPositive)
    else if entry == stop then Failure(MustDiffer)
    else if total <= 0.0 then Failure(NotPositive)
    else
      var n := Quantity(limits, entry, stop, total, existing);
      var value := Amount(entry, n);
      var risk := Amount(Abs(entry - stop), n);
      var sizing := PositionSizing(symbol, n, value, risk,
                                   if n > 0 then Cents(PctOf(risk, total)) else 0.0,
                                   if n > 0 then Cents(PctOf(value, total)) else 0.0, None);
      match target
      case None => Success(sizing)
      case Some(t) =>
        match RiskRewardRatio(entry, stop, t)
        case Failure(e) => Failure(e)
        case Success(ratio) => Success(sizing.(riskReward := Some(ratio)))
  }
}
