/**
  Exit prices (src/strategy/exit_calculator.py) and the four exit conditions
  (src/strategy/exit_checker.py). A `ValueError` is a `Failure`.
*/
module ExitRules {
  import opened Wrappers
  import opened Decimals
  import opened Enums
  import opened MarketData

  datatype ValueError = NotPositive | Negative | MustDiffer

  /** Stop and target prices of a planned entry. */
  datatype ExitPrices = ExitPrices(stop: real, target: real)

  function FixedPercentage(entry: real, stopPct: real, targetPct: real): Result<ExitPrices, ValueError> {
    if entry <= 0.0 then Failure(NotPositive)
    else if stopPct < 0.0 || targetPct < 0.0 then Failure(Negative)
    else Success(ExitPrices(entry * (1.0 - stopPct / 100.0), entry * (1.0 + targetPct / 100.0)))
  }

  function AtrBased(entry: real, atr: real, stopMult: real, targetMult: real): Result<ExitPrices, ValueError> {
    if entry <= 0.0 || atr <= 0.0 then Failure(NotPositive)
    else
      var stop := entry - atr * stopMult;
      Success(ExitPrices(if stop <= 0.0 then 1.0 else stop, entry + atr * targetMult))
  }

  function TrailingStopPrice(highest: real, trailingPct: real): Result<real, ValueError> {
    if highest <= 0.0 || trailingPct <= 0.0 then Failure(NotPositive)
    else Success(highest * (1.0 - trailingPct / 100.0))
  }

  function RiskRewardRatio(entry: real, stop: real, target: real): Result<real, ValueError> {
    if Abs(entry - stop) == 0.0 then Failure(MustDiffer)
    else Success(Cents(Abs(target - entry) / Abs(entry - stop)))
  }

  function CheckStopLoss(price: real, stop: real): Option<ExitReason> {
    if price <= stop then Some(ExitReason.StopLoss) else None
  }

  function CheckTakeProfit(price: real, target: Option<real>): Option<ExitReason> {
    if target.Some? && price >= target.value then Some(ExitReason.TakeProfit) else None
  }

  function CheckTrailingStop(price: real, trailingPrice: real): Option<ExitReason> {
    if price <= trailingPrice then Some(ExitReason.TrailingStop) else None
  }

  function CheckTimeBased(entryDate: Day, today: Day, maxDays: Option<int>): Option<ExitReason> {
    if maxDays.Some? && today - entryDate >= maxDays.value then Some(ExitReason.TimeBased) else None
  }
}
