/** The domain enumerations the model uses (src/core/enums.py). */
module Enums {
  datatype OrderSide = Buy | Sell

  datatype OrderType = Market | Limit

  datatype OrderStatus = Pending | Submitted | Filled | PartiallyFilled | Cancelled | Rejected | Failed

  datatype PositionStatus = Open | Closed | PartiallyClosed

  datatype SignalAction = Buy | Sell | Hold

  datatype DecisionAction = Buy | Sell | Hold | Approve | Reject | StopLoss | TakeProfit

  datatype ApprovalStatus = AutoApproved | Approved | Rejected | Timeout

  datatype WebVerifyResult = Safe | Warning | Blocked

  datatype StrategyType = PositionTrading | SwingTrading

  datatype ExitReason =
    | StopLoss
    | TakeProfit
    | TrailingStop
    | TimeBased
    | Fundamental
    | LlmSignal
    | Drawdown
    | Manual

  datatype BacktestMode = Technical | LlmReplay | LlmLive

  datatype BacktestStatus = Completed | Failed
}
