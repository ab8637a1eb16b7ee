/**
  The approval manager (src/execution/approval.py): its pure decisions, and its in-memory state with one operation
  per await-free segment. The protocol around it, with its awaits and database writes, is in Protocol.dfy.
*/
module Approval {
  import opened Wrappers
  import opened Decimals
  import opened Enums
  import opened MarketData
  import RiskGate

  type RequestId = nat

  datatype TradeDecision =
    TradeDecision(symbol: Symbol, action: DecisionAction, orderType: OrderType, quantity: int, price: Option<real>,
                  stop: Option<real>)

  datatype Settings = Settings(humanApprovalRequired: bool, autoExecuteMaxPct: real)

  /** `_ACTION_TO_SIDE.get(action, BUY)`: anything that is not an exit counts as a buy. */
  function SideOf(action: DecisionAction): OrderSide {
    if action in {DecisionAction.Sell, DecisionAction.StopLoss, DecisionAction.TakeProfit} then OrderSide.Sell
    else OrderSide.Buy
  }

  /** `_check_auto_approve`, with the portfolio percentage its caller computes. */
  predicate AutoApproves(settings: Settings, d: TradeDecision, totalValue: real) {
    var value := Amount(d.price.GetOr(0.0), d.quantity);
    var pct := if totalValue > 0.0 then PctOf(value, totalValue) else 0.0;
    || !settings.humanApprovalRequired
    || d.action in {DecisionAction.StopLoss, DecisionAction.TakeProfit}
    || (d.action == DecisionAction.Sell && d.price.Some? && pct <= settings.autoExecuteMaxPct)
  }

  /** The portfolio share a sale may have to go through on its own. */
  ghost predicate SmallSale(settings: Settings, d: TradeDecision, totalValue: real) {
    && d.action == DecisionAction.Sell && d.price.Some?
    && if totalValue > 0.0 then d.price.value * d.quantity as real <= totalValue * settings.autoExecuteMaxPct / 100.0
       else settings.autoExecuteMaxPct >= 0.0
  }

  /** What is approved automatically, for every decision; and what counts as a sale. */
  lemma AutomaticExactly(settings: Settings, d: TradeDecision, totalValue: real)
    ensures !settings.humanApprovalRequired ==> AutoApproves(settings, d, totalValue)
    ensures d.action == DecisionAction.StopLoss || d.action == DecisionAction.TakeProfit ==>
              AutoApproves(settings, d, totalValue)
    ensures settings.humanApprovalRequired && d.action == DecisionAction.Sell ==>
              (AutoApproves(settings, d, totalValue) <==> SmallSale(settings, d, totalValue))
    ensures settings.humanApprovalRequired && SideOf(d.action) == OrderSide.Buy ==>
              !AutoApproves(settings, d, totalValue)
    ensures SideOf(d.action) == OrderSide.Sell <==>
              d.action == DecisionAction.Sell || d.action == DecisionAction.StopLoss
              || d.action == DecisionAction.TakeProfit
  {
    if d.price.Some? && totalValue > 0.0 {
      RiskGate.ShareOfTotal(Amount(d.price.value, d.quantity), totalValue, settings.autoExecuteMaxPct);
    }
  }

  /** A buy is never approved automatically while human approval is required. */
  lemma BuysNeedAHuman(settings: Settings, d: TradeDecision, totalValue: real)
    ensures settings.humanApprovalRequired && SideOf(d.action) == OrderSide.Buy ==>
              !AutoApproves(settings, d, totalValue)
  {
  }

  /** An ordinary sale is approved automatically only when priced and worth no more than its share of the portfolio. */
  lemma SmallSalesOnly(settings: Settings, d: TradeDecision, totalValue: real)
    requires settings.humanApprovalRequired && d.action == DecisionAction.Sell && totalValue > 0.0
    ensures AutoApproves(settings, d, totalValue) <==>
              d.price.Some? && Amount(d.price.value, d.quantity) <= Percent(totalValue, settings.autoExecuteMaxPct)
  {
    RiskGate.ShareOfTotal(Amount(d.price.GetOr(0.0), d.quantity), totalValue, settings.autoExecuteMaxPct);
  }

  // ---- Callback actions ----

  /** "approve", "reject", "modify:n" with the parsed number if it parses, or anything else. */
  datatype Tap = Approve | Reject | Modify(quantity: Option<int>) | Unknown

  /** What a tap decides: nothing, or a status and perhaps a quantity. */
  datatype Answer = Answer(status: ApprovalStatus, modified: Option<int>)

  function Decide(tap: Tap): Option<Answer> {
    match tap
    case Approve => Some(Answer(ApprovalStatus.Approved, None))
    case Reject => Some(Answer(ApprovalStatus.Rejected, None))
    case Modify(Some(n)) =>
      if n > 0 then Some(Answer(ApprovalStatus.Approved, Some(n))) else Some(Answer(ApprovalStatus.Rejected, None))
    case Modify(None) => Some(Answer(ApprovalStatus.Rejected, None))
    case Unknown => None
  }

  // ---- In-memory state ----

  /** Registered events with their flag, results, and modified quantities. */
  datatype Inbox =
    Inbox(events: map<RequestId, bool>, results: map<RequestId, ApprovalStatus>, modified: map<RequestId, int>)

  function Register(p: Inbox, r: RequestId): Inbox {
    p.(events := p.events[r := false])
  }

  /** The last segment of a callback: the result and quantity are stored before the event lookup, which may raise. */
  function Signal(p: Inbox, r: RequestId, answer: Answer): Inbox {
    p.(results := p.results[r := answer.status],
       modified := if answer.modified.Some? then p.modified[r := answer.modified.value] else p.modified,
       events := if r in p.events then p.events[r := true] else p.events)
  }

  /** What the woken waiter reads. */
  function Response(p: Inbox, r: RequestId): ApprovalStatus {
    if r in p.results then p.results[r] else ApprovalStatus.Timeout
  }

  /** The clean-up after an answer; modified quantities are kept. */
  function Forget(p: Inbox, r: RequestId): Inbox {
    p.(events := p.events - {r}, results := p.results - {r})
  }

  class ApprovalManager {
    const settings: Settings
    var pendingEvents: map<RequestId, bool>
    var pendingResults: map<RequestId, ApprovalStatus>
    var modifiedQuantities: map<RequestId, int>

    function State(): Inbox
      reads this
    {
      Inbox(pendingEvents, pendingResults, modifiedQuantities)
    }

    constructor (settings: Settings)
      ensures State() == Inbox(map[], map[], map[]) && this.settings == settings
    {
      this.settings := settings;
      pendingEvents, pendingResults, modifiedQuantities := map[], map[], map[];
    }

    /** `_handle_manual_approve`, from the last await before the wait. */
    method RegisterEvent(r: RequestId)
      modifies this`pendingEvents
      ensures State() == Register(old(State()), r)
    {
      pendingEvents := pendingEvents[r := false];
    }

    /** `_handle_callback` up to its first await: the answer of a decisive tap on a pending request. */
    method AcceptTap(tap: Tap, r: RequestId) returns (answer: Option<Answer>)
      ensures answer == if r in pendingEvents then Decide(tap) else None
    {
      if r !in pendingEvents {
        return None;
      }
      match tap {
        case Approve => answer := Some(Answer(ApprovalStatus.Approved, None));
        case Reject => answer := Some(Answer(ApprovalStatus.Rejected, None));
        case Modify(quantity) =>
          if quantity.None? || quantity.value <= 0 {
            answer := Some(Answer(ApprovalStatus.Rejected, None));
          } else {
            answer := Some(Answer(ApprovalStatus.Approved, quantity));
          }
        case Unknown => answer := None;
      }
    }

    /** `_handle_callback` after its last await. */
    method StoreAndSignal(r: RequestId, answer: Answer) returns (raised: bool)
      modifies this
      ensures State() == Signal(old(State()), r, answer)
      ensures raised <==> r !in old(pendingEvents)
    {
      pendingResults := pendingResults[r := answer.status];
      if answer.modified.Some? {
        modifiedQuantities := modifiedQuantities[r := answer.modified.value];
      }
      if r !in pendingEvents {
        return true;
      }
      pendingEvents := pendingEvents[r := true];
      return false;
    }

    /** The answer path of `_wait_for_response` and the clean-up behind it. */
    method TakeResponse(r: RequestId) returns (status: ApprovalStatus)
      modifies this`pendingEvents, this`pendingResults
      ensures status == Response(old(State()), r)
      ensures State() == Forget(old(State()), r)
    {
      status := if r in pendingResults then pendingResults[r] else ApprovalStatus.Timeout;
      pendingEvents := pendingEvents - {r};
      pendingResults := pendingResults - {r};
    }
  }
}
