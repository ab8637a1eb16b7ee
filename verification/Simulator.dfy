/**
  The simulated broker (src/backtest/simulator.py): the class and, beside it, the account functions
  its methods are proved against.
*/
module Simulator {
  import opened Wrappers
  import opened Decimals
  import opened Dicts
  import opened Enums
  import opened MarketData

  /** `quantity: int = Field(gt=0)`: the request constructor refuses anything else. */
  type Shares = n: int | n > 0 witness 1

  datatype OrderRequest =
    OrderRequest(symbol: Symbol, side: OrderSide, orderType: OrderType, quantity: Shares, price: Option<real>)

  datatype OrderResult =
    OrderResult(orderId: nat, symbol: Symbol, side: OrderSide, orderType: OrderType, quantity: Shares,
                filledPrice: real, commission: real, date: Day)

  datatype OrderError =
    | DateNotSet
    | NoPriceData
    | LimitNeedsPrice
    | InsufficientFunds
    | NoPosition
    | InsufficientQuantity

  datatype Position =
    Position(symbol: Symbol, quantity: int, averageCost: real, currentPrice: real, marketValue: real,
             unrealizedPnl: real,
             unrealizedPnlPct: real, status: PositionStatus, entryDate: Day)

  /** Slippage in basis points and the commission rates, already divided by 100. */
  datatype Costs = Costs(slippageBps: int, buyRate: real, sellRate: real)

  datatype Account =
    Account(cash: real, positions: Dict<Symbol, Position>, orders: seq<OrderResult>, orderCounter: nat,
            realizedPnl: real, currentDate: Option<Day>)

  datatype AccountBalance =
    AccountBalance(totalAssets: real, cash: real, invested: real, unrealizedPnl: real, realizedPnl: real,
                   positionsCount: nat)

  function NewAccount(capital: real): Account {
    Account(capital, Empty(), [], 0, 0.0, None)
  }

  // ---- Prices and costs ----

  function SlippagePrice(costs: Costs, side: OrderSide, base: real): real {
    var rate := costs.slippageBps as real / 10000.0;
    RoundHalfUp(Scaled(base, if side == OrderSide.Buy then rate else -rate)) as real
  }

  function Commission(costs: Costs, side: OrderSide, amount: real): real {
    RoundHalfUp(amount * if side == OrderSide.Buy then costs.buyRate else costs.sellRate) as real
  }

  function PnlPct(price: real, cost: real): real {
    if cost != 0.0 then (price - cost) / cost * 100.0 else 0.0
  }

  // ---- Valuation ----

  function MarkedAt(p: Position, close: real): Position {
    p.(currentPrice := close,
       marketValue := Amount(close, p.quantity),
       unrealizedPnl := Amount(close - p.averageCost, p.quantity),
       unrealizedPnlPct := PnlPct(close, p.averageCost))
  }

  /** A held position with a bar on `day` is marked at that close; any other keeps its last valuation. */
  function Marked(loader: Loader, sym: Symbol, p: Position, day: Day): Position {
    if p.quantity <= 0 then p
    else
      match GetClose(loader, sym, day)
      case None => p
      case Some(close) => MarkedAt(p, close)
  }

  function SetDate(loader: Loader, a: Account, day: Day): Account {
    a.(currentDate := Some(day),
       positions := Dict(a.positions.keys,
                         map sym | sym in a.positions.vals :: Marked(loader, sym, a.positions.vals[sym], day)))
  }

  function OpenValue(p: Position): real { if p.quantity > 0 then p.marketValue else 0.0 }

  function OpenCost(p: Position): real { if p.quantity > 0 then Amount(p.averageCost, p.quantity) else 0.0 }

  function OpenPnl(p: Position): real { if p.quantity > 0 then p.unrealizedPnl else 0.0 }

  function TotalValue(a: Account): real {
    a.cash + Sum(a.positions, OpenValue)
  }

  // ---- Orders ----

  /** Shares of an open position held in the account, 0 when there is none. */
  function Held(a: Account, sym: Symbol): int {
    if sym in a.positions.vals && a.positions.vals[sym].quantity > 0 then a.positions.vals[sym].quantity else 0
  }

  /** A market order fills at the open of the day plus slippage, a limit order at its own price. */
  function FillPrice(loader: Loader, costs: Costs, day: Day, order: OrderRequest): Result<real, OrderError> {
    match order.orderType
    case Market =>
      (match GetOpen(loader, order.symbol, day)
       case Some(price) => Success(SlippagePrice(costs, order.side, price))
       case None => Failure(NoPriceData))
    case Limit =>
      (match order.price
       case Some(price) => Success(price)
       case None => Failure(LimitNeedsPrice))
  }

  function NewPosition(sym: Symbol, n: int, fill: real, day: Day): Position {
    Position(sym, n, fill, fill, Amount(fill, n), 0.0, 0.0, PositionStatus.Open, day)
  }

  /** Adding to an open position averages the cost by quantity and marks the whole at the fill. */
  function AddedTo(p: Position, n: int, fill: real): Position
    requires p.quantity > 0 && n > 0
  {
    var quantity := p.quantity + n;
    var average := (Amount(p.averageCost, p.quantity) + Amount(fill, n)) / quantity as real;
    MarkedAt(p.(quantity := quantity, averageCost := average), fill).(status := PositionStatus.Open)
  }

  function ReducedBy(p: Position, n: int, fill: real): Position {
    if p.quantity == n
    then p.(quantity := 0, currentPrice := fill, marketValue := 0.0, unrealizedPnl := 0.0,
            unrealizedPnlPct := 0.0, status := PositionStatus.Closed)
    else MarkedAt(p.(quantity := p.quantity - n), fill).(status := PartiallyClosed)
  }

  function ExecuteBuy(a: Account, order: OrderRequest, fill: real, commission: real, day: Day): Result<Account,
      OrderError>
  {
    var cost := Amount(fill, order.quantity) + commission;
    if cost > a.cash then Failure(InsufficientFunds)
    else
      var p := if Held(a, order.symbol) > 0 then AddedTo(a.positions.vals[order.symbol], order.quantity, fill)
               else NewPosition(order.symbol, order.quantity, fill, day);
      Success(a.(cash := a.cash - cost, positions := Put(a.positions, order.symbol, p)))
  }

  function ExecuteSell(a: Account, order: OrderRequest, fill: real, commission: real): Result<Account, OrderError> {
    if Held(a, order.symbol) == 0 then Failure(NoPosition)
    else if order.quantity > Held(a, order.symbol) then Failure(InsufficientQuantity)
    else
      var p := a.positions.vals[order.symbol];
      Success(a.(cash := a.cash + (Amount(fill, order.quantity) - commission),
                 realizedPnl := a.realizedPnl + Amount(fill - p.averageCost, order.quantity),
                 positions := Put(a.positions, order.symbol, ReducedBy(p, order.quantity, fill))))
  }

  function Execute(a: Account, order: OrderRequest, fill: real, commission: real, day: Day): Result<Account, OrderError>
  {
    if order.side == OrderSide.Buy then ExecuteBuy(a, order, fill, commission, day) else ExecuteSell(a, order, fill,
                                                                                                     commission)
  }

  /** Executes an order at a price: commission, account, order number and result. */
  function Settle(costs: Costs, a: Account, order: OrderRequest, fill: real, day: Day): Result<(Account, OrderResult),
      OrderError>
  {
    var commission := Commission(costs, order.side, Amount(fill, order.quantity));
    match Execute(a, order, fill, commission, day)
    case Failure(e) => Failure(e)
    case Success(b) =>
      var result := OrderResult(b.orderCounter + 1, order.symbol, order.side, order.orderType,
                                order.quantity, fill, commission, day);
      Success((b.(orderCounter := b.orderCounter + 1, orders := b.orders + [result]), result))
  }

  /** The account after an accepted order together with its result, or the error that was raised. */
  function Place(loader: Loader, costs: Costs, a: Account, order: OrderRequest): Result<(Account, OrderResult),
      OrderError>
  {
    match a.currentDate
    case None => Failure(DateNotSet)
    case Some(day) =>
      match FillPrice(loader, costs, day, order)
      case Failure(e) => Failure(e)
      case Success(fill) => Settle(costs, a, order, fill, day)
  }

  // ---- The class ----

  class SimulatedBroker {
    const loader: Loader
    const costs: Costs
    var cash: real
    var positions: Dict<Symbol, Position>
    var orders: seq<OrderResult>
    var orderCounter: nat
    var realizedPnl: real
    var currentDate: Option<Day>

    function State(): Account
      reads this
    {
      Account(cash, positions, orders, orderCounter, realizedPnl, currentDate)
    }

    constructor (loader: Loader, capital: real, costs: Costs)
      ensures State() == NewAccount(capital)
      ensures this.loader == loader && this.costs == costs
    {
      this.loader, this.costs := loader, costs;
      cash, positions, orders, orderCounter := capital, Empty(), [], 0;
      realizedPnl, currentDate := 0.0, None;
    }

    /** Moves to a day and marks every held position at its close. */
    method SetCurrentDate(day: Day)
      modifies this
      ensures State() == SetDate(loader, old(State()), day)
    {
      currentDate := Some(day);
      UpdatePositionValuations(day);
    }

    method UpdatePositionValuations(day: Day)
      modifies this`positions
      ensures positions == SetDate(loader, old(State()), day).positions
    {
      var keys := positions.keys;
      for i := 0 to |keys|
        invariant positions.keys == keys && positions.vals.Keys == old(positions.vals).Keys
        invariant forall j :: 0 <= j < i ==>
          positions.vals[keys[j]] == Marked(loader, keys[j], old(positions.vals)[keys[j]], day)
        invariant forall j :: i <= j < |keys| ==> positions.vals[keys[j]] == old(positions.vals)[keys[j]]
      {
        var p := positions.vals[keys[i]];
        if p.quantity > 0 {
          var close := GetClose(loader, keys[i], day);
          if close.Some? {
            positions := Put(positions, keys[i], MarkedAt(p, close.value));
          }
        }
      }
      forall sym | sym in positions.vals
        ensures positions.vals[sym] == Marked(loader, sym, old(positions.vals)[sym], day)
      {
        assert sym in keys;
      }
      assert positions.vals == SetDate(loader, old(State()), day).positions.vals;
    }

    function GetTotalValue(): real
      reads this
    {
      TotalValue(State())
    }

    /**
      Fills an order at once. An order that raises leaves cash, positions, order list and counter as
      they were; an accepted one moves the account exactly as `Place` says.
    */
    method PlaceOrder(order: OrderRequest) returns (r: Result<OrderResult, OrderError>)
      modifies this
      ensures match Place(loader, costs, old(State()), order)
              case Success(placed) => r == Success(placed.1) && State() == placed.0
              case Failure(e) => r == Failure(e) && State() == old(State())
    {
      if currentDate.None? {
        return Failure(DateNotSet);
      }
      var day := currentDate.value;
      var fill := FillPrice(loader, costs, day, order);
      if fill.Failure? {
        return Failure(fill.error);
      }
      var commission := Commission(costs, order.side, Amount(fill.value, order.quantity));
      var refused := None;
      if order.side == OrderSide.Buy {
        refused := DoBuy(order, fill.value, commission, day);
      } else {
        refused := DoSell(order, fill.value, commission);
      }
      if refused.Some? {
        return Failure(refused.value);
      }
      orderCounter := orderCounter + 1;
      var result := OrderResult(orderCounter, order.symbol, order.side, order.orderType, order.quantity,
                                fill.value, commission, day);
      orders := orders + [result];
      return Success(result);
    }

    method DoBuy(order: OrderRequest, fill: real, commission: real, day: Day) returns (refused: Option<OrderError>)
      modifies this`cash, this`positions
      ensures match ExecuteBuy(old(State()), order, fill, commission, day)
              case Success(b) => refused.None? && State() == b
              case Failure(e) => refused == Some(e) && State() == old(State())
    {
      var totalCost := Amount(fill, order.quantity) + commission;
      if totalCost > cash {
        return Some(InsufficientFunds);
      }
      cash := cash - totalCost;
      if order.symbol in positions.vals && positions.vals[order.symbol].quantity > 0 {
        var existing := positions.vals[order.symbol];
        positions := Put(positions, order.symbol, AddedTo(existing, order.quantity, fill));
      } else {
        positions := Put(positions, order.symbol, NewPosition(order.symbol, order.quantity, fill, day));
      }
      return None;
    }

    method DoSell(order: OrderRequest, fill: real, commission: real) returns (refused: Option<OrderError>)
      modifies this`cash, this`positions, this`realizedPnl
      ensures match ExecuteSell(old(State()), order, fill, commission)
              case Success(b) => refused.None? && State() == b
              case Failure(e) => refused == Some(e) && State() == old(State())
    {
      if order.symbol !in positions.vals || positions.vals[order.symbol].quantity <= 0 {
        return Some(NoPosition);
      }
      var existing := positions.vals[order.symbol];
      if order.quantity > existing.quantity {
        return Some(InsufficientQuantity);
      }
      realizedPnl := realizedPnl + Amount(fill - existing.averageCost, order.quantity);
      cash := cash + (Amount(fill, order.quantity) - commission);
      positions := Put(positions, order.symbol, ReducedBy(existing, order.quantity, fill));
      return None;
    }

    /** One pass over the positions; total assets are cash plus cost plus unrealised profit. */
    method GetBalance() returns (b: AccountBalance)
      ensures b.cash == cash && b.realizedPnl == realizedPnl
      ensures b.invested == Sum(positions, OpenCost) && b.unrealizedPnl == Sum(positions, OpenPnl)
      ensures b.totalAssets == cash + b.invested + b.unrealizedPnl
    {
      var invested, unrealized, count := 0.0, 0.0, 0;
      var keys := positions.keys;
      for i := 0 to |keys|
        invariant invested + SumOver(keys[i..], positions.vals, OpenCost) == Sum(positions, OpenCost)
        invariant unrealized + SumOver(keys[i..], positions.vals, OpenPnl) == Sum(positions, OpenPnl)
      {
        var p := positions.vals[keys[i]];
        if p.quantity > 0 {
          invested := invested + Amount(p.averageCost, p.quantity);
          unrealized := unrealized + p.unrealizedPnl;
          count := count + 1;
        }
        assert keys[i..][1..] == keys[i + 1..];
      }
      b := AccountBalance(cash + invested + unrealized, cash, invested, unrealized, realizedPnl, count);
    }
  }
}
