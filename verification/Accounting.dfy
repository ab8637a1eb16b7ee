/**
  Conservation laws of the simulated broker, over every sequence of orders and date changes. Orders
  that raise are part of the sequences: the account is then unchanged.
*/
module Accounting {
  import opened Wrappers
  import opened Decimals
  import opened Dicts
  import opened Enums
  import opened MarketData
  import opened Simulator

  datatype Action = Submit(order: OrderRequest) | MoveTo(day: Day)

  function Act(loader: Loader, costs: Costs, a: Account, action: Action): Account {
    match action
    case MoveTo(day) => SetDate(loader, a, day)
    case Submit(order) =>
      match Place(loader, costs, a, order)
      case Success(placed) => placed.0
      case Failure(_) => a
  }

  function ActAll(loader: Loader, costs: Costs, a: Account, actions: seq<Action>): Account
    decreases |actions|
  {
    if |actions| == 0 then a
    else ActAll(loader, costs, Act(loader, costs, a, actions[0]), actions[1..])
  }

  function TotalCommission(orders: seq<OrderResult>): real {
    if orders == [] then 0.0
    else TotalCommission(orders[..|orders| - 1]) + orders[|orders| - 1].commission
  }

  /** Every position that is open carries its own price times quantity and profit times quantity. */
  ghost predicate Valued(a: Account) {
    forall sym :: sym in a.positions.vals ==>
      var p := a.positions.vals[sym];
      && p.quantity >= 0
      && (p.quantity > 0 ==>
            && p.marketValue == Amount(p.currentPrice, p.quantity)
            && p.unrealizedPnl == Amount(p.currentPrice - p.averageCost, p.quantity))
  }

  /** Cash plus the cost of what is held is the capital plus realised profit less all commissions. */
  ghost predicate Conserved(a: Account, capital: real) {
    a.cash + Sum(a.positions, OpenCost) == capital + a.realizedPnl - TotalCommission(a.orders)
  }

  lemma AddedCost(p: Position, n: int, fill: real)
    requires p.quantity > 0 && n > 0
    ensures OpenCost(AddedTo(p, n, fill)) == OpenCost(p) + Amount(fill, n)
  {
    var total := Amount(p.averageCost, p.quantity) + Amount(fill, n);
    DivTimes(total, (p.quantity + n) as real);
  }

  lemma ReducedCost(p: Position, n: int, fill: real)
    requires 0 < n <= p.quantity
    ensures OpenCost(ReducedBy(p, n, fill)) == OpenCost(p) - Amount(p.averageCost, n)
  {
    AmountSum(p.averageCost, p.quantity - n, n);
  }

  /** Replacing one position by a correctly valued one. */
  lemma ValuedPut(a: Account, b: Account, sym: Symbol)
    requires Valued(a) && sym in b.positions.vals
    requires b.positions.vals == a.positions.vals[sym := b.positions.vals[sym]]
    requires b.positions.vals[sym].quantity >= 0
    requires var p := b.positions.vals[sym];
             p.quantity > 0 ==> p.marketValue == Amount(p.currentPrice, p.quantity)
                                && p.unrealizedPnl == Amount(p.currentPrice - p.averageCost, p.quantity)
    ensures Valued(b)
  {
  }

  lemma ExecuteKeepsValued(a: Account, order: OrderRequest, fill: real, commission: real, day: Day)
    requires Valued(a)
    ensures Execute(a, order, fill, commission, day).Success? ==> Valued(Execute(a, order, fill, commission, day).value)
  {
    if Execute(a, order, fill, commission, day).Success? {
      AmountDiff(fill, fill, order.quantity);
      ValuedPut(a, Execute(a, order, fill, commission, day).value, order.symbol);
    }
  }

  lemma PlaceKeepsValued(loader: Loader, costs: Costs, a: Account, order: OrderRequest)
    requires Valued(a)
    ensures Place(loader, costs, a, order).Success? ==> Valued(Place(loader, costs, a, order).value.0)
  {
    var r := Place(loader, costs, a, order);
    if r.Success? {
      ExecuteKeepsValued(a, order, r.value.1.filledPrice, r.value.1.commission, a.currentDate.value);
    }
  }

  /** A buy turns cash into cost and loses the commission. */
  lemma BuyBalances(a: Account, order: OrderRequest, fill: real, commission: real, day: Day)
    requires ExecuteBuy(a, order, fill, commission, day).Success?
    ensures var b := ExecuteBuy(a, order, fill, commission, day).value;
            && b.cash + Sum(b.positions, OpenCost) == a.cash + Sum(a.positions, OpenCost) - commission
            && b.realizedPnl == a.realizedPnl
  {
    var b := ExecuteBuy(a, order, fill, commission, day).value;
    var p := b.positions.vals[order.symbol];
    if Held(a, order.symbol) > 0 {
      AddedCost(a.positions.vals[order.symbol], order.quantity, fill);
    }
    assert OpenCost(p) == Amount(fill, order.quantity)
      + if order.symbol in a.positions.vals then OpenCost(a.positions.vals[order.symbol]) else 0.0;
    SumPut(a.positions, order.symbol, p, OpenCost);
  }

  /** A sale turns cost into cash, realises the difference and loses the commission. */
  lemma SellBalances(a: Account, order: OrderRequest, fill: real, commission: real)
    requires ExecuteSell(a, order, fill, commission).Success?
    ensures var b := ExecuteSell(a, order, fill, commission).value;
            b.cash + Sum(b.positions, OpenCost)
            == a.cash + Sum(a.positions, OpenCost) - commission + (b.realizedPnl - a.realizedPnl)
  {
    var b := ExecuteSell(a, order, fill, commission).value;
    var p := a.positions.vals[order.symbol];
    ReducedCost(p, order.quantity, fill);
    AmountDiff(fill, p.averageCost, order.quantity);
    SumPut(a.positions, order.symbol, b.positions.vals[order.symbol], OpenCost);
  }

  lemma PlaceKeepsConserved(loader: Loader, costs: Costs, a: Account, order: OrderRequest, capital: real)
    requires Conserved(a, capital)
    ensures Place(loader, costs, a, order).Success? ==> Conserved(Place(loader, costs, a, order).value.0, capital)
  {
    var r := Place(loader, costs, a, order);
    if r.Success? {
      var (b, result) := r.value;
      assert b.orders[..|b.orders| - 1] == a.orders;
      if order.side == OrderSide.Buy {
        BuyBalances(a, order, result.filledPrice, result.commission, result.date);
      } else {
        SellBalances(a, order, result.filledPrice, result.commission);
      }
    }
  }

  lemma SetDateKeeps(loader: Loader, a: Account, day: Day, capital: real)
    ensures Valued(a) ==> Valued(SetDate(loader, a, day))
    ensures Conserved(a, capital) ==> Conserved(SetDate(loader, a, day), capital)
  {
    SetDateKeepsCost(loader, a, day);
  }

  lemma SetDateKeepsCost(loader: Loader, a: Account, day: Day)
    ensures Sum(SetDate(loader, a, day).positions, OpenCost) == Sum(a.positions, OpenCost)
  {
    SumOverFrame(a.positions.keys, a.positions.vals, SetDate(loader, a, day).positions.vals, OpenCost);
  }

  /** `get_total_value` and `get_balance().total_assets` agree. */
  lemma TotalIsBalance(a: Account)
    requires Valued(a)
    ensures TotalValue(a) == a.cash + Sum(a.positions, OpenCost) + Sum(a.positions, OpenPnl)
  {
    forall sym | sym in a.positions.keys
      ensures OpenValue(a.positions.vals[sym]) == OpenCost(a.positions.vals[sym]) + OpenPnl(a.positions.vals[sym])
    {
      var p := a.positions.vals[sym];
      AmountDiff(p.currentPrice, p.averageCost, p.quantity);
    }
    SumOverLinear(a.positions.keys, a.positions.vals, OpenValue, OpenCost, OpenPnl);
  }

  lemma {:induction false} ActAllKeeps(loader: Loader, costs: Costs, a: Account, actions: seq<Action>, capital: real)
    requires Valued(a) && Conserved(a, capital)
    ensures Valued(ActAll(loader, costs, a, actions)) && Conserved(ActAll(loader, costs, a, actions), capital)
    decreases |actions|
  {
    if actions != [] {
      match actions[0] {
        case MoveTo(day) => SetDateKeeps(loader, a, day, capital);
        case Submit(order) =>
          PlaceKeepsValued(loader, costs, a, order);
          PlaceKeepsConserved(loader, costs, a, order, capital);
      }
      ActAllKeeps(loader, costs, Act(loader, costs, a, actions[0]), actions[1..], capital);
    }
  }

  /** The conservation law from a new account, whatever orders and dates follow. */
  lemma Conservation(loader: Loader, costs: Costs, capital: real, actions: seq<Action>)
    ensures var a := ActAll(loader, costs, NewAccount(capital), actions);
            && Valued(a)
            && a.cash + Sum(a.positions, OpenCost) == capital + a.realizedPnl - TotalCommission(a.orders)
            && TotalValue(a) == a.cash + Sum(a.positions, OpenCost) + Sum(a.positions, OpenPnl)
  {
    ActAllKeeps(loader, costs, NewAccount(capital), actions, capital);
    TotalIsBalance(ActAll(loader, costs, NewAccount(capital), actions));
  }

  // ---- Cash never goes negative ----

  /** The commission of a sale stays within its proceeds, for every amount, exactly up to a rate of 1/2. */
  lemma CommissionWithinProceeds(costs: Costs)
    requires costs.sellRate >= 0.0
    ensures costs.sellRate <= 0.5 <==> forall amount: real :: amount >= 0.0 ==>
              Commission(costs, OrderSide.Sell, amount) <= amount
  {
    var rate := costs.sellRate;
    if rate <= 0.5 {
      forall amount: real | amount >= 0.0 ensures Commission(costs, OrderSide.Sell, amount) <= amount {
        SmallRate(costs, amount);
      }
    } else {
      var amount := 0.5 / rate;
      DivTimes(0.5, rate);
      assert amount * rate == 0.5;
      assert amount < 1.0 by {
        if amount >= 1.0 { MulMonotone(1.0, amount, rate); }
      }
      assert RoundHalfUp(0.5) == 1;
      assert amount >= 0.0 by {
        if amount < 0.0 { MulPositive(-amount, rate); }
      }
      assert Commission(costs, OrderSide.Sell, amount) > amount;
    }
  }

  lemma SmallRate(costs: Costs, amount: real)
    requires 0.0 <= costs.sellRate <= 0.5 && amount >= 0.0
    ensures Commission(costs, OrderSide.Sell, amount) <= amount
  {
    AtMostHalf(amount, costs.sellRate);
    HalfRoundsWithin(amount * costs.sellRate, amount);
  }

  lemma AtMostHalf(amount: real, rate: real)
    requires amount >= 0.0 && 0.0 <= rate <= 0.5
    ensures 0.0 <= amount * rate <= amount * 0.5
  {
    MulMonotone(rate, 0.5, amount);
    MulMonotone(0.0, rate, amount);
    assert amount * rate == rate * amount;
  }

  /** At most half of an amount rounds to at most the amount. */
  lemma HalfRoundsWithin(fee: real, amount: real)
    requires 0.0 <= fee <= amount * 0.5
    ensures RoundHalfUp(fee) as real <= amount
  {
    if amount < 1.0 {
      assert RoundHalfUp(fee) == 0;
    }
  }

  ghost predicate NonNegativePrices(loader: Loader) {
    forall sym, day :: GetOpen(loader, sym, day).Some? ==> GetOpen(loader, sym, day).value >= 0.0
  }

  ghost predicate SaneCosts(costs: Costs) {
    0 <= costs.slippageBps <= 10000 && 0.0 <= costs.buyRate && 0.0 <= costs.sellRate <= 0.5
  }

  ghost predicate NonNegativeOrder(action: Action) {
    action.Submit? && action.order.price.Some? ==> action.order.price.value >= 0.0
  }

  /** Slippage never makes a purchase cheaper than its rounded base price. */
  lemma SlippageAbove(costs: Costs, base: real)
    requires costs.slippageBps >= 0 && base >= 0.0
    ensures SlippagePrice(costs, OrderSide.Buy, base) >= RoundHalfUp(base) as real
  {
    var rate := costs.slippageBps as real / 10000.0;
    ScaledUp(base, rate);
    RoundMonotone(base, Scaled(base, rate));
  }

  lemma FillNonNegative(costs: Costs, side: OrderSide, base: real)
    requires SaneCosts(costs) && base >= 0.0
    ensures SlippagePrice(costs, side, base) >= 0.0
  {
    var rate := costs.slippageBps as real / 10000.0;
    ScaledSign(base, rate);
    ScaledSign(base, -rate);
  }

  lemma PlaceKeepsCash(loader: Loader, costs: Costs, a: Account, order: OrderRequest)
    requires a.cash >= 0.0 && NonNegativePrices(loader) && SaneCosts(costs) && NonNegativeOrder(Submit(order))
    ensures Act(loader, costs, a, Submit(order)).cash >= 0.0
  {
    var r := Place(loader, costs, a, order);
    if r.Success? && order.side == OrderSide.Sell {
      var fill := r.value.1.filledPrice;
      if order.orderType == OrderType.Market {
        FillNonNegative(costs, OrderSide.Sell, GetOpen(loader, order.symbol, a.currentDate.value).value);
      }
      assert fill >= 0.0;
      MulMonotone(0.0, fill, order.quantity as real);
      CommissionWithinProceeds(costs);
      assert Commission(costs, OrderSide.Sell, Amount(fill, order.quantity)) <= Amount(fill, order.quantity);
    }
  }

  lemma {:induction false} CashNeverNegative(loader: Loader, costs: Costs, a: Account, actions: seq<Action>)
    requires a.cash >= 0.0 && NonNegativePrices(loader) && SaneCosts(costs)
    requires forall i :: 0 <= i < |actions| ==> NonNegativeOrder(actions[i])
    ensures ActAll(loader, costs, a, actions).cash >= 0.0
    decreases |actions|
  {
    if actions != [] {
      if actions[0].Submit? {
        PlaceKeepsCash(loader, costs, a, actions[0].order);
      }
      CashNeverNegative(loader, costs, Act(loader, costs, a, actions[0]), actions[1..]);
    }
  }
}
