/**
  What the simulated broker charges and fills, in prices, rates and quantities alone: whole won rounded half up from
  the bar of the day, each side with its own rate, every refusal exactly when its cause is there, and every field of a
  position after an order or a mark.
*/
module OrderLaws {
  import opened Wrappers
  import opened Decimals
  import opened Dicts
  import opened Enums
  import opened MarketData
  import opened Simulator

  // ---- Bars ----

  /** The bar of a symbol on a day, by its row in the loaded data. */
  ghost predicate BarOn(h: Loader, sym: Symbol, day: Day, row: Row) {
    sym in h.data && row in h.data[sym] && row.date == day
  }

  /** Open and close of a day are those of the bar with that date, and are missing exactly when there is none. */
  lemma PricesOfTheDay(h: Loader, sym: Symbol, day: Day)
    requires sym in h.data ==> RowsIncreasing(h.data[sym])
    ensures forall row :: BarOn(h, sym, day, row) ==>
              GetClose(h, sym, day) == Some(row.close) && GetOpen(h, sym, day) == Some(row.open)
    ensures GetClose(h, sym, day).Some? <==> exists row :: BarOn(h, sym, day, row)
    ensures GetOpen(h, sym, day).Some? <==> exists row :: BarOn(h, sym, day, row)
  {
    FindSound(Rows(h, sym), day);
    forall row | BarOn(h, sym, day, row) ensures GetOhlcv(h, sym, day) == Some(row) {
      OneBar(h.data[sym], row, GetOhlcv(h, sym, day).value);
    }
    if GetOhlcv(h, sym, day).Some? { assert BarOn(h, sym, day, GetOhlcv(h, sym, day).value); }
  }

  lemma OneBar(rows: seq<Row>, a: Row, b: Row)
    requires RowsIncreasing(rows) && a in rows && b in rows && a.date == b.date
    ensures a == b
  {
  }

  /** The bars of a range are those with a date in it, in the order of their dates. */
  lemma {:induction false} RangeIsExact(rows: seq<Row>, first: Day, last: Day)
    requires RowsIncreasing(rows)
    ensures forall row :: row in Between(rows, first, last) <==> row in rows && first <= row.date <= last
    ensures RowsIncreasing(Between(rows, first, last))
  {
    if rows != [] {
      RangeIsExact(rows[1..], first, last);
      assert forall row :: row in rows <==> row == rows[0] || row in rows[1..];
      var rest := Between(rows[1..], first, last);
      forall i | 0 <= i < |rest| ensures rows[0].date < rest[i].date { assert rest[i] in rows[1..]; }
    }
  }

  // ---- Fill and commission ----

  /** A price moved up or down by hundredths of a percent. */
  function Slipped(costs: Costs, side: OrderSide, base: real): real {
    var slip := base * costs.slippageBps as real / 10000.0;
    if side == OrderSide.Buy then base + slip else base - slip
  }

  lemma ScaledByShare(base: real, points: real)
    ensures Scaled(base, points / 10000.0) == base + base * points / 10000.0
    ensures Scaled(base, -(points / 10000.0)) == base - base * points / 10000.0
  {
    var share := points / 10000.0;
    assert base * points / 10000.0 == base * share;
  }

  /** A purchase is slipped up and a sale down, to whole won. */
  lemma SlippageExactly(costs: Costs, side: OrderSide, base: real)
    ensures Nearest(SlippagePrice(costs, side, base), Slipped(costs, side, base))
  {
    ScaledByShare(base, costs.slippageBps as real);
    RoundedIsNearest(Slipped(costs, side, base));
  }

  lemma PurchaseFee(costs: Costs, amount: real)
    ensures Nearest(Commission(costs, OrderSide.Buy, amount), amount * costs.buyRate)
  {
    RoundedIsNearest(amount * costs.buyRate);
  }

  lemma SaleFee(costs: Costs, amount: real)
    ensures Nearest(Commission(costs, OrderSide.Sell, amount), amount * costs.sellRate)
  {
    RoundedIsNearest(amount * costs.sellRate);
  }

  /** A purchase pays the rate for purchases, a sale the one for sales. */
  lemma CommissionExactly(costs: Costs, side: OrderSide, amount: real)
    ensures Charges(costs, side, amount, Commission(costs, side, amount))
  {
    if side == OrderSide.Buy {
      PurchaseFee(costs, amount);
    } else {
      SaleFee(costs, amount);
    }
  }

  /** The price an order fills at on a day. */
  ghost predicate FillsAt(loader: Loader, costs: Costs, day: Day, order: OrderRequest, fill: real) {
    match order.orderType
    case Limit => order.price == Some(fill)
    case Market =>
      exists row :: BarOn(loader, order.symbol, day, row) && Nearest(fill, Slipped(costs, order.side, row.open))
  }

  ghost predicate Charges(costs: Costs, side: OrderSide, amount: real, fee: real) {
    if side == OrderSide.Buy then Nearest(fee, amount * costs.buyRate) else Nearest(fee, amount * costs.sellRate)
  }

  /** Why an order has no price: no day, no bar, or a limit order without a limit. */
  ghost predicate Unpriced(loader: Loader, a: Account, order: OrderRequest, e: OrderError) {
    match e
    case DateNotSet => a.currentDate.None?
    case NoPriceData =>
      a.currentDate.Some? && order.orderType == OrderType.Market
      && forall row :: !BarOn(loader, order.symbol, a.currentDate.value, row)
    case LimitNeedsPrice => a.currentDate.Some? && order.orderType == OrderType.Limit && order.price.None?
    case _ => false
  }

  /** Shares open in an account. */
  ghost predicate OpenIn(a: Account, sym: Symbol) {
    sym in a.positions.vals && a.positions.vals[sym].quantity > 0
  }

  /** Why a priced order is turned down. */
  ghost predicate TurnedDown(a: Account, order: OrderRequest, fill: real, fee: real, e: OrderError) {
    match e
    case InsufficientFunds => order.side == OrderSide.Buy && fill * order.quantity as real + fee > a.cash
    case NoPosition => order.side == OrderSide.Sell && !OpenIn(a, order.symbol)
    case InsufficientQuantity =>
      order.side == OrderSide.Sell && OpenIn(a, order.symbol)
      && order.quantity > a.positions.vals[order.symbol].quantity
    case _ => false
  }

  ghost predicate Priced(loader: Loader, costs: Costs, a: Account, order: OrderRequest, fill: real, fee: real) {
    && a.currentDate.Some? && FillsAt(loader, costs, a.currentDate.value, order, fill)
    && Charges(costs, order.side, Amount(fill, order.quantity), fee)
  }

  /** Every figure of a position at a price. */
  ghost predicate ValuedAt(p: Position, price: real) {
    && p.currentPrice == price
    && p.marketValue == price * p.quantity as real
    && p.unrealizedPnl == (price - p.averageCost) * p.quantity as real
    && (if p.averageCost == 0.0 then p.unrealizedPnlPct == 0.0
        else p.unrealizedPnlPct * p.averageCost == (price - p.averageCost) * 100.0)
  }

  /** The purchased position: new at the fill, or the open one with its cost averaged by quantity. */
  ghost predicate BoughtInto(a: Account, order: OrderRequest, fill: real, day: Day, p: Position) {
    && p.symbol == (if OpenIn(a, order.symbol) then a.positions.vals[order.symbol].symbol else order.symbol)
    && ValuedAt(p, fill) && p.status == PositionStatus.Open
    && if OpenIn(a, order.symbol) then
         var old' := a.positions.vals[order.symbol];
         && p.quantity == old'.quantity + order.quantity && p.entryDate == old'.entryDate
         && p.averageCost * p.quantity as real
            == old'.averageCost * old'.quantity as real + fill * order.quantity as real
       else p.quantity == order.quantity && p.averageCost == fill && p.entryDate == day
  }

  /** The sold position keeps its cost; sold out, it is closed and worth nothing. */
  ghost predicate SoldFrom(was: Position, n: int, fill: real, p: Position) {
    && p.symbol == was.symbol && p.averageCost == was.averageCost && p.entryDate == was.entryDate
    && p.quantity == was.quantity - n && p.currentPrice == fill
    && if p.quantity == 0 then
         p.marketValue == 0.0 && p.unrealizedPnl == 0.0 && p.unrealizedPnlPct == 0.0
         && p.status == PositionStatus.Closed
       else ValuedAt(p, fill) && p.status == PartiallyClosed
  }

  /** An order touches its own position and nobody else's. */
  ghost predicate OnlyIn(a: Account, sym: Symbol, b: Account) {
    && sym in b.positions.vals
    && forall other :: other != sym ==>
         && (other in b.positions.vals <==> other in a.positions.vals)
         && (other in a.positions.vals ==> b.positions.vals[other] == a.positions.vals[other])
  }

  /** A purchase pays its value and fee in cash. */
  ghost predicate Buys(a: Account, order: OrderRequest, fill: real, fee: real, day: Day, b: Account) {
    && OnlyIn(a, order.symbol, b) && BoughtInto(a, order, fill, day, b.positions.vals[order.symbol])
    && b.cash == a.cash - (fill * order.quantity as real + fee) && b.realizedPnl == a.realizedPnl
  }

  /** A sale receives its value less the fee, and realises the difference to the average cost. */
  ghost predicate Sells(a: Account, order: OrderRequest, fill: real, fee: real, b: Account) {
    && OnlyIn(a, order.symbol, b) && OpenIn(a, order.symbol)
    && var was := a.positions.vals[order.symbol];
       && SoldFrom(was, order.quantity, fill, b.positions.vals[order.symbol])
       && b.cash == a.cash + (fill * order.quantity as real - fee)
       && b.realizedPnl == a.realizedPnl + (fill - was.averageCost) * order.quantity as real
  }

  /** What an accepted order does to the account. */
  ghost predicate Moves(a: Account, order: OrderRequest, fill: real, fee: real, day: Day, b: Account) {
    && b.currentDate == a.currentDate && b.orderCounter == a.orderCounter + 1
    && b.orders == a.orders + [OrderResult(b.orderCounter, order.symbol, order.side, order.orderType, order.quantity,
                                           fill, fee, day)]
    && if order.side == OrderSide.Buy then Buys(a, order, fill, fee, day, b) else Sells(a, order, fill, fee, b)
  }

  // ---- The theorems ----

  lemma MarkFigures(p: Position, price: real)
    ensures ValuedAt(MarkedAt(p, price), price)
  {
    if p.averageCost != 0.0 { DivTimes(price - p.averageCost, p.averageCost); }
  }

  lemma AddedFigures(p: Position, n: int, fill: real)
    requires p.quantity > 0 && n > 0
    ensures var q := AddedTo(p, n, fill);
            && ValuedAt(q, fill) && q.quantity == p.quantity + n
            && q.averageCost * q.quantity as real == p.averageCost * p.quantity as real + fill * n as real
  {
    var average := (Amount(p.averageCost, p.quantity) + Amount(fill, n)) / (p.quantity + n) as real;
    MarkFigures(p.(quantity := p.quantity + n, averageCost := average), fill);
    DivTimes(Amount(p.averageCost, p.quantity) + Amount(fill, n), (p.quantity + n) as real);
  }

  lemma NewFigures(sym: Symbol, n: int, fill: real, day: Day)
    ensures ValuedAt(NewPosition(sym, n, fill, day), fill)
  {
  }

  lemma ReducedFigures(p: Position, n: int, fill: real)
    ensures SoldFrom(p, n, fill, ReducedBy(p, n, fill))
  {
    MarkFigures(p.(quantity := p.quantity - n), fill);
  }

  /** The position a purchase leaves. */
  function Purchase(a: Account, order: OrderRequest, fill: real, day: Day): Position {
    if Held(a, order.symbol) > 0 then AddedTo(a.positions.vals[order.symbol], order.quantity, fill)
    else NewPosition(order.symbol, order.quantity, fill, day)
  }

  lemma PurchaseExactly(a: Account, order: OrderRequest, fill: real, day: Day)
    ensures BoughtInto(a, order, fill, day, Purchase(a, order, fill, day))
  {
    if Held(a, order.symbol) > 0 {
      AddedFigures(a.positions.vals[order.symbol], order.quantity, fill);
    } else {
      NewFigures(order.symbol, order.quantity, fill, day);
    }
  }

  lemma BuyExactly(a: Account, order: OrderRequest, fill: real, fee: real, day: Day)
    requires order.side == OrderSide.Buy
    ensures match ExecuteBuy(a, order, fill, fee, day)
            case Success(b) => Buys(a, order, fill, fee, day, b) && forall e :: !TurnedDown(a, order, fill, fee, e)
            case Failure(e) => TurnedDown(a, order, fill, fee, e)
  {
    PurchaseExactly(a, order, fill, day);
    BuyPays(a, order, fill, fee, day);
  }

  lemma BuyPays(a: Account, order: OrderRequest, fill: real, fee: real, day: Day)
    ensures var cost := fill * order.quantity as real + fee;
            ExecuteBuy(a, order, fill, fee, day) ==
              if cost > a.cash then Failure(InsufficientFunds)
              else Success(a.(cash := a.cash - cost,
                              positions := Put(a.positions, order.symbol, Purchase(a, order, fill, day))))
  {
    var r := ExecuteBuy(a, order, fill, fee, day);
    assert Amount(fill, order.quantity) == fill * order.quantity as real;
    if r.Success? { assert r.value.positions == Put(a.positions, order.symbol, Purchase(a, order, fill, day)); }
  }

  lemma SellExactly(a: Account, order: OrderRequest, fill: real, fee: real)
    requires order.side == OrderSide.Sell
    ensures match ExecuteSell(a, order, fill, fee)
            case Success(b) => Sells(a, order, fill, fee, b) && forall e :: !TurnedDown(a, order, fill, fee, e)
            case Failure(e) => TurnedDown(a, order, fill, fee, e)
  {
    if Held(a, order.symbol) >= order.quantity {
      ReducedFigures(a.positions.vals[order.symbol], order.quantity, fill);
    }
  }

  lemma FiledMoves(a: Account, order: OrderRequest, fill: real, fee: real, day: Day, b: Account, filed: Account)
    requires b.currentDate == a.currentDate && b.orderCounter == a.orderCounter && b.orders == a.orders
    requires if order.side == OrderSide.Buy then Buys(a, order, fill, fee, day, b) else Sells(a, order, fill, fee, b)
    requires filed.currentDate == b.currentDate && filed.cash == b.cash && filed.positions == b.positions
             && filed.realizedPnl == b.realizedPnl && filed.orderCounter == b.orderCounter + 1
             && filed.orders == b.orders + [OrderResult(filed.orderCounter, order.symbol, order.side, order.orderType,
                                                        order.quantity, fill, fee, day)]
    ensures Moves(a, order, fill, fee, day, filed)
  {
  }

  lemma SettleExactly(costs: Costs, a: Account, order: OrderRequest, fill: real, day: Day)
    ensures var fee := Commission(costs, order.side, Amount(fill, order.quantity));
            match Settle(costs, a, order, fill, day)
            case Success(placed) =>
              && Moves(a, order, fill, fee, day, placed.0) && (forall e :: !TurnedDown(a, order, fill, fee, e))
              && placed.1 == placed.0.orders[|a.orders|] && placed.1.filledPrice == fill && placed.1.commission == fee
            case Failure(e) => TurnedDown(a, order, fill, fee, e)
  {
    var fee := Commission(costs, order.side, Amount(fill, order.quantity));
    var executed := Execute(a, order, fill, fee, day);
    if order.side == OrderSide.Buy {
      BuyExactly(a, order, fill, fee, day);
    } else {
      SellExactly(a, order, fill, fee);
    }
    if executed.Success? {
      FiledMoves(a, order, fill, fee, day, executed.value, Settle(costs, a, order, fill, day).value.0);
    }
  }

  lemma OpenFills(loader: Loader, costs: Costs, day: Day, order: OrderRequest, row: Row)
    requires order.orderType == OrderType.Market && BarOn(loader, order.symbol, day, row)
    ensures FillsAt(loader, costs, day, order, SlippagePrice(costs, order.side, row.open))
  {
    SlippageExactly(costs, order.side, row.open);
  }

  lemma FillExactly(loader: Loader, costs: Costs, a: Account, day: Day, order: OrderRequest)
    requires a.currentDate == Some(day) && (order.symbol in loader.data ==> RowsIncreasing(loader.data[order.symbol]))
    ensures match FillPrice(loader, costs, day, order)
            case Success(fill) =>
              FillsAt(loader, costs, day, order, fill) && forall e :: !Unpriced(loader, a, order, e)
            case Failure(e) => Unpriced(loader, a, order, e)
  {
    PricesOfTheDay(loader, order.symbol, day);
    if order.orderType == OrderType.Market && GetOpen(loader, order.symbol, day).Some? {
      var row :| BarOn(loader, order.symbol, day, row);
      OpenFills(loader, costs, day, order, row);
    }
  }

  /** What was promised of an order: refused for a cause that is there, or filled, charged and booked as it says. */
  ghost predicate Honoured(loader: Loader, costs: Costs, a: Account, order: OrderRequest,
                           r: Result<(Account, OrderResult), OrderError>)
  {
    match r
    case Success(placed) =>
      && Priced(loader, costs, a, order, placed.1.filledPrice, placed.1.commission)
      && Moves(a, order, placed.1.filledPrice, placed.1.commission, a.currentDate.value, placed.0)
      && placed.1 == placed.0.orders[|a.orders|]
      && (forall e :: !Unpriced(loader, a, order, e)
                      && !TurnedDown(a, order, placed.1.filledPrice, placed.1.commission, e))
    case Failure(e) =>
      || Unpriced(loader, a, order, e)
      || exists fill, fee :: Priced(loader, costs, a, order, fill, fee) && TurnedDown(a, order, fill, fee, e)
  }

  lemma SettledHonoured(loader: Loader, costs: Costs, a: Account, order: OrderRequest, fill: real)
    requires a.currentDate.Some? && FillsAt(loader, costs, a.currentDate.value, order, fill)
    requires forall e :: !Unpriced(loader, a, order, e)
    ensures Honoured(loader, costs, a, order, Settle(costs, a, order, fill, a.currentDate.value))
  {
    var fee := Commission(costs, order.side, Amount(fill, order.quantity));
    SettleExactly(costs, a, order, fill, a.currentDate.value);
    FillPriced(loader, costs, a, order, fill);
    SettledIsHonoured(loader, costs, a, order, fill, fee, Settle(costs, a, order, fill, a.currentDate.value));
  }

  lemma FillPriced(loader: Loader, costs: Costs, a: Account, order: OrderRequest, fill: real)
    requires a.currentDate.Some? && FillsAt(loader, costs, a.currentDate.value, order, fill)
    ensures Priced(loader, costs, a, order, fill, Commission(costs, order.side, Amount(fill, order.quantity)))
  {
    CommissionExactly(costs, order.side, Amount(fill, order.quantity));
  }

  lemma SettledIsHonoured(loader: Loader, costs: Costs, a: Account, order: OrderRequest, fill: real, fee: real,
                          r: Result<(Account, OrderResult), OrderError>)
    requires Priced(loader, costs, a, order, fill, fee) && forall e :: !Unpriced(loader, a, order, e)
    requires match r
             case Success(placed) =>
               && Moves(a, order, fill, fee, a.currentDate.value, placed.0)
               && (forall e :: !TurnedDown(a, order, fill, fee, e))
               && placed.1 == placed.0.orders[|a.orders|] && placed.1.filledPrice == fill && placed.1.commission == fee
             case Failure(e) => TurnedDown(a, order, fill, fee, e)
    ensures Honoured(loader, costs, a, order, r)
  {
  }

  /**
    An order is refused exactly for want of a day, a bar, a limit price, funds, a position or shares. Otherwise it
    fills at its limit or at the slipped open of the day, pays the commission of its side, and moves the account so.
  */
  lemma PlaceExactly(loader: Loader, costs: Costs, a: Account, order: OrderRequest)
    requires order.symbol in loader.data ==> RowsIncreasing(loader.data[order.symbol])
    ensures Honoured(loader, costs, a, order, Place(loader, costs, a, order))
  {
    if a.currentDate.Some? {
      FillExactly(loader, costs, a, a.currentDate.value, order);
      var fill := FillPrice(loader, costs, a.currentDate.value, order);
      if fill.Success? { SettledHonoured(loader, costs, a, order, fill.value); }
    }
  }

  /**
    Moving to a day marks every open position with a bar on that day at its close; any other position stays as it is,
    and so does the rest of the account.
  */
  lemma MarkExactly(loader: Loader, a: Account, day: Day, sym: Symbol)
    requires sym in loader.data ==> RowsIncreasing(loader.data[sym])
    requires sym in a.positions.vals
    ensures var b := SetDate(loader, a, day);
            && b == a.(currentDate := Some(day), positions := b.positions)
            && b.positions.keys == a.positions.keys && b.positions.vals.Keys == a.positions.vals.Keys
            && var p, q := a.positions.vals[sym], b.positions.vals[sym];
               && q.quantity == p.quantity && q.averageCost == p.averageCost && q.status == p.status
               && q.symbol == p.symbol && q.entryDate == p.entryDate
               && (forall row :: OpenIn(a, sym) && BarOn(loader, sym, day, row) ==> ValuedAt(q, row.close))
               && (!OpenIn(a, sym) || (forall row :: !BarOn(loader, sym, day, row)) ==> q == p)
  {
    PricesOfTheDay(loader, sym, day);
    var p := a.positions.vals[sym];
    if GetClose(loader, sym, day).Some? { MarkFigures(p, GetClose(loader, sym, day).value); }
  }
}
