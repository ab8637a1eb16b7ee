/**
  Entries at the open, by what fits: a pending signal is bought in the largest quantity that the position caps and the
  cash admit at the open, and not at all exactly for one of the listed reasons; no run ever holds more positions than
  allowed.
*/
module EntryLaws {
  import opened Wrappers
  import opened Decimals
  import opened Dicts
  import opened Enums
  import opened MarketData
  import opened Simulator
  import opened Backtest
  import opened Invariants
  import opened OrderLaws

  /** n shares at this price stay within the percentage of the total, the cap in won and the cash. */
  ghost predicate Affords(env: Env, sim: Sim, price: real, n: int) {
    var value := price * n as real;
    && value <= TotalValue(sim.account) * env.settings.sizing.maxPositionPct / 100.0
    && value <= env.settings.sizing.maxPositionKrw
    && value <= sim.account.cash
  }

  /** The largest number of shares up to a limit that is affordable. */
  ghost predicate LargestAffordable(env: Env, sim: Sim, price: real, limit: int, n: int) {
    && 1 <= n <= limit && Affords(env, sim, price, n)
    && forall m :: n < m <= limit ==> !Affords(env, sim, price, m)
  }

  lemma AffordsUpTo(env: Env, sim: Sim, price: real, n: int)
    requires price > 0.0 && n >= 1
    ensures Affords(env, sim, price, n) <==>
              && n <= CapQuantity(Percent(TotalValue(sim.account), env.settings.sizing.maxPositionPct), price)
              && n <= CapQuantity(env.settings.sizing.maxPositionKrw, price)
              && n <= CapQuantity(sim.account.cash, price)
  {
    CapIsExact(Percent(TotalValue(sim.account), env.settings.sizing.maxPositionPct), price, n);
    CapIsExact(env.settings.sizing.maxPositionKrw, price, n);
    CapIsExact(sim.account.cash, price, n);
  }

  /** No position may be opened now, whatever its size. */
  ghost predicate Full(env: Env, sim: Sim, sym: Symbol) {
    || sym in sim.book.positions.vals || |sim.book.positions.keys| >= env.settings.maxPositions
    || sim.book.dailyTrades >= env.settings.maxDailyTrades
  }

  /** The risk check lets through the largest affordable quantity, and nothing exactly when it must. */
  lemma RiskCheckExactly(env: Env, sim: Sim, sym: Symbol, limit: int, price: real)
    ensures var r := RiskCheck(env, sim, sym, limit, price);
            && (r.Some? ==> price > 0.0 && LargestAffordable(env, sim, price, limit, r.value))
            && (r.None? <==>
                  Full(env, sim, sym) || price <= 0.0 || forall n :: 1 <= n <= limit ==> !Affords(env, sim, price, n))
  {
    if price > 0.0 {
      forall n | n >= 1
        ensures Affords(env, sim, price, n) <==>
                  && n <= CapQuantity(Percent(TotalValue(sim.account), env.settings.sizing.maxPositionPct), price)
                  && n <= CapQuantity(env.settings.sizing.maxPositionKrw, price)
                  && n <= CapQuantity(sim.account.cash, price)
      {
        AffordsUpTo(env, sim, price, n);
      }
      if limit >= 1 && !Full(env, sim, sym) && RiskCheck(env, sim, sym, limit, price).None? {
        forall n | 1 <= n <= limit ensures !Affords(env, sim, price, n) { }
      }
    }
  }

  /** A purchase fills at the slipped open and pays the rate for purchases, each in whole won. */
  ghost predicate BuysAt(env: Env, open: real, n: int, fill: real, fee: real) {
    && Nearest(fill, Slipped(env.costs, OrderSide.Buy, open))
    && Charges(env.costs, OrderSide.Buy, Amount(fill, n), fee)
  }

  lemma ChargesOne(costs: Costs, side: OrderSide, amount: real, fee: real, other: real)
    requires Charges(costs, side, amount, fee) && Charges(costs, side, amount, other)
    ensures fee == other
  {
    if side == OrderSide.Buy {
      NearestIsOne(fee, other, amount * costs.buyRate);
    } else {
      NearestIsOne(fee, other, amount * costs.sellRate);
    }
  }

  lemma BuysAtOne(env: Env, open: real, n: int, fill: real, fee: real, other: real, otherFee: real)
    requires BuysAt(env, open, n, fill, fee) && BuysAt(env, open, n, other, otherFee)
    ensures fill == other && fee == otherFee
  {
    NearestIsOne(fill, other, Slipped(env.costs, OrderSide.Buy, open));
    ChargesOne(env.costs, OrderSide.Buy, Amount(fill, n), fee, otherFee);
  }

  lemma BuysAtFill(env: Env, open: real, n: int)
    ensures var fill := SlippagePrice(env.costs, OrderSide.Buy, open);
            BuysAt(env, open, n, fill, Commission(env.costs, OrderSide.Buy, Amount(fill, n)))
  {
    SlippageExactly(env.costs, OrderSide.Buy, open);
    CommissionExactly(env.costs, OrderSide.Buy, Amount(SlippagePrice(env.costs, OrderSide.Buy, open), n));
  }

  /** What opens a position: the largest affordable quantity at an open, with cash for its value and commission. */
  ghost predicate Enters(env: Env, sim: Sim, signal: Signal, open: real, n: int, fill: real, fee: real) {
    && open > 0.0 && LargestAffordable(env, sim, open, signal.quantity, n)
    && BuysAt(env, open, n, fill, fee) && Amount(fill, n) + fee <= sim.account.cash
  }

  lemma EntersOne(env: Env, sim: Sim, signal: Signal, open: real, n: int, fill: real, fee: real, m: int, other: real,
                  otherFee: real)
    requires Enters(env, sim, signal, open, n, fill, fee)
    requires LargestAffordable(env, sim, open, signal.quantity, m) && BuysAt(env, open, m, other, otherFee)
    ensures m == n && other == fill && otherFee == fee
  {
    BuysAtOne(env, open, n, fill, fee, other, otherFee);
  }

  /** What the broker says to the order of an entry. */
  lemma EntryOrderPlaced(env: Env, sim: Sim, sym: Symbol, n: Shares, day: Day, open: real)
    requires OnDay(sim, day) && GetOpen(env.loader, sym, day) == Some(open)
    ensures var fill := SlippagePrice(env.costs, OrderSide.Buy, open);
            var fee := Commission(env.costs, OrderSide.Buy, Amount(fill, n));
            var r := Place(env.loader, env.costs, sim.account, EntryOrder(sym, n));
            && (r.Failure? <==> Amount(fill, n) + fee > sim.account.cash)
            && (r.Success? ==> r.value.1.filledPrice == fill && r.value.1.commission == fee)
  {
  }

  /**
    A pending signal opens a position exactly when it is a purchase, there is room for one, the symbol has a bar on
    the day, and the cash pays for the largest quantity that the caps and the cash admit at the open; it opens that
    quantity, at the slipped open.
  */
  lemma EntryExactly(env: Env, sim: Sim, signal: Signal, day: Day)
    requires OnDay(sim, day) && IsHistory(env.loader)
    ensures EntryFill(env, sim, signal, day).Some? <==>
              && signal.action == SignalAction.Buy && !Full(env, sim, signal.symbol)
              && exists row, n, fill, fee ::
                   BarOn(env.loader, signal.symbol, day, row) && Enters(env, sim, signal, row.open, n, fill, fee)
    ensures match EntryFill(env, sim, signal, day)
            case None => true
            case Some(f) =>
              && Enters(env, sim, signal, f.open, f.quantity, f.result.filledPrice, f.result.commission)
              && exists row :: BarOn(env.loader, signal.symbol, day, row) && row.open == f.open
  {
    PricesOfTheDay(env.loader, signal.symbol, day);
    if EntryFill(env, sim, signal, day).Some? {
      EntryMade(env, sim, signal, day);
      var row :| BarOn(env.loader, signal.symbol, day, row);
      assert row.open == EntryFill(env, sim, signal, day).value.open;
    }
    if row, n, fill, fee :| BarOn(env.loader, signal.symbol, day, row)
                            && Enters(env, sim, signal, row.open, n, fill, fee) {
      if signal.action == SignalAction.Buy && !Full(env, sim, signal.symbol) {
        EntryNotMissed(env, sim, signal, day, row.open, n, fill, fee);
      }
    }
  }

  lemma EntryMade(env: Env, sim: Sim, signal: Signal, day: Day)
    requires OnDay(sim, day) && EntryFill(env, sim, signal, day).Some?
    ensures var f := EntryFill(env, sim, signal, day).value;
            && signal.action == SignalAction.Buy && !Full(env, sim, signal.symbol)
            && GetOpen(env.loader, signal.symbol, day) == Some(f.open)
            && Enters(env, sim, signal, f.open, f.quantity, f.result.filledPrice, f.result.commission)
  {
    var f := EntryFill(env, sim, signal, day).value;
    RiskCheckExactly(env, sim, signal.symbol, signal.quantity, f.open);
    EntryOrderPlaced(env, sim, signal.symbol, f.quantity, day, f.open);
    BuysAtFill(env, f.open, f.quantity);
  }

  lemma EntryNotMissed(env: Env, sim: Sim, signal: Signal, day: Day, open: real, n: int, fill: real, fee: real)
    requires OnDay(sim, day) && GetOpen(env.loader, signal.symbol, day) == Some(open)
    requires signal.action == SignalAction.Buy && !Full(env, sim, signal.symbol)
    requires Enters(env, sim, signal, open, n, fill, fee)
    ensures EntryFill(env, sim, signal, day).Some?
  {
    var checked := RiskCheck(env, sim, signal.symbol, signal.quantity, open);
    RiskCheckExactly(env, sim, signal.symbol, signal.quantity, open);
    var slipped := SlippagePrice(env.costs, OrderSide.Buy, open);
    EntryOrderPlaced(env, sim, signal.symbol, checked.value, day, open);
    BuysAtFill(env, open, checked.value);
    EntersOne(env, sim, signal, open, n, fill, fee, checked.value, slipped,
              Commission(env.costs, OrderSide.Buy, Amount(slipped, checked.value)));
  }

  // ---- The position it opens ----

  /** The position a signal opens: the fill of its order, the signal's exits and the configured limits. */
  ghost predicate OpensFrom(env: Env, signal: Signal, n: int, fill: real, open: real, day: Day, pos: PositionRecord) {
    && pos.symbol == signal.symbol && pos.quantity == n && pos.entryDate == day && pos.status == RecordStatus.Open
    && pos.entryPrice == (if fill == 0.0 then open else fill) && pos.avgCost == pos.entryPrice
    && pos.stopLoss == (if signal.stop.Some? then signal.stop.value else 0.0) && pos.takeProfit == signal.target
    && (env.config.strategy == PositionTrading ==> pos.trailingPct == Some(env.config.trailingStopPct))
    && (env.config.strategy == SwingTrading ==> pos.trailingPct.None?)
    && pos.maxDays == Some(env.config.maxHoldingDays)
    && pos.exitPrice.None? && pos.exitDate.None? && pos.exitTag.None? && pos.realizedPnl.None?
  }

  ghost predicate BooksPurchase(t: TradeRecord, sym: Symbol, n: int, price: real, open: real, fee: real, day: Day) {
    && t.symbol == sym && t.side == OrderSide.Buy && t.quantity == n && t.price == price && t.commission == fee
    && t.slippage == (if price < open then open - price else price - open) * n as real
    && t.date == day && t.pnl.None? && t.exitReason.None?
  }

  lemma RecordOpens(env: Env, book: Book, signal: Signal, n: Shares, fill: real, open: real, day: Day)
    ensures OpensFrom(env, signal, n, fill, open, day, EntryRecord(env, book, signal, n, EntryPrice(fill, open), day))
  {
  }

  lemma TradeBooks(sym: Symbol, n: Shares, price: real, open: real, fee: real, day: Day)
    ensures BooksPurchase(EntryTrade(sym, n, price, open, fee, day), sym, n, price, open, fee, day)
  {
  }

  /** An entry adds the position, its mark and its trade, counts it, and changes nothing else in the book. */
  ghost predicate Opens(env: Env, was: Book, signal: Signal, f: Fill, day: Day, now: Book) {
    && signal.symbol in now.positions.vals
    && (var pos := now.positions.vals[signal.symbol];
        && OpensFrom(env, signal, f.quantity, f.result.filledPrice, f.open, day, pos)
        && pos.id == now.lastId == was.lastId + 1
        && now.highest == was.highest[signal.symbol := pos.entryPrice]
        && now.positions.keys == was.positions.keys + [signal.symbol]
        && now.positions.vals == was.positions.vals[signal.symbol := pos]
        && |now.trades| == |was.trades| + 1 && now.trades == was.trades + [now.trades[|was.trades|]]
        && BooksPurchase(now.trades[|was.trades|], signal.symbol, f.quantity, pos.entryPrice, f.open,
                         f.result.commission, day))
    && now.dailyTrades == was.dailyTrades + 1 && now.dailyPnl == was.dailyPnl
    && now.closed == was.closed && now.snapshots == was.snapshots && now.pending == was.pending
    && now.peakValue == was.peakValue
  }

  lemma EntryBooks(env: Env, sim: Sim, signal: Signal, day: Day)
    requires EntryFill(env, sim, signal, day).Some?
    ensures Opens(env, sim.book, signal, EntryFill(env, sim, signal, day).value, day,
                  Enter(env, sim, signal, day).book)
  {
    var f := EntryFill(env, sim, signal, day).value;
    RecordOpens(env, sim.book, signal, f.quantity, f.result.filledPrice, f.open, day);
    TradeBooks(signal.symbol, f.quantity, EntryPrice(f.result.filledPrice, f.open), f.open, f.result.commission, day);
    BookOpens(env, sim.book, signal, f, day);
  }

  lemma BookOpens(env: Env, book: Book, signal: Signal, f: Fill, day: Day)
    requires signal.symbol !in book.positions.vals
    requires OpensFrom(env, signal, f.quantity, f.result.filledPrice, f.open, day,
                       EntryRecord(env, book, signal, f.quantity, EntryPrice(f.result.filledPrice, f.open), day))
    requires BooksPurchase(EntryTrade(signal.symbol, f.quantity, EntryPrice(f.result.filledPrice, f.open), f.open,
                                      f.result.commission, day),
                           signal.symbol, f.quantity, EntryPrice(f.result.filledPrice, f.open), f.open,
                           f.result.commission, day)
    ensures Opens(env, book, signal, f, day,
                  BookEntered(env, book, signal, f.quantity, f.result.filledPrice, f.open, f.result.commission, day))
  {
  }
}
