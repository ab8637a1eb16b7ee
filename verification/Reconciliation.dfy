/**
  The engine's book against the broker's account: quantities, costs, cash and realised profit agree through
  every step of every run that starts from a broker without open positions.
*/
module Reconciliation {
  import opened Wrappers
  import opened Decimals
  import opened Dicts
  import opened Enums
  import opened MarketData
  import opened ExitRules
  import opened Simulator
  import opened Backtest
  import opened Invariants
  import Accounting

  ghost predicate Flat(a: Account) {
    forall sym :: Held(a, sym) == 0
  }

  function EngineQuantity(book: Book, sym: Symbol): int {
    if sym in book.positions.vals then book.positions.vals[sym].quantity else 0
  }

  /** The engine holds q of a symbol exactly when the broker does. */
  ghost predicate Mirror(sim: Sim) {
    forall sym :: Held(sim.account, sym) == EngineQuantity(sim.book, sym)
  }

  /** The broker holds what it held at the start, and what the engine holds on top. */
  ghost predicate OnTop(start: Account, sim: Sim) {
    forall sym :: Held(sim.account, sym) == Held(start, sym) + EngineQuantity(sim.book, sym)
  }

  /** The engine carries each position at the broker's average cost. */
  ghost predicate SameCosts(sim: Sim) {
    forall sym :: sym in sim.book.positions.vals ==>
      sym in sim.account.positions.vals &&
      sim.account.positions.vals[sym].averageCost == sim.book.positions.vals[sym].avgCost
  }

  /** A positive open that slips to a fill of zero, which the engine takes for no fill price at all. */
  predicate ZeroFill(env: Env, sym: Symbol, day: Day) {
    match GetOpen(env.loader, sym, day)
    case None => false
    case Some(open) => open > 0.0 && SlippagePrice(env.costs, OrderSide.Buy, open) == 0.0
  }

  ghost predicate NoZeroFills(env: Env) {
    forall sym, day :: !ZeroFill(env, sym, day)
  }

  /** Opens of half a won or more never round to zero under non-negative slippage. */
  lemma WholeWonFills(env: Env)
    requires env.costs.slippageBps >= 0
    requires forall sym, day :: GetOpen(env.loader, sym, day).Some? ==>
               GetOpen(env.loader, sym, day).value <= 0.0 || GetOpen(env.loader, sym, day).value >= 0.5
    ensures NoZeroFills(env)
  {
    forall sym, day ensures !ZeroFill(env, sym, day) {
      if GetOpen(env.loader, sym, day).Some? && GetOpen(env.loader, sym, day).value > 0.0 {
        var open := GetOpen(env.loader, sym, day).value;
        Accounting.SlippageAbove(env.costs, open);
        RoundMonotone(0.5, open);
        assert RoundHalfUp(0.5) == 1;
      }
    }
  }

  // ---- Quantities ----

  lemma OnTopKept(env: Env, start: Account)
    ensures Kept(env, (sim: Sim) => OnTop(start, sim))
  {
    forall sim, next, sym, day, reason | OnTop(start, sim) && Exited(env, sim, next, sym, day, reason)
      ensures OnTop(start, next)
    {
      HeldAfterExit(env, sim, next, sym, day, reason);
    }
    forall sim, next, signal, n, open, day | OnTop(start, sim) && Entered(env, sim, next, signal, n, open, day)
      ensures OnTop(start, next)
    {
      HeldAfterEntry(env, sim, next, signal, n, open, day);
    }
    forall sim, day | OnTop(start, sim) ensures OnTop(start, MarkTo(env, sim, day)) {
      HeldAfterMark(env, sim, day);
    }
  }

  /** Whatever the broker held before a run, it holds after any days of it, and the engine's quantities on top. */
  lemma {:induction false} QuantitiesOnTop(env: Env, account: Account, days: seq<Day>, sym: Symbol)
    ensures var sim := RunDays(env, Start(env, account), days).sim;
            Held(sim.account, sym) == Held(account, sym) + EngineQuantity(sim.book, sym)
  {
    OnTopKept(env, account);
    DaysKeep(env, (sim: Sim) => OnTop(account, sim), Start(env, account), days);
  }

  /**
    After any days of the main loop the engine holds q of a symbol exactly when the broker does, if and only if the
    broker had no open position when the run started.
  */
  lemma {:induction false} QuantitiesMirror(env: Env, account: Account, days: seq<Day>)
    ensures Mirror(RunDays(env, Start(env, account), days).sim) <==> Flat(account)
  {
    var sim := RunDays(env, Start(env, account), days).sim;
    forall sym ensures Held(sim.account, sym) == Held(account, sym) + EngineQuantity(sim.book, sym) {
      QuantitiesOnTop(env, account, days, sym);
    }
  }

  /**
    Whatever a previous run left in the broker, the engine never holds more than the broker, so the main loop stops
    only where the exit scan itself raises: no exit sale is ever refused.
  */
  lemma {:induction false} ExitsNeverRefused(env: Env, account: Account, days: seq<Day>, day: Day)
    ensures var r := RunDays(env, Start(env, account), days);
            && Covered(r.sim)
            && (RunDay(env, r.sim, day).raised <==> DayScan(env, r.sim, day).raised)
  {
    DaysSound(env, Start(env, account), days);
    DaySound(env, RunDays(env, Start(env, account), days).sim, day);
  }

  // ---- Entries that fill at zero ----

  predicate BoughtAtZero(env: Env, t: TradeRecord) {
    t.side == OrderSide.Buy && ZeroFill(env, t.symbol, t.date)
  }

  /** A first purchase is carried at the same cost on both sides exactly when its fill is not zero. */
  lemma EntryCostMirrors(env: Env, sim: Sim, signal: Signal, day: Day)
    requires Mirror(sim) && OnDay(sim, day) && EntryFill(env, sim, signal, day).Some?
    ensures var f := EntryFill(env, sim, signal, day).value;
            var after := Enter(env, sim, signal, day);
            && signal.symbol in after.account.positions.vals
            && after.account.positions.vals[signal.symbol].averageCost == f.result.filledPrice
            && (!ZeroFill(env, signal.symbol, day) <==>
                  after.account.positions.vals[signal.symbol].averageCost
                  == after.book.positions.vals[signal.symbol].avgCost)
  {
    FillHasEffect(env, sim, signal, day);
  }

  // ---- Cash ----

  function CashFlow(t: TradeRecord): real {
    if t.side == OrderSide.Buy then -(Amount(t.price, t.quantity) + t.commission)
    else Amount(t.price, t.quantity) - t.commission
  }

  /** The cash that replaying the trade list moves. */
  function LedgerCash(trades: seq<TradeRecord>): real {
    if trades == [] then 0.0
    else LedgerCash(trades[..|trades| - 1]) + CashFlow(trades[|trades| - 1])
  }

  /** What the trade list charges for purchases the broker gave away. */
  function Overcharged(env: Env, trades: seq<TradeRecord>): real {
    if trades == [] then 0.0
    else
      var last := trades[|trades| - 1];
      Overcharged(env, trades[..|trades| - 1])
        + if BoughtAtZero(env, last) then Amount(last.price, last.quantity) else 0.0
  }

  ghost predicate CashReconciled(env: Env, start: Account, sim: Sim) {
    && sim.account.cash == start.cash + LedgerCash(sim.book.trades) + Overcharged(env, sim.book.trades)
    && forall t :: t in sim.book.trades && BoughtAtZero(env, t) ==> t.price > 0.0
  }

  lemma ExitKeepsCash(env: Env, start: Account, sim: Sim, next: Sim, sym: Symbol, day: Day, reason: ExitReason)
    requires CashReconciled(env, start, sim) && Exited(env, sim, next, sym, day, reason)
    ensures CashReconciled(env, start, next)
  {
    assert next.book.trades[..|next.book.trades| - 1] == sim.book.trades;
  }

  lemma EntryKeepsCash(env: Env, start: Account, sim: Sim, next: Sim, signal: Signal, n: Shares, open: real, day: Day)
    requires CashReconciled(env, start, sim) && Entered(env, sim, next, signal, n, open, day)
    ensures CashReconciled(env, start, next)
  {
    assert next.book.trades[..|next.book.trades| - 1] == sim.book.trades;
  }

  lemma CashReconciledKept(env: Env, start: Account)
    ensures Kept(env, (sim: Sim) => CashReconciled(env, start, sim))
  {
    forall sim, next, sym, day, reason | CashReconciled(env, start, sim) && Exited(env, sim, next, sym, day, reason)
      ensures CashReconciled(env, start, next)
    {
      ExitKeepsCash(env, start, sim, next, sym, day, reason);
    }
    forall sim, next, signal, n, open, day | CashReconciled(env, start, sim)
      && Entered(env, sim, next, signal, n, open, day)
      ensures CashReconciled(env, start, next)
    {
      EntryKeepsCash(env, start, sim, next, signal, n, open, day);
    }
  }

  lemma {:induction false} OverchargedSign(env: Env, trades: seq<TradeRecord>)
    requires forall t :: t in trades && BoughtAtZero(env, t) ==> t.price > 0.0
    ensures Overcharged(env, trades) >= 0.0
    ensures Overcharged(env, trades) == 0.0 <==> forall t :: t in trades ==> !BoughtAtZero(env, t)
  {
    if trades != [] {
      var n := |trades| - 1;
      OverchargedSign(env, trades[..n]);
      AmountSign(trades[n].price, trades[n].quantity);
      assert forall t :: t in trades <==> t in trades[..n] || t == trades[n];
    }
  }

  /**
    From any account, the broker's cash is the replay of the trade list plus the price of every purchase that filled
    at zero; so the replay is exact if and only if there was none.
  */
  lemma {:induction false} ReplayGivesCash(env: Env, account: Account, days: seq<Day>)
    ensures var sim := RunDays(env, Start(env, account), days).sim;
            && sim.account.cash == account.cash + LedgerCash(sim.book.trades) + Overcharged(env, sim.book.trades)
            && Overcharged(env, sim.book.trades) >= 0.0
            && (sim.account.cash == account.cash + LedgerCash(sim.book.trades) <==>
                  forall t :: t in sim.book.trades ==> !BoughtAtZero(env, t))
  {
    CashReconciledKept(env, account);
    DaysKeep(env, (sim: Sim) => CashReconciled(env, account, sim), Start(env, account), days);
    OverchargedSign(env, RunDays(env, Start(env, account), days).sim.book.trades);
  }

  // ---- Costs and realised profit ----

  /** How much dearer the engine carries a position than a broker that was flat before it. */
  function Overstated(env: Env, pos: PositionRecord): real {
    if ZeroFill(env, pos.symbol, pos.entryDate) then pos.avgCost else 0.0
  }

  function ClosedOverstated(env: Env, closed: seq<PositionRecord>): real {
    if closed == [] then 0.0
    else
      var last := closed[|closed| - 1];
      ClosedOverstated(env, closed[..|closed| - 1]) + Amount(Overstated(env, last), last.quantity)
  }

  function SellCommissions(trades: seq<TradeRecord>): real {
    if trades == [] then 0.0
    else
      var last := trades[|trades| - 1];
      SellCommissions(trades[..|trades| - 1]) + if last.side == OrderSide.Sell then last.commission else 0.0
  }

  function ClosedPnl(closed: seq<PositionRecord>): real {
    if closed == [] then 0.0
    else ClosedPnl(closed[..|closed| - 1]) + closed[|closed| - 1].realizedPnl.GetOr(0.0)
  }

  /** The broker's average cost of what the engine holds is the engine's cost less what that overstates. */
  ghost predicate CostTracked(env: Env, sim: Sim, sym: Symbol)
    requires sym in sim.book.positions.vals
  {
    var pos := sim.book.positions.vals[sym];
    && sym in sim.account.positions.vals
    && sim.account.positions.vals[sym].averageCost == pos.avgCost - Overstated(env, pos)
    && (ZeroFill(env, pos.symbol, pos.entryDate) ==> pos.avgCost > 0.0)
  }

  ghost predicate CostsTracked(env: Env, sim: Sim) {
    forall sym :: sym in sim.book.positions.vals ==> CostTracked(env, sim, sym)
  }

  ghost predicate ProfitReconciled(env: Env, start: Account, sim: Sim) {
    && Mirror(sim) && CostsTracked(env, sim)
    && sim.account.realizedPnl - start.realizedPnl
       == ClosedPnl(sim.book.closed) + SellCommissions(sim.book.trades) + ClosedOverstated(env, sim.book.closed)
    && forall pos :: pos in sim.book.closed && ZeroFill(env, pos.symbol, pos.entryDate) ==> pos.avgCost > 0.0
  }

  /** One sale: what the broker realises is the record's profit, the commission and what the record overstates. */
  lemma SaleRealises(env: Env, closed: seq<PositionRecord>, trades: seq<TradeRecord>, record: PositionRecord,
                     trade: TradeRecord, close: real, cost: real)
    requires trade.side == OrderSide.Sell && cost == record.avgCost - Overstated(env, record)
    requires record.realizedPnl == Some(Amount(close - record.avgCost, record.quantity) - trade.commission)
    ensures Amount(close - cost, record.quantity)
         == ClosedPnl(closed + [record]) - ClosedPnl(closed)
          + (SellCommissions(trades + [trade]) - SellCommissions(trades))
          + (ClosedOverstated(env, closed + [record]) - ClosedOverstated(env, closed))
  {
    PnlAppend(closed, record);
    OverstatedAppend(env, closed, record);
    SellAppend(trades, trade);
    SplitCost(close, record.avgCost, Overstated(env, record), record.quantity);
  }

  lemma ExitRealises(env: Env, sim: Sim, next: Sim, sym: Symbol, day: Day, reason: ExitReason)
    requires sym in sim.book.positions.vals && CostTracked(env, sim, sym) && Exited(env, sim, next, sym, day, reason)
    ensures next.account.realizedPnl - sim.account.realizedPnl
         == ClosedPnl(next.book.closed) - ClosedPnl(sim.book.closed)
          + (SellCommissions(next.book.trades) - SellCommissions(sim.book.trades))
          + (ClosedOverstated(env, next.book.closed) - ClosedOverstated(env, sim.book.closed))
  {
    var record, trade, close, cost := ExitRecords(env, sim, next, sym, day, reason);
    SaleRealises(env, sim.book.closed, sim.book.trades, record, trade, close, cost);
  }

  /** The record and the trade an exit adds, the close it sells at, and the broker's cost of what it sells. */
  lemma ExitRecords(env: Env, sim: Sim, next: Sim, sym: Symbol, day: Day, reason: ExitReason)
      returns (record: PositionRecord, trade: TradeRecord, close: real, cost: real)
    requires sym in sim.book.positions.vals && CostTracked(env, sim, sym) && Exited(env, sim, next, sym, day, reason)
    ensures next.book.closed == sim.book.closed + [record] && next.book.trades == sim.book.trades + [trade]
    ensures trade.side == OrderSide.Sell && cost == record.avgCost - Overstated(env, record)
    ensures record.realizedPnl == Some(Amount(close - record.avgCost, record.quantity) - trade.commission)
    ensures next.account.realizedPnl - sim.account.realizedPnl == Amount(close - cost, record.quantity)
  {
    record, trade := next.book.closed[|sim.book.closed|], next.book.trades[|sim.book.trades|];
    close, cost := GetClose(env.loader, sym, day).value, sim.account.positions.vals[sym].averageCost;
  }

  lemma SplitCost(close: real, cost: real, overstated: real, n: int)
    ensures Amount(close - (cost - overstated), n) == Amount(close - cost, n) + Amount(overstated, n)
  {
  }

  lemma PnlAppend(closed: seq<PositionRecord>, record: PositionRecord)
    ensures ClosedPnl(closed + [record]) == ClosedPnl(closed) + record.realizedPnl.GetOr(0.0)
  {
    assert (closed + [record])[..|closed|] == closed;
  }

  lemma OverstatedAppend(env: Env, closed: seq<PositionRecord>, record: PositionRecord)
    ensures ClosedOverstated(env, closed + [record])
         == ClosedOverstated(env, closed) + Amount(Overstated(env, record), record.quantity)
  {
    assert (closed + [record])[..|closed|] == closed;
  }

  lemma SellAppend(trades: seq<TradeRecord>, trade: TradeRecord)
    requires trade.side == OrderSide.Sell
    ensures SellCommissions(trades + [trade]) == SellCommissions(trades) + trade.commission
  {
    assert (trades + [trade])[..|trades|] == trades;
  }

  lemma ExitKeepsProfit(env: Env, start: Account, sim: Sim, next: Sim, sym: Symbol, day: Day, reason: ExitReason)
    requires ProfitReconciled(env, start, sim) && Exited(env, sim, next, sym, day, reason)
    ensures ProfitReconciled(env, start, next)
  {
    HeldAfterExit(env, sim, next, sym, day, reason);
    assert CostTracked(env, sim, sym);
    ExitRealises(env, sim, next, sym, day, reason);
    forall other | other in next.book.positions.vals ensures CostTracked(env, next, other) {
      assert CostTracked(env, sim, other);
    }
  }

  lemma EntryKeepsProfit(env: Env, start: Account, sim: Sim, next: Sim, signal: Signal, n: Shares, open: real, day: Day)
    requires ProfitReconciled(env, start, sim) && Entered(env, sim, next, signal, n, open, day)
    ensures ProfitReconciled(env, start, next)
  {
    HeldAfterEntry(env, sim, next, signal, n, open, day);
    assert Held(sim.account, signal.symbol) == 0;
    assert next.book.trades[..|next.book.trades| - 1] == sim.book.trades;
    forall other | other in next.book.positions.vals ensures CostTracked(env, next, other) {
      assert other != signal.symbol ==> CostTracked(env, sim, other);
    }
  }

  lemma MarkKeepsProfit(env: Env, start: Account, sim: Sim, day: Day)
    requires ProfitReconciled(env, start, sim)
    ensures ProfitReconciled(env, start, MarkTo(env, sim, day))
  {
    HeldAfterMark(env, sim, day);
    forall sym | sym in sim.book.positions.vals ensures CostTracked(env, MarkTo(env, sim, day), sym) {
      assert CostTracked(env, sim, sym);
    }
  }

  lemma QuietKeepsProfit(env: Env, start: Account, sim: Sim, next: Sim)
    requires ProfitReconciled(env, start, sim) && Quiet(sim, next)
    ensures ProfitReconciled(env, start, next)
  {
    forall sym | sym in next.book.positions.vals ensures CostTracked(env, next, sym) {
      assert CostTracked(env, sim, sym);
    }
  }

  lemma ProfitReconciledKept(env: Env, start: Account)
    ensures Kept(env, (sim: Sim) => ProfitReconciled(env, start, sim))
  {
    forall sim, next, sym, day, reason | ProfitReconciled(env, start, sim) && Exited(env, sim, next, sym, day, reason)
      ensures ProfitReconciled(env, start, next)
    {
      ExitKeepsProfit(env, start, sim, next, sym, day, reason);
    }
    forall sim, next, signal, n, open, day | ProfitReconciled(env, start, sim)
      && Entered(env, sim, next, signal, n, open, day)
      ensures ProfitReconciled(env, start, next)
    {
      EntryKeepsProfit(env, start, sim, next, signal, n, open, day);
    }
    forall sim, day | ProfitReconciled(env, start, sim) ensures ProfitReconciled(env, start, MarkTo(env, sim, day)) {
      MarkKeepsProfit(env, start, sim, day);
    }
    forall sim, next | ProfitReconciled(env, start, sim) && Quiet(sim, next)
      ensures ProfitReconciled(env, start, next)
    {
      QuietKeepsProfit(env, start, sim, next);
    }
  }

  lemma {:induction false} OverstatedSign(env: Env, closed: seq<PositionRecord>)
    requires forall pos :: pos in closed && ZeroFill(env, pos.symbol, pos.entryDate) ==> pos.avgCost > 0.0
    ensures ClosedOverstated(env, closed) >= 0.0
    ensures ClosedOverstated(env, closed) == 0.0 <==> forall pos :: pos in closed ==>
              !ZeroFill(env, pos.symbol, pos.entryDate)
  {
    if closed != [] {
      var n := |closed| - 1;
      OverstatedSign(env, closed[..n]);
      AmountSign(Overstated(env, closed[n]), closed[n].quantity);
      assert forall pos :: pos in closed <==> pos in closed[..n] || pos == closed[n];
    }
  }

  /**
    From a broker without open positions, broker's realised profit is the closed positions' profit plus the sale
    commissions plus what closed zero fills were overstated by; the costs of a held position agree, and so do the
    profits, if and only if no such position was filled at zero.
  */
  lemma {:induction false} ProfitReconciles(env: Env, account: Account, days: seq<Day>)
    requires Flat(account)
    ensures var sim := RunDays(env, Start(env, account), days).sim;
            var profit := ClosedPnl(sim.book.closed) + SellCommissions(sim.book.trades);
            && sim.account.realizedPnl - account.realizedPnl == profit + ClosedOverstated(env, sim.book.closed)
            && ClosedOverstated(env, sim.book.closed) >= 0.0
            && (sim.account.realizedPnl - account.realizedPnl == profit <==>
                  forall pos :: pos in sim.book.closed ==> !ZeroFill(env, pos.symbol, pos.entryDate))
            && forall sym :: sym in sim.book.positions.vals ==>
                 var pos := sim.book.positions.vals[sym];
                 && sym in sim.account.positions.vals
                 && (sim.account.positions.vals[sym].averageCost == pos.avgCost <==>
                     !ZeroFill(env, pos.symbol, pos.entryDate))
  {
    ProfitReconciledKept(env, account);
    DaysKeep(env, (sim: Sim) => ProfitReconciled(env, account, sim), Start(env, account), days);
    var sim := RunDays(env, Start(env, account), days).sim;
    OverstatedSign(env, sim.book.closed);
    assert forall sym :: sym in sim.book.positions.vals ==> CostTracked(env, sim, sym);
  }

  /** Without zero fills the ledger reconciles outright: cash from any account, costs and profit from a flat one. */
  lemma {:induction false} LedgerReconciles(env: Env, account: Account, days: seq<Day>)
    requires NoZeroFills(env)
    ensures var sim := RunDays(env, Start(env, account), days).sim;
            && sim.account.cash == account.cash + LedgerCash(sim.book.trades)
            && (Flat(account) ==>
                  && Mirror(sim)
                  && SameCosts(sim)
                  && sim.account.realizedPnl - account.realizedPnl == ClosedPnl(sim.book.closed)
                     + SellCommissions(sim.book.trades))
  {
    var sim := RunDays(env, Start(env, account), days).sim;
    ReplayGivesCash(env, account, days);
    if Flat(account) {
      QuantitiesMirror(env, account, days);
      ProfitReconciles(env, account, days);
    }
  }

  // ---- The broker's own laws inside a run ----

  ghost predicate AccountLaws(sim: Sim, capital: real) {
    Accounting.Valued(sim.account) && Accounting.Conserved(sim.account, capital)
  }

  lemma ExitKeepsAccount(env: Env, sim: Sim, next: Sim, sym: Symbol, day: Day, reason: ExitReason, capital: real)
    requires AccountLaws(sim, capital) && Exited(env, sim, next, sym, day, reason)
    ensures AccountLaws(next, capital)
  {
    var held := sim.account.positions.vals[sym];
    var n := sim.book.positions.vals[sym].quantity;
    var close := GetClose(env.loader, sym, day).value;
    SumPut(sim.account.positions, sym, ReducedBy(held, n, close), OpenCost);
    Accounting.ReducedCost(held, n, close);
    AmountDiff(close, held.averageCost, n);
    assert next.account.orders[..|next.account.orders| - 1] == sim.account.orders;
    Accounting.ValuedPut(sim.account, next.account, sym);
  }

  /** The account after a purchase of n shares at a fill, for a fee. */
  ghost predicate Purchased(a: Account, b: Account, sym: Symbol, n: Shares, fill: real, fee: real, day: Day) {
    && b.cash == a.cash - (Amount(fill, n) + fee) && Amount(fill, n) + fee <= a.cash
    && b.realizedPnl == a.realizedPnl
    && b.positions == Put(a.positions, sym, if Held(a, sym) > 0 then AddedTo(a.positions.vals[sym], n, fill)
                                            else NewPosition(sym, n, fill, day))
    && |b.orders| == |a.orders| + 1 && b.orders == a.orders + [b.orders[|a.orders|]]
    && b.orders[|a.orders|].commission == fee
  }

  lemma EntryPurchases(env: Env, sim: Sim, next: Sim, signal: Signal, n: Shares, open: real, day: Day)
    requires Entered(env, sim, next, signal, n, open, day)
    ensures var fill := SlippagePrice(env.costs, OrderSide.Buy, open);
            Purchased(sim.account, next.account, signal.symbol, n, fill,
                      Commission(env.costs, OrderSide.Buy, Amount(fill, n)), day)
  {
  }

  lemma PurchaseCost(a: Account, b: Account, sym: Symbol, n: Shares, fill: real, fee: real, day: Day)
    requires Purchased(a, b, sym, n, fill, fee, day)
    ensures Sum(b.positions, OpenCost) == Sum(a.positions, OpenCost) + Amount(fill, n)
  {
    SumPut(a.positions, sym, b.positions.vals[sym], OpenCost);
    if Held(a, sym) > 0 {
      Accounting.AddedCost(a.positions.vals[sym], n, fill);
    }
  }

  lemma PurchaseValued(a: Account, b: Account, sym: Symbol, n: Shares, fill: real, fee: real, day: Day)
    requires Accounting.Valued(a) && Purchased(a, b, sym, n, fill, fee, day)
    ensures Accounting.Valued(b)
  {
    AmountDiff(fill, fill, n);
    Accounting.ValuedPut(a, b, sym);
  }

  lemma PurchaseConserves(a: Account, b: Account, sym: Symbol, n: Shares, fill: real, fee: real, day: Day,
                          capital: real)
    requires Accounting.Conserved(a, capital) && Purchased(a, b, sym, n, fill, fee, day)
    ensures Accounting.Conserved(b, capital)
  {
    PurchaseCost(a, b, sym, n, fill, fee, day);
    assert b.orders[..|b.orders| - 1] == a.orders;
  }

  lemma EntryKeepsAccount(env: Env, sim: Sim, next: Sim, signal: Signal, n: Shares, open: real, day: Day, capital: real)
    requires AccountLaws(sim, capital) && Entered(env, sim, next, signal, n, open, day)
    ensures AccountLaws(next, capital)
  {
    var fill := SlippagePrice(env.costs, OrderSide.Buy, open);
    var fee := Commission(env.costs, OrderSide.Buy, Amount(fill, n));
    EntryPurchases(env, sim, next, signal, n, open, day);
    PurchaseValued(sim.account, next.account, signal.symbol, n, fill, fee, day);
    PurchaseConserves(sim.account, next.account, signal.symbol, n, fill, fee, day, capital);
  }

  lemma AccountLawsKept(env: Env, capital: real)
    ensures Kept(env, (sim: Sim) => AccountLaws(sim, capital))
  {
    forall sim, next, sym, day, reason | AccountLaws(sim, capital) && Exited(env, sim, next, sym, day, reason)
      ensures AccountLaws(next, capital)
    {
      ExitKeepsAccount(env, sim, next, sym, day, reason, capital);
    }
    forall sim, next, signal, n, open, day | AccountLaws(sim, capital) && Entered(env, sim, next, signal, n, open, day)
      ensures AccountLaws(next, capital)
    {
      EntryKeepsAccount(env, sim, next, signal, n, open, day, capital);
    }
    forall sim, day | AccountLaws(sim, capital) ensures AccountLaws(MarkTo(env, sim, day), capital) {
      Accounting.SetDateKeeps(env.loader, sim.account, day, capital);
    }
  }

  /** Inside a run the broker keeps its conservation law, and its total value is its balance. */
  lemma AccountLawsHold(env: Env, account: Account, capital: real, days: seq<Day>)
    requires Accounting.Valued(account) && Accounting.Conserved(account, capital)
    ensures var a := RunDays(env, Start(env, account), days).sim.account;
            && a.cash + Sum(a.positions, OpenCost) == capital + a.realizedPnl - Accounting.TotalCommission(a.orders)
            && TotalValue(a) == a.cash + Sum(a.positions, OpenCost) + Sum(a.positions, OpenPnl)
  {
    AccountLawsKept(env, capital);
    DaysKeep(env, (sim: Sim) => AccountLaws(sim, capital), Start(env, account), days);
    Accounting.TotalIsBalance(RunDays(env, Start(env, account), days).sim.account);
  }

  ghost predicate Solvent(sim: Sim) { sim.account.cash >= 0.0 }

  ghost predicate NonNegativeCloses(loader: Loader) {
    forall sym, day :: GetClose(loader, sym, day).Some? ==> GetClose(loader, sym, day).value >= 0.0
  }

  /** A sale never costs more than it brings. */
  lemma ExitPays(env: Env, sim: Sim, next: Sim, sym: Symbol, day: Day, reason: ExitReason)
    requires NonNegativeCloses(env.loader) && 0.0 <= env.costs.sellRate <= 0.5
    requires Exited(env, sim, next, sym, day, reason)
    ensures next.account.cash >= sim.account.cash
  {
    var n, close := sim.book.positions.vals[sym].quantity, GetClose(env.loader, sym, day).value;
    AmountSign(close, n);
    Accounting.SmallRate(env.costs, Amount(close, n));
  }

  lemma EntryAffordable(env: Env, sim: Sim, next: Sim, signal: Signal, n: Shares, open: real, day: Day)
    requires Entered(env, sim, next, signal, n, open, day)
    ensures next.account.cash >= 0.0
  {
  }

  lemma SolventKept(env: Env)
    requires NonNegativeCloses(env.loader) && 0.0 <= env.costs.sellRate <= 0.5
    ensures Kept(env, Solvent)
  {
    forall sim, next, sym, day, reason | Solvent(sim) && Exited(env, sim, next, sym, day, reason)
      ensures Solvent(next)
    {
      ExitPays(env, sim, next, sym, day, reason);
    }
    forall sim, next, signal, n, open, day | Entered(env, sim, next, signal, n, open, day) ensures Solvent(next) {
      EntryAffordable(env, sim, next, signal, n, open, day);
    }
  }

  /** With sale rates of at most one half the main loop never overdraws the account, whatever the purchases cost. */
  lemma RunNeverOverdraws(env: Env, account: Account, days: seq<Day>)
    requires NonNegativeCloses(env.loader) && 0.0 <= env.costs.sellRate <= 0.5 && account.cash >= 0.0
    ensures RunDays(env, Start(env, account), days).sim.account.cash >= 0.0
  {
    SolventKept(env);
    DaysKeep(env, Solvent, Start(env, account), days);
  }
}
