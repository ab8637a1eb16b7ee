/**
  A market that never moves never pays: when every symbol's open and close are one constant positive integer, the
  total value never rises, and it is the starting value less every recorded commission and slippage.
*/
module FlatMarket {
  import opened Wrappers
  import opened Decimals
  import opened Dicts
  import opened Enums
  import opened MarketData
  import opened ExitRules
  import opened Simulator
  import opened Backtest
  import opened Invariants
  import opened Reconciliation
  import Accounting

  ghost predicate FlatPrices(loader: Loader, price: Symbol -> int) {
    forall sym, day ::
      && (GetOpen(loader, sym, day).Some? ==> GetOpen(loader, sym, day).value == price(sym) as real && price(sym) >= 1)
      && (GetClose(loader, sym, day).Some? ==>
          GetClose(loader, sym, day).value == price(sym) as real && price(sym) >= 1)
  }

  ghost predicate FlatEnv(env: Env, price: Symbol -> int) {
    && FlatPrices(env.loader, price)
    && env.costs.slippageBps >= 0 && env.costs.buyRate >= 0.0 && env.costs.sellRate >= 0.0
  }

  function TradeCosts(trades: seq<TradeRecord>): real {
    if trades == [] then 0.0
    else
      var last := trades[|trades| - 1];
      TradeCosts(trades[..|trades| - 1]) + (last.commission + last.slippage)
  }

  lemma TradeCostsAppend(trades: seq<TradeRecord>, t: TradeRecord)
    ensures TradeCosts(trades + [t]) == TradeCosts(trades) + (t.commission + t.slippage)
  {
    assert (trades + [t])[..|trades|] == trades;
  }

  /** An open position at its constant price. */
  function Par(price: Symbol -> int): Position -> real {
    (p: Position) => if p.quantity > 0 then Amount(price(p.symbol) as real, p.quantity) else 0.0
  }

  /** What an open position is marked above its constant price: slippage that no mark has taken back yet. */
  function Excess(price: Symbol -> int): Position -> real {
    (p: Position) => OpenValue(p) - Par(price)(p)
  }

  ghost predicate AtOrAbovePar(p: Position, sym: Symbol, price: Symbol -> int) {
    p.symbol == sym && (p.quantity > 0 ==> p.currentPrice >= price(sym) as real)
  }

  /** The law of a flat market, with what it needs to be kept. */
  ghost predicate Paid(sim: Sim, price: Symbol -> int, capital: real) {
    && Mirror(sim)
    && Accounting.Valued(sim.account)
    && (forall sym :: sym in sim.account.positions.vals ==> AtOrAbovePar(sim.account.positions.vals[sym], sym, price))
    && sim.account.cash + Sum(sim.account.positions, Par(price)) + TradeCosts(sim.book.trades) == capital
  }

  lemma FillAbovePar(env: Env, price: Symbol -> int, sym: Symbol)
    requires FlatEnv(env, price) && price(sym) >= 1
    ensures SlippagePrice(env.costs, OrderSide.Buy, price(sym) as real) >= price(sym) as real
  {
    Accounting.SlippageAbove(env.costs, price(sym) as real);
    RoundOfInteger(price(sym));
  }

  lemma FeeNonNegative(env: Env, price: Symbol -> int, side: OrderSide, amount: real)
    requires FlatEnv(env, price) && amount >= 0.0
    ensures Commission(env.costs, side, amount) >= 0.0
  {
    MulMonotone(0.0, amount, env.costs.buyRate);
    MulMonotone(0.0, amount, env.costs.sellRate);
  }

  /** Selling a whole position at its constant price: the two sums over positions lose its share. */
  lemma SoldSums(a: Account, b: Account, sym: Symbol, close: real, price: Symbol -> int)
    requires sym in a.positions.vals && a.positions.vals[sym].quantity > 0
    requires AtOrAbovePar(a.positions.vals[sym], sym, price) && close == price(sym) as real && Accounting.Valued(a)
    requires b.positions
             == Put(a.positions, sym, ReducedBy(a.positions.vals[sym], a.positions.vals[sym].quantity, close))
    ensures Sum(b.positions, Par(price)) == Sum(a.positions, Par(price)) - Amount(close, a.positions.vals[sym].quantity)
    ensures Sum(b.positions, OpenValue) <= Sum(a.positions, OpenValue) - Amount(close, a.positions.vals[sym].quantity)
  {
    var held := a.positions.vals[sym];
    var left := ReducedBy(held, held.quantity, close);
    SumPut(a.positions, sym, left, Par(price));
    SumPut(a.positions, sym, left, OpenValue);
    AmountDiff(held.currentPrice, close, held.quantity);
    AmountSign(held.currentPrice - close, held.quantity);
  }

  lemma ExitPaid(env: Env, sim: Sim, next: Sim, sym: Symbol, day: Day, reason: ExitReason, price: Symbol -> int,
                 capital: real)
    requires FlatEnv(env, price) && Paid(sim, price, capital) && Exited(env, sim, next, sym, day, reason)
    ensures Paid(next, price, capital) && TotalValue(next.account) <= TotalValue(sim.account)
  {
    var n := sim.book.positions.vals[sym].quantity;
    var close := GetClose(env.loader, sym, day).value;
    HeldAfterExit(env, sim, next, sym, day, reason);
    assert Held(sim.account, sym) == n;
    SoldSums(sim.account, next.account, sym, close, price);
    TradeCostsAppend(sim.book.trades, next.book.trades[|sim.book.trades|]);
    Accounting.ValuedPut(sim.account, next.account, sym);
    AmountSign(close, n);
    FeeNonNegative(env, price, OrderSide.Sell, Amount(close, n));
  }

  /** Buying a symbol that is not held. */
  lemma BoughtSums(a: Account, b: Account, p: Position, price: Symbol -> int)
    requires p.quantity > 0 && Held(a, p.symbol) == 0
    requires b.positions == Put(a.positions, p.symbol, p)
    ensures Sum(b.positions, Par(price)) == Sum(a.positions, Par(price)) + Amount(price(p.symbol) as real, p.quantity)
    ensures Sum(b.positions, OpenValue) == Sum(a.positions, OpenValue) + p.marketValue
  {
    SumPut(a.positions, p.symbol, p, Par(price));
    SumPut(a.positions, p.symbol, p, OpenValue);
  }

  lemma EntryPaid(env: Env, sim: Sim, next: Sim, signal: Signal, n: Shares, open: real, day: Day, price: Symbol -> int,
                  capital: real)
    requires FlatEnv(env, price) && Paid(sim, price, capital) && Entered(env, sim, next, signal, n, open, day)
    ensures Paid(next, price, capital) && TotalValue(next.account) <= TotalValue(sim.account)
  {
    var sym := signal.symbol;
    var fill := SlippagePrice(env.costs, OrderSide.Buy, open);
    HeldAfterEntry(env, sim, next, signal, n, open, day);
    assert Held(sim.account, sym) == 0;
    FillAbovePar(env, price, sym);
    BoughtSums(sim.account, next.account, NewPosition(sym, n, fill, day), price);
    EntryCosts(env, sim, next, signal, n, open, day, price);
    AmountDiff(fill, fill, n);
    Accounting.ValuedPut(sim.account, next.account, sym);
  }

  /** The recorded costs of an entry are its commission and what the fill is above the open. */
  lemma EntryCosts(env: Env, sim: Sim, next: Sim, signal: Signal, n: Shares, open: real, day: Day, price: Symbol -> int)
    requires FlatEnv(env, price) && Entered(env, sim, next, signal, n, open, day)
    ensures var fill := SlippagePrice(env.costs, OrderSide.Buy, open);
            var fee := Commission(env.costs, OrderSide.Buy, Amount(fill, n));
            && fee >= 0.0
            && TradeCosts(next.book.trades) == TradeCosts(sim.book.trades) + fee + (Amount(fill, n) - Amount(open, n))
  {
    var fill := SlippagePrice(env.costs, OrderSide.Buy, open);
    var fee := Commission(env.costs, OrderSide.Buy, Amount(fill, n));
    FillAbovePar(env, price, signal.symbol);
    AmountSign(fill, n);
    FeeNonNegative(env, price, OrderSide.Buy, Amount(fill, n));
    AmountDiff(fill, open, n);
    TradeCostsAppend(sim.book.trades, EntryTrade(signal.symbol, n, fill, open, fee, day));
  }

  /** Marking a position takes its price down to the constant price or leaves it where it was. */
  lemma MarkTowardsPar(env: Env, p: Position, sym: Symbol, day: Day, price: Symbol -> int)
    requires FlatEnv(env, price) && AtOrAbovePar(p, sym, price)
    requires p.quantity > 0 ==> p.marketValue == Amount(p.currentPrice, p.quantity)
    ensures var q := Marked(env.loader, sym, p, day);
            && AtOrAbovePar(q, sym, price) && OpenValue(q) <= OpenValue(p) && Par(price)(q) == Par(price)(p)
  {
    if p.quantity > 0 && GetClose(env.loader, sym, day).Some? {
      AmountDiff(p.currentPrice, price(sym) as real, p.quantity);
      AmountSign(p.currentPrice - price(sym) as real, p.quantity);
    }
  }

  lemma MarkPaid(env: Env, sim: Sim, day: Day, price: Symbol -> int, capital: real)
    requires FlatEnv(env, price) && Paid(sim, price, capital)
    ensures Paid(MarkTo(env, sim, day), price, capital)
    ensures TotalValue(MarkTo(env, sim, day).account) <= TotalValue(sim.account)
  {
    var a, b := sim.account, MarkTo(env, sim, day).account;
    HeldAfterMark(env, sim, day);
    Accounting.SetDateKeeps(env.loader, a, day, capital);
    forall sym | sym in a.positions.vals
      ensures OpenValue(b.positions.vals[sym]) <= OpenValue(a.positions.vals[sym])
      ensures Par(price)(b.positions.vals[sym]) == Par(price)(a.positions.vals[sym])
      ensures AtOrAbovePar(b.positions.vals[sym], sym, price)
    {
      MarkTowardsPar(env, a.positions.vals[sym], sym, day, price);
    }
    SumOverFrame(a.positions.keys, a.positions.vals, b.positions.vals, Par(price));
    SumOverMonotone(a.positions.keys, b.positions.vals, a.positions.vals, OpenValue);
  }

  lemma PaidKept(env: Env, price: Symbol -> int, capital: real, bound: real)
    requires FlatEnv(env, price)
    ensures Kept(env, (sim: Sim) => Paid(sim, price, capital) && TotalValue(sim.account) <= bound)
  {
    forall sim, next, sym, day, reason | Paid(sim, price, capital) && Exited(env, sim, next, sym, day, reason)
      ensures Paid(next, price, capital) && TotalValue(next.account) <= TotalValue(sim.account)
    {
      ExitPaid(env, sim, next, sym, day, reason, price, capital);
    }
    forall sim, next, signal, n, open, day | Paid(sim, price, capital) && Entered(env, sim, next, signal, n, open, day)
      ensures Paid(next, price, capital) && TotalValue(next.account) <= TotalValue(sim.account)
    {
      EntryPaid(env, sim, next, signal, n, open, day, price, capital);
    }
    forall sim, day | Paid(sim, price, capital)
      ensures Paid(MarkTo(env, sim, day), price, capital)
      ensures TotalValue(MarkTo(env, sim, day).account) <= TotalValue(sim.account)
    {
      MarkPaid(env, sim, day, price, capital);
    }
  }

  /** Total value is the capital less all recorded costs, plus what fills are still marked above the price. */
  lemma ValueIsCapitalLessCosts(sim: Sim, price: Symbol -> int, capital: real)
    requires Paid(sim, price, capital)
    ensures TotalValue(sim.account) == capital - TradeCosts(sim.book.trades) + Sum(sim.account.positions, Excess(price))
    ensures forall sym :: sym in sim.account.positions.vals ==> Excess(price)(sim.account.positions.vals[sym]) >= 0.0
  {
    var a := sim.account;
    SumOverLinear(a.positions.keys, a.positions.vals, OpenValue, Par(price), Excess(price));
    forall sym | sym in a.positions.vals ensures Excess(price)(a.positions.vals[sym]) >= 0.0 {
      var p := a.positions.vals[sym];
      assert AtOrAbovePar(p, sym, price);
      AmountDiff(p.currentPrice, price(sym) as real, p.quantity);
      AmountSign(p.currentPrice - price(sym) as real, p.quantity);
    }
  }

  /** The start of a run on a flat broker whose closed positions carry their own symbols. */
  ghost predicate CleanStart(account: Account) {
    && Flat(account) && Accounting.Valued(account)
    && forall sym :: sym in account.positions.vals ==> account.positions.vals[sym].symbol == sym
  }

  lemma StartPaid(env: Env, account: Account, price: Symbol -> int)
    requires CleanStart(account)
    ensures Paid(Start(env, account), price, account.cash)
    ensures TotalValue(account) == account.cash
  {
    forall sym | sym in account.positions.keys ensures account.positions.vals[sym].quantity == 0 {
      assert Held(account, sym) == 0;
    }
    SumOverZero(account.positions.keys, account.positions.vals, Par(price));
    SumOverZero(account.positions.keys, account.positions.vals, OpenValue);
  }

  /**
    On a flat market, after any days of the main loop: total value has not risen above the start, it does not rise
    during any further days, and once a day's mark has reached every open position it is exactly the start less all
    recorded commissions and slippage.
  */
  lemma {:induction false} FlatMarketNeverPays(env: Env, account: Account, price: Symbol -> int, days: seq<Day>,
                                               more: seq<Day>, day: Day)
    requires FlatEnv(env, price) && CleanStart(account)
    ensures var sim := RunDays(env, Start(env, account), days).sim;
            var marked := MarkTo(env, sim, day);
            && TotalValue(sim.account) <= account.cash
            && TotalValue(RunDays(env, sim, more).sim.account) <= TotalValue(sim.account)
            && ((forall sym :: sym in sim.book.positions.vals ==> GetClose(env.loader, sym, day).Some?) ==>
                  TotalValue(marked.account) == account.cash - TradeCosts(sim.book.trades))
  {
    StartPaid(env, account, price);
    PaidKept(env, price, account.cash, account.cash);
    DaysKeep(env, (s: Sim) => Paid(s, price, account.cash) && TotalValue(s.account) <= account.cash,
             Start(env, account), days);
    var sim := RunDays(env, Start(env, account), days).sim;
    PaidKept(env, price, account.cash, TotalValue(sim.account));
    DaysKeep(env, (s: Sim) => Paid(s, price, account.cash) && TotalValue(s.account) <= TotalValue(sim.account),
             sim, more);
    if forall sym :: sym in sim.book.positions.vals ==> GetClose(env.loader, sym, day).Some? {
      MarkedAtPar(env, sim, day, price, account.cash);
    }
  }

  lemma MarkedAtPar(env: Env, sim: Sim, day: Day, price: Symbol -> int, capital: real)
    requires FlatEnv(env, price) && Paid(sim, price, capital)
    requires forall sym :: sym in sim.book.positions.vals ==> GetClose(env.loader, sym, day).Some?
    ensures TotalValue(MarkTo(env, sim, day).account) == capital - TradeCosts(sim.book.trades)
  {
    var marked := MarkTo(env, sim, day);
    MarkPaid(env, sim, day, price, capital);
    ValueIsCapitalLessCosts(marked, price, capital);
    forall sym | sym in marked.account.positions.vals
      ensures Excess(price)(marked.account.positions.vals[sym]) == 0.0
    {
      assert Held(marked.account, sym) == Held(sim.account, sym);
      assert AtOrAbovePar(sim.account.positions.vals[sym], sym, price);
    }
    SumOverZero(marked.account.positions.keys, marked.account.positions.vals, Excess(price));
  }
}
