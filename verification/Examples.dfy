/** Runs of two and of three bars, at which the exceptions to the laws of the backtest can be seen. */
module Examples {
  import opened Wrappers
  import opened Decimals
  import opened Dicts
  import opened Enums
  import opened MarketData
  import opened ExitRules
  import opened Simulator
  import opened Backtest
  import opened Invariants
  import opened Reconciliation
  import opened ScanFailures
  import RunOutcome
  import Sizing

  const SYMBOL: Symbol := "A"

  /** Two bars of one symbol that close at 100; the second one opens at `open`. */
  function TwoBars(open: real): Loader {
    Loader(map[SYMBOL := [Row(0, 100.0, 100.0, 100.0, 100.0, 1), Row(1, open, 100.0, open, 100.0, 1)]], [0, 1])
  }

  /**
    Swing trading with 1,000,000 in cash, ten basis points of slippage, no commissions and an entry signal every day.
  */
  function TwoDays(open: real): Env {
    Env(TwoBars(open), Costs(10, 0.0, 0.0), Settings(Sizing.Limits(1.0, 20.0, 5000000.0), 5, 10),
        Config(SwingTrading, Technical, 0, 1, 1000000.0, [SYMBOL], 0.0, 30, 0.0, 0.0, 5.0, 10.0),
        Oracle((rows: seq<Row>) => true, (rows: seq<Row>) => None, (day: Day, sym: Symbol) => None,
               (closed: seq<PositionRecord>, snapshots: seq<Snapshot>) => false))
  }

  const CASH: Account := NewAccount(1000000.0)

  /** The costs, limits and signals of these runs. */
  ghost predicate BuysEveryDay(env: Env) {
    && env.costs == Costs(10, 0.0, 0.0) && env.settings == Settings(Sizing.Limits(1.0, 20.0, 5000000.0), 5, 10)
    && env.config.initialCapital == 1000000.0 && env.config.symbols == [SYMBOL] && env.config.mode == Technical
    && (forall rows :: env.oracle.entry(rows))
    && (forall rows :: ExitPricesFor(env, rows, 100.0) == Some(ExitPrices(95.0, 110.0)))
  }

  /** The first two bars close at 100, and the second one opens at `open`. */
  ghost predicate OpensAt(env: Env, open: real) {
    && BuysEveryDay(env) && (open == 100.0 || open == 0.4)
    && GetClose(env.loader, SYMBOL, 0) == Some(100.0) && GetClose(env.loader, SYMBOL, 1) == Some(100.0)
    && GetOpen(env.loader, SYMBOL, 1) == Some(open)
    && GetOhlcvRange(env.loader, SYMBOL, Earliest(env.loader, 0), 0) != []
  }

  lemma TwoBarsOpen(open: real)
    requires open == 100.0 || open == 0.4
    ensures OpensAt(TwoDays(open), open) && RunDates(TwoDays(open)) == [0, 1]
  {
    var rows := Rows(TwoBars(open), SYMBOL);
    var rest := rows[1..];
    assert rest[0] == Row(1, open, 100.0, open, 100.0, 1);
    assert Find(rest, 1) == Some(rest[0]);
    assert Find(rows, 1) == Find(rest, 1);
    assert [0, 1][1..] == [1] && DatesBetween([1], 0, 1) == [1];
  }

  const SIGNAL: Signal := Signal(SYMBOL, SignalAction.Buy, Some(110.0), Some(95.0), 2000)

  /** The first close is worth 2000 shares: 1% of the cash at risk, 5 a share. */
  lemma FirstSignals(env: Env, open: real, book: Book)
    requires OpensAt(env, open) && SYMBOL !in book.positions.vals && book.pending == []
    ensures GenerateAll(env, book, [SYMBOL], 0, 1000000.0) == book.(pending := [SIGNAL])
  {
    assert Sizing.RawQuantity(env.settings.sizing, 100.0, 95.0, 1000000.0) == 2000;
    assert Sizing.RemainingCap(env.settings.sizing, 100.0, 1000000.0, 0.0) == 2000;
    assert Sizing.Quantity(env.settings.sizing, 100.0, 95.0, 1000000.0, 0.0) == 2000;
    assert Propose(env, SYMBOL, 0, 1000000.0) == Some(SIGNAL);
    assert [SYMBOL][1..] == [];
    assert Generate(env, book, SYMBOL, 0, 1000000.0) == book.(pending := [SIGNAL]);
  }

  /** The first day proposes and buys nothing. */
  lemma FirstDay(env: Env, open: real)
    requires OpensAt(env, open)
    ensures var r := RunDay(env, Start(env, CASH), 0);
            && !r.raised && r.sim.account == CASH.(currentDate := Some(0)) && r.sim.book.positions == Empty()
            && r.sim.book.trades == [] && r.sim.book.pending == [SIGNAL]
  {
    var marked := MarkTo(env, ResetDay(Start(env, CASH)), 0);
    assert marked.account.positions == CASH.positions;
    assert marked.account == CASH.(currentDate := Some(0));
    assert CheckExits(env, marked, 0) == Step(marked, false);
    assert ExecutePending(env, marked, 0) == marked;
    assert TotalValue(marked.account) == 1000000.0;
    FirstSignals(env, open, marked.book);
  }

  /** The signal is bought on the second day, at 100 when the open is 100 and at nothing when it is 0.4. */
  lemma Bought(env: Env, open: real, sim: Sim)
    requires OpensAt(env, open)
    requires sim.account == CASH.(currentDate := Some(1)) && sim.book.positions == Empty() && sim.book.dailyTrades == 0
    ensures var fill := EntryFill(env, sim, SIGNAL, 1);
            && fill.Some? && fill.value.quantity == 2000 && fill.value.open == open
            && fill.value.result.filledPrice == (if open == 100.0 then 100.0 else 0.0)
  {
    assert SlippagePrice(env.costs, OrderSide.Buy, 100.0) == 100.0;
    assert SlippagePrice(env.costs, OrderSide.Buy, 0.4) == 0.0;
    assert TotalValue(sim.account) == 1000000.0;
    assert RiskCheck(env, sim, SYMBOL, 2000, open) == Some(2000);
  }

  lemma SecondMark(env: Env, sim: Sim)
    requires sim.account == CASH.(currentDate := Some(0)) && sim.book.positions == Empty()
    ensures var marked := MarkTo(env, ResetDay(sim), 1);
            marked.account == CASH.(currentDate := Some(1)) && CheckExits(env, marked, 1) == Step(marked, false)
  {
    var marked := MarkTo(env, ResetDay(sim), 1);
    assert marked.account.positions == CASH.positions;
  }

  lemma SecondEntry(env: Env, taken: Sim)
    ensures EnterAll(env, taken, [SIGNAL], 1) == Enter(env, taken, SIGNAL, 1)
  {
    var entered := Enter(env, taken, SIGNAL, 1);
    assert [SIGNAL][1..] == [] && EnterAll(env, entered, [], 1) == entered;
  }

  /** The second day marks and scans nothing, and enters. */
  lemma SecondDay(env: Env, open: real, sim: Sim)
    requires OpensAt(env, open) && Sound(sim)
    requires sim.account == CASH.(currentDate := Some(0)) && sim.book.positions == Empty()
    requires sim.book.trades == [] && sim.book.pending == [SIGNAL]
    ensures var taken := TakePending(MarkTo(env, ResetDay(sim), 1));
            var entered := Enter(env, taken, SIGNAL, 1);
            var r := RunDay(env, sim, 1);
            && !r.raised && Entered(env, taken, entered, SIGNAL, 2000, open, 1) && Quiet(entered, r.sim)
  {
    var marked := MarkTo(env, ResetDay(sim), 1);
    var taken := TakePending(marked);
    MarkKeepsSound(env, ResetDay(sim), 1);
    SecondMark(env, sim);
    Bought(env, open, taken);
    FillHasEffect(env, taken, SIGNAL, 1);
    var entered := Enter(env, taken, SIGNAL, 1);
    SecondEntry(env, taken);
    EnteredKeepsSound(env, taken, entered, SIGNAL, 2000, open, 1);
    EndOfDay(env, entered, 1);
  }

  /** After two days the symbol is held, with one trade made. */
  ghost predicate Holds(env: Env, sim: Sim, open: real) {
    && Sound(sim) && |sim.book.trades| == 1
    && SYMBOL in sim.book.positions.vals
    && var pos, t := sim.book.positions.vals[SYMBOL], sim.book.trades[0];
       && pos.symbol == SYMBOL && pos.entryDate == 1 && pos.stopLoss == 95.0
       && pos.entryPrice == EntryPrice(SlippagePrice(env.costs, OrderSide.Buy, open), open)
       && pos.trailingPct == (if env.config.strategy == PositionTrading then Some(env.config.trailingStopPct) else None)
       && t.side == OrderSide.Buy && t.symbol == SYMBOL && t.date == 1
  }

  lemma TwoDaysHold(env: Env, open: real, days: seq<Day>)
    requires OpensAt(env, open) && days == [0, 1]
    ensures var r := RunDays(env, Start(env, CASH), days); !r.raised && Holds(env, r.sim, open)
  {
    var start := Start(env, CASH);
    FirstDay(env, open);
    DaySound(env, start, 0);
    var first := RunDay(env, start, 0).sim;
    SecondDay(env, open, first);
    DaySound(env, first, 1);
    assert days[1..] == [1] && [1][1..] == [];
    assert RunDays(env, first, [1]) == RunDay(env, first, 1);
  }

  /** The forced close: the position of the last day has a bar on it, so the run fails. */
  lemma ForcedCloseFails()
    ensures Run(TwoDays(100.0), CASH).1.status == BacktestStatus.Failed
  {
    TwoBarsOpen(100.0);
    TwoDaysHold(TwoDays(100.0), 100.0, RunDates(TwoDays(100.0)));
    RunOutcome.RunCompletes(TwoDays(100.0), CASH);
  }

  /** An open of 0.4 fills at zero: the replay of the ledger and the cost of the position are then off. */
  lemma ZeroFillDisagrees()
    ensures var env := TwoDays(0.4);
            var sim := MainLoop(env, CASH).sim;
            && ZeroFill(env, SYMBOL, 1)
            && sim.account.cash != CASH.cash + LedgerCash(sim.book.trades)
            && SYMBOL in sim.book.positions.vals && SYMBOL in sim.account.positions.vals
            && sim.account.positions.vals[SYMBOL].averageCost != sim.book.positions.vals[SYMBOL].avgCost
  {
    TwoBarsOpen(0.4);
    BuyAtZero(TwoDays(0.4), RunDates(TwoDays(0.4)));
  }

  lemma BuyAtZero(env: Env, days: seq<Day>)
    requires OpensAt(env, 0.4) && days == [0, 1]
    ensures var sim := RunDays(env, Start(env, CASH), days).sim;
            && ZeroFill(env, SYMBOL, 1)
            && sim.account.cash != CASH.cash + LedgerCash(sim.book.trades)
            && SYMBOL in sim.book.positions.vals && SYMBOL in sim.account.positions.vals
            && sim.account.positions.vals[SYMBOL].averageCost != sim.book.positions.vals[SYMBOL].avgCost
  {
    TwoDaysHold(env, 0.4, days);
    OpenFillsAtZero(env);
    HeldAtZero(env, days);
  }

  lemma OpenFillsAtZero(env: Env)
    requires OpensAt(env, 0.4)
    ensures ZeroFill(env, SYMBOL, 1)
  {
  }

  lemma HeldAtZero(env: Env, days: seq<Day>)
    requires Holds(env, RunDays(env, Start(env, CASH), days).sim, 0.4) && ZeroFill(env, SYMBOL, 1)
    ensures var sim := RunDays(env, Start(env, CASH), days).sim;
            && sim.account.cash != CASH.cash + LedgerCash(sim.book.trades)
            && SYMBOL in sim.account.positions.vals
            && sim.account.positions.vals[SYMBOL].averageCost != sim.book.positions.vals[SYMBOL].avgCost
  {
    var sim := RunDays(env, Start(env, CASH), days).sim;
    assert BoughtAtZero(env, sim.book.trades[0]) && sim.book.trades[0] in sim.book.trades;
    ReplayGivesCash(env, CASH, days);
    ProfitReconciles(env, CASH, days);
  }

  /** Three bars at 100 throughout. */
  const THREE_BARS: Loader :=
    Loader(map[SYMBOL := seq(3, i => Row(i, 100.0, 100.0, 100.0, 100.0, 1))], [0, 1, 2])

  /** Position trading with a trailing stop of nothing, which is armed as soon as there is no loss. */
  const ZERO_TRAILING: Env :=
    Env(THREE_BARS, Costs(10, 0.0, 0.0), Settings(Sizing.Limits(1.0, 20.0, 5000000.0), 5, 10),
        Config(PositionTrading, Technical, 0, 2, 1000000.0, [SYMBOL], 0.0, 30, 1.0, 2.0, 0.0, 0.0),
        Oracle((rows: seq<Row>) => true, (rows: seq<Row>) => Some(5.0), (day: Day, sym: Symbol) => None,
               (closed: seq<PositionRecord>, snapshots: seq<Snapshot>) => false))

  lemma ThreeBarsOpen()
    ensures OpensAt(ZERO_TRAILING, 100.0) && GetClose(THREE_BARS, SYMBOL, 2) == Some(100.0)
    ensures RunDates(ZERO_TRAILING) == [0, 1, 2]
  {
    var rows := Rows(THREE_BARS, SYMBOL);
    assert rows[0].date == 0 && rows[1..][0].date == 1 && rows[1..][1..][0].date == 2;
    assert Find(rows, 1) == Find(rows[1..], 1) == Some(rows[1]);
    assert Find(rows, 2) == Find(rows[1..], 2) == Find(rows[1..][1..], 2) == Some(rows[2]);
    assert [0, 1, 2][1..] == [1, 2] && [1, 2][1..] == [2];
    assert DatesBetween([2], 0, 2) == [2] && DatesBetween([1, 2], 0, 2) == [1, 2];
  }

  /** The scan of the third day prices the trailing stop and raises, and the run fails with it. */
  lemma ZeroTrailingFails()
    ensures MainLoop(ZERO_TRAILING, CASH).raised && Run(ZERO_TRAILING, CASH).1.status == BacktestStatus.Failed
  {
    ThreeBarsOpen();
    var days := RunDates(ZERO_TRAILING);
    var held := RunDays(ZERO_TRAILING, Start(ZERO_TRAILING, CASH), days[..2]).sim;
    TwoDaysHold(ZERO_TRAILING, 100.0, days[..2]);
    HeldAtPar(ZERO_TRAILING, held);
    CannotTrailThere(ZERO_TRAILING, held);
    ThirdDayRaises(ZERO_TRAILING, Start(ZERO_TRAILING, CASH), days);
  }

  lemma HeldAtPar(env: Env, sim: Sim)
    requires OpensAt(env, 100.0) && Holds(env, sim, 100.0)
    ensures sim.book.positions.vals[SYMBOL].entryPrice == 100.0
  {
    assert SlippagePrice(env.costs, OrderSide.Buy, 100.0) == 100.0;
  }

  lemma CannotTrailThere(env: Env, sim: Sim)
    requires Holds(env, sim, 100.0) && sim.book.positions.vals[SYMBOL].entryPrice == 100.0
    requires GetClose(env.loader, SYMBOL, 2) == Some(100.0)
    requires env.config.strategy == PositionTrading && env.config.trailingStopPct == 0.0
    ensures FailsOn(env, sim.book, SYMBOL, 2)
  {
  }

  lemma ThirdDayRaises(env: Env, sim: Sim, days: seq<Day>)
    requires Sound(sim) && |days| == 3 && days[2] == 2
    requires var r := RunDays(env, sim, days[..2]);
             && !r.raised && BookSound(r.sim.book)
             && SYMBOL in r.sim.book.positions.vals && FailsOn(env, r.sim.book, SYMBOL, 2)
    ensures RunDays(env, sim, days).raised
  {
    assert StopsAt(env, sim, days, 2);
    DaysRaise(env, sim, days);
  }

  /** Five shares a broker still holds from before. */
  const LEFTOVER: Account := CASH.(positions := Put(Empty(), "B", NewPosition("B", 5, 100.0, 0)))

  /** They stay with the broker and never show in the engine's book, so the two disagree after any days. */
  lemma {:induction false} LeftoverDisagrees(days: seq<Day>)
    ensures var sim := RunDays(TwoDays(100.0), Start(TwoDays(100.0), LEFTOVER), days).sim;
            && Held(sim.account, "B") == 5 + EngineQuantity(sim.book, "B")
            && !Mirror(sim)
  {
    assert Held(LEFTOVER, "B") == 5;
    QuantitiesOnTop(TwoDays(100.0), LEFTOVER, days, "B");
  }
}
