/**
  The backtest day loop (src/backtest/engine.py) as functions on the pair of the engine's book and the
  broker's account. The engine class in Engine.dfy is proved against these functions.

  Technical indicators, the replay of logged decisions and whether the performance report raises are an
  uninterpreted `Oracle`: indicators see the bars up to the current day, the replay sees the day and the symbol,
  the report sees the closed positions and the snapshots. A `Step` whose `raised` is set is an exception that
  leaves the loop.
*/
module Backtest {
  import opened Wrappers
  import opened Decimals
  import opened Dicts
  import opened Enums
  import opened MarketData
  import opened ExitRules
  import opened Simulator
  import Sizing

  datatype Config =
    Config(strategy: StrategyType, mode: BacktestMode, start: Day, end: Day, initialCapital: real, symbols: seq<Symbol>,
           trailingStopPct: real, maxHoldingDays: int, atrStopMult: real, atrTpMult: real, stopPct: real, tpPct: real)

  datatype Settings = Settings(sizing: Sizing.Limits, maxPositions: int, maxDailyTrades: int)

  datatype Oracle =
    Oracle(entry: seq<Row> -> bool, atr: seq<Row> -> Option<real>, replay: (Day, Symbol) -> Option<SignalAction>,
           reportRaises: (seq<PositionRecord>, seq<Snapshot>) -> bool)

  datatype Env = Env(loader: Loader, costs: Costs, settings: Settings, config: Config, oracle: Oracle)

  datatype RecordStatus = Open | Closed

  /** Why the engine closes a position: an `ExitReason`, or the string "backtest_end". */
  datatype ExitTag = Because(reason: ExitReason) | BacktestEnd

  datatype PositionRecord =
    PositionRecord(id: nat, symbol: Symbol, quantity: Shares, avgCost: real, entryPrice: real, entryDate: Day,
                   stopLoss: real, takeProfit: Option<real>, trailingPct: Option<real>, maxDays: Option<int>,
                   status: RecordStatus, exitPrice: Option<real>, exitDate: Option<Day>, exitTag: Option<ExitTag>,
                   realizedPnl: Option<real>)

  datatype TradeRecord =
    TradeRecord(symbol: Symbol, side: OrderSide, quantity: Shares, price: real, commission: real, slippage: real,
                date: Day, pnl: Option<real>, exitReason: Option<ExitReason>)

  datatype Snapshot =
    Snapshot(id: nat, date: Day, totalValue: real, cash: real, invested: real, unrealizedPnl: real,
             realizedDaily: real, peakValue: real, drawdownPct: real, positionsCount: nat, tradeCountDaily: nat)

  datatype Signal =
    Signal(symbol: Symbol, action: SignalAction, target: Option<real>, stop: Option<real>, quantity: int)

  datatype Book =
    Book(positions: Dict<Symbol, PositionRecord>, closed: seq<PositionRecord>, snapshots: seq<Snapshot>,
         trades: seq<TradeRecord>, pending: seq<Signal>, highest: map<Symbol, real>, lastId: nat,
         lastSnapshotId: nat, peakValue: real, dailyTrades: nat, dailyPnl: real)

  datatype Sim = Sim(book: Book, account: Account)

  datatype Step = Step(sim: Sim, raised: bool)

  function FreshBook(capital: real): Book {
    Book(Empty(), [], [], [], [], map[], 0, 0, capital, 0, 0.0)
  }

  // ---- Exits ----

  datatype Scan = Scan(highest: map<Symbol, real>, exits: seq<(Symbol, ExitReason)>, raised: bool)

  function OrElse<T>(first: Option<T>, second: Option<T>): Option<T> {
    if first.Some? then first else second
  }

  /** The trailing stop is armed once the profit has reached its own percentage; pricing it may raise. */
  function TrailingExit(pos: PositionRecord, close: real, pnlPct: real, highest: real)
    : Result<Option<ExitReason>, ValueError>
  {
    if pos.trailingPct.None? || pnlPct < pos.trailingPct.value then Success(None)
    else
      match TrailingStopPrice(highest, pos.trailingPct.value)
      case Failure(e) => Failure(e)
      case Success(price) => Success(CheckTrailingStop(close, price))
  }

  /** The first of stop loss, trailing stop, take profit and holding limit that holds at this close. */
  function ExitDecision(pos: PositionRecord, close: real, highest: real, today: Day)
    : Result<Option<ExitReason>, ValueError>
  {
    if pos.entryPrice == 0.0 then Failure(NotPositive)
    else
      var pnlPct := PctOf(close - pos.entryPrice, pos.entryPrice);
      if CheckStopLoss(close, pos.stopLoss).Some? then Success(CheckStopLoss(close, pos.stopLoss))
      else
        match TrailingExit(pos, close, pnlPct, highest)
        case Failure(e) => Failure(e)
        case Success(trailing) =>
          Success(OrElse(trailing, OrElse(CheckTakeProfit(close, pos.takeProfit),
                                          CheckTimeBased(pos.entryDate, today, pos.maxDays))))
  }

  function NewHigh(highest: map<Symbol, real>, sym: Symbol, pos: PositionRecord, close: real): real {
    Max(if sym in highest then highest[sym] else pos.entryPrice, close)
  }

  function ScanOne(env: Env, day: Day, sym: Symbol, pos: PositionRecord, scan: Scan): Scan {
    match GetClose(env.loader, sym, day)
    case None => scan
    case Some(close) =>
      if pos.entryPrice == 0.0 then scan.(raised := true)
      else
        var high := NewHigh(scan.highest, sym, pos, close);
        var marked := scan.(highest := scan.highest[sym := high]);
        match ExitDecision(pos, close, high, day)
        case Failure(_) => marked.(raised := true)
        case Success(None) => marked
        case Success(Some(reason)) => marked.(exits := marked.exits + [(sym, reason)])
  }

  function ScanAll(env: Env, day: Day, keys: seq<Symbol>, vals: map<Symbol, PositionRecord>, scan: Scan): Scan
    requires forall k :: k in keys ==> k in vals
    decreases |keys|
  {
    if keys == [] || scan.raised then scan
    else ScanAll(env, day, keys[1..], vals, ScanOne(env, day, keys[0], vals[keys[0]], scan))
  }

  function ScanBook(env: Env, day: Day, book: Book): Scan {
    ScanAll(env, day, book.positions.keys, book.positions.vals, Scan(book.highest, [], false))
  }

  function CloseRecord(pos: PositionRecord, close: real, day: Day, tag: ExitTag, pnl: real): PositionRecord {
    pos.(exitPrice := Some(close), exitDate := Some(day), exitTag := Some(tag), realizedPnl := Some(pnl),
         status := RecordStatus.Closed)
  }

  /** The book once the broker has sold the position, before the trade record is written. */
  function BookClosed(book: Book, sym: Symbol, close: real, day: Day, tag: ExitTag, commission: real): Book
    requires sym in book.positions.vals
  {
    var pos := book.positions.vals[sym];
    var pnl := Amount(close - pos.avgCost, pos.quantity) - commission;
    book.(closed := book.closed + [CloseRecord(pos, close, day, tag, pnl)],
          positions := Remove(book.positions, sym),
          highest := book.highest - {sym},
          dailyPnl := book.dailyPnl + pnl,
          dailyTrades := book.dailyTrades + 1)
  }

  function ExitOrder(pos: PositionRecord, sym: Symbol, close: real): OrderRequest {
    OrderRequest(sym, OrderSide.Sell, OrderType.Limit, pos.quantity, Some(close))
  }

  function ExitTrade(pos: PositionRecord, sym: Symbol, close: real, day: Day, reason: ExitReason,
                     commission: real): TradeRecord
  {
    TradeRecord(sym, OrderSide.Sell, pos.quantity, close, commission, 0.0, day,
                Some(Amount(close - pos.avgCost, pos.quantity) - commission), Some(reason))
  }

  /**
    What the engine does once the broker has sold. The trade record's exit reason has to be an `ExitReason`: with
    "backtest_end" its constructor raises, after the book has moved on.
  */
  function AfterSale(sim: Sim, sym: Symbol, close: real, day: Day, tag: ExitTag, account: Account,
                     commission: real): Step
    requires sym in sim.book.positions.vals
  {
    var book := BookClosed(sim.book, sym, close, day, tag, commission);
    match tag
    case BacktestEnd => Step(Sim(book, account), true)
    case Because(reason) =>
      var trade := ExitTrade(sim.book.positions.vals[sym], sym, close, day, reason, commission);
      Step(Sim(book.(trades := book.trades + [trade]), account), false)
  }

  /** Closes one position at the close of the day. */
  function ExecuteExit(env: Env, sim: Sim, sym: Symbol, day: Day, tag: ExitTag): Step {
    if sym !in sim.book.positions.vals then Step(sim, false)
    else
      match GetClose(env.loader, sym, day)
      case None => Step(sim, false)
      case Some(close) =>
        match Place(env.loader, env.costs, sim.account, ExitOrder(sim.book.positions.vals[sym], sym, close))
        case Failure(_) => Step(sim, true)
        case Success(placed) => AfterSale(sim, sym, close, day, tag, placed.0, placed.1.commission)
  }

  function ExecuteExits(env: Env, sim: Sim, exits: seq<(Symbol, ExitReason)>, day: Day): Step
    decreases |exits|
  {
    if exits == [] then Step(sim, false)
    else
      var first := ExecuteExit(env, sim, exits[0].0, day, Because(exits[0].1));
      if first.raised then first else ExecuteExits(env, first.sim, exits[1..], day)
  }

  function CheckExits(env: Env, sim: Sim, day: Day): Step {
    var scan := ScanBook(env, day, sim.book);
    var marked := sim.(book := sim.book.(highest := scan.highest));
    if scan.raised then Step(marked, true) else ExecuteExits(env, marked, scan.exits, day)
  }

  // ---- Entries ----

  function CapQuantity(room: real, price: real): int {
    if price > 0.0 then Units(room, price) else 0
  }

  /** `_risk_check`: the quantity cut down to the caps, or refusal. */
  function RiskCheck(env: Env, sim: Sim, sym: Symbol, quantity: int, price: real): (r: Option<Shares>)
    ensures r.Some? ==> r.value <= quantity && price > 0.0
    ensures r.Some? ==> sym !in sim.book.positions.vals
  {
    if |sim.book.positions.keys| >= env.settings.maxPositions then None
    else if sim.book.dailyTrades >= env.settings.maxDailyTrades then None
    else if sym in sim.book.positions.vals then None
    else
      var byPct := CapQuantity(Percent(TotalValue(sim.account), env.settings.sizing.maxPositionPct), price);
      var byKrw := CapQuantity(env.settings.sizing.maxPositionKrw, price);
      var byCash := CapQuantity(sim.account.cash, price);
      var adjusted := MinInt(MinInt(MinInt(quantity, byPct), byKrw), byCash);
      if adjusted <= 0 then None else Some(adjusted)
  }

  function EntryOrder(sym: Symbol, quantity: Shares): OrderRequest {
    OrderRequest(sym, OrderSide.Buy, OrderType.Market, quantity, None)
  }

  /** `result.filled_price or open_price`: a fill of zero is falsy. */
  function EntryPrice(filled: real, open: real): real {
    if filled != 0.0 then filled else open
  }

  function EntryRecord(env: Env, book: Book, signal: Signal, quantity: Shares, price: real, day: Day): PositionRecord {
    PositionRecord(book.lastId + 1, signal.symbol, quantity, price, price, day, signal.stop.GetOr(0.0), signal.target,
                   if env.config.strategy == PositionTrading then Some(env.config.trailingStopPct) else None,
                   Some(env.config.maxHoldingDays), RecordStatus.Open, None, None, None, None)
  }

  function EntryTrade(sym: Symbol, quantity: Shares, price: real, open: real, commission: real, day: Day): TradeRecord {
    TradeRecord(sym, OrderSide.Buy, quantity, price, commission, Amount(Abs(price - open), quantity), day, None, None)
  }

  function BookEntered(env: Env, book: Book, signal: Signal, quantity: Shares, filled: real, open: real,
                       commission: real, day: Day): Book
  {
    var sym := signal.symbol;
    var price := EntryPrice(filled, open);
    book.(lastId := book.lastId + 1,
          positions := Put(book.positions, sym, EntryRecord(env, book, signal, quantity, price, day)),
          highest := book.highest[sym := price],
          dailyTrades := book.dailyTrades + 1,
          trades := book.trades + [EntryTrade(sym, quantity, price, open, commission, day)])
  }

  /** A filled entry order: the adjusted quantity, today's open, the account after it and the order result. */
  datatype Fill = Fill(quantity: Shares, open: real, account: Account, result: OrderResult)

  /** The fill of a pending signal, unless a guard, the risk check or the broker turns it down. */
  function EntryFill(env: Env, sim: Sim, signal: Signal, day: Day): Option<Fill> {
    var sym := signal.symbol;
    if signal.action != SignalAction.Buy || sym in sim.book.positions.vals then None
    else
      match GetOpen(env.loader, sym, day)
      case None => None
      case Some(open) =>
        match RiskCheck(env, sim, sym, signal.quantity, open)
        case None => None
        case Some(quantity) =>
          match Place(env.loader, env.costs, sim.account, EntryOrder(sym, quantity))
          case Failure(_) => None
          case Success(placed) => Some(Fill(quantity, open, placed.0, placed.1))
  }

  function Enter(env: Env, sim: Sim, signal: Signal, day: Day): Sim {
    match EntryFill(env, sim, signal, day)
    case None => sim
    case Some(f) =>
      Sim(BookEntered(env, sim.book, signal, f.quantity, f.result.filledPrice, f.open, f.result.commission, day),
          f.account)
  }

  function EnterAll(env: Env, sim: Sim, signals: seq<Signal>, day: Day): Sim
    decreases |signals|
  {
    if signals == [] then sim
    else EnterAll(env, Enter(env, sim, signals[0], day), signals[1..], day)
  }

  function TakePending(sim: Sim): Sim {
    sim.(book := sim.book.(pending := []))
  }

  function ExecutePending(env: Env, sim: Sim, day: Day): Sim {
    EnterAll(env, TakePending(sim), sim.book.pending, day)
  }

  // ---- Signals ----

  function Earliest(loader: Loader, day: Day): Day {
    if loader.tradingDates != [] then loader.tradingDates[0] else day
  }

  function ExitPricesFor(env: Env, rows: seq<Row>, close: real): Option<ExitPrices> {
    var prices :=
      if env.config.strategy == PositionTrading then
        match env.oracle.atr(rows)
        case None => Failure(NotPositive)
        case Some(atr) => AtrBased(close, atr, env.config.atrStopMult, env.config.atrTpMult)
      else FixedPercentage(close, env.config.stopPct, env.config.tpPct);
    match prices
    case Failure(_) => None
    case Success(p) => Some(p)
  }

  /** A buy signal at today's close, sized against the portfolio; anything that raises gives no signal. */
  function Sized(env: Env, sym: Symbol, close: real, rows: seq<Row>, total: real): Option<Signal> {
    match ExitPricesFor(env, rows, close)
    case None => None
    case Some(prices) =>
      match Sizing.Calculate(env.settings.sizing, sym, close, prices.stop, Some(prices.target), total, 0.0)
      case Failure(_) => None
      case Success(sizing) =>
        if sizing.quantity <= 0 then None
        else Some(Signal(sym, SignalAction.Buy, Some(prices.target), Some(prices.stop), sizing.quantity))
  }

  /** What the strategy proposes for a symbol, from the bars of the history up to `day` alone. */
  function Propose(env: Env, sym: Symbol, day: Day, total: real): Option<Signal> {
    var rows := GetOhlcvRange(env.loader, sym, Earliest(env.loader, day), day);
    var wanted := if env.config.mode == LlmReplay then env.oracle.replay(day, sym) == Some(SignalAction.Buy)
                  else rows != [] && env.oracle.entry(rows);
    if !wanted then None
    else
      match GetClose(env.loader, sym, day)
      case None => None
      case Some(close) => Sized(env, sym, close, rows, total)
  }

  predicate IsPending(pending: seq<Signal>, sym: Symbol) {
    exists i :: 0 <= i < |pending| && pending[i].symbol == sym
  }

  function Generate(env: Env, book: Book, sym: Symbol, day: Day, total: real): Book {
    if sym in book.positions.vals || IsPending(book.pending, sym) then book
    else
      match Propose(env, sym, day, total)
      case None => book
      case Some(signal) => book.(pending := book.pending + [signal])
  }

  function GenerateAll(env: Env, book: Book, symbols: seq<Symbol>, day: Day, total: real): Book
    decreases |symbols|
  {
    if symbols == [] then book
    else GenerateAll(env, Generate(env, book, symbols[0], day, total), symbols[1..], day, total)
  }

  function GenerateSignals(env: Env, sim: Sim, day: Day): Sim {
    sim.(book := GenerateAll(env, sim.book, env.config.symbols, day, TotalValue(sim.account)))
  }

  // ---- Snapshots ----

  /** Profit of a position at the close of the day; nothing without a bar. */
  function ProfitAt(loader: Loader, day: Day, pos: PositionRecord): real {
    match GetClose(loader, pos.symbol, day)
    case Some(close) => Amount(close - pos.avgCost, pos.quantity)
    case None => 0.0
  }

  function Unrealized(loader: Loader, day: Day, keys: seq<Symbol>, vals: map<Symbol, PositionRecord>): real
    requires forall k :: k in keys ==> k in vals
    decreases |keys|
  {
    if keys == [] then 0.0 else ProfitAt(loader, day, vals[keys[0]]) + Unrealized(loader, day, keys[1..], vals)
  }

  function DrawdownPct(peak: real, total: real): real {
    if peak > 0.0 then Cents(PctOf(peak - total, peak)) else 0.0
  }

  function SnapshotOf(env: Env, sim: Sim, day: Day): Snapshot {
    var total := TotalValue(sim.account);
    var peak := Max(sim.book.peakValue, total);
    Snapshot(sim.book.lastSnapshotId + 1, day, total, sim.account.cash, total - sim.account.cash,
             Unrealized(env.loader, day, sim.book.positions.keys, sim.book.positions.vals),
             sim.book.dailyPnl, peak, DrawdownPct(peak, total), |sim.book.positions.keys|, sim.book.dailyTrades)
  }

  function RecordSnapshot(env: Env, sim: Sim, day: Day): Sim {
    var snapshot := SnapshotOf(env, sim, day);
    sim.(book := sim.book.(peakValue := snapshot.peakValue, lastSnapshotId := snapshot.id,
                           snapshots := sim.book.snapshots + [snapshot]))
  }

  // ---- The loop ----

  function ResetDay(sim: Sim): Sim {
    sim.(book := sim.book.(dailyTrades := 0, dailyPnl := 0.0))
  }

  function MarkTo(env: Env, sim: Sim, day: Day): Sim {
    sim.(account := SetDate(env.loader, sim.account, day))
  }

  function RunDay(env: Env, sim: Sim, day: Day): Step {
    var checked := CheckExits(env, MarkTo(env, ResetDay(sim), day), day);
    if checked.raised then checked
    else
      var entered := ExecutePending(env, checked.sim, day);
      Step(RecordSnapshot(env, GenerateSignals(env, entered, day), day), false)
  }

  function RunDays(env: Env, sim: Sim, days: seq<Day>): Step
    decreases |days|
  {
    if days == [] then Step(sim, false)
    else
      var first := RunDay(env, sim, days[0]);
      if first.raised then first else RunDays(env, first.sim, days[1..])
  }

  function ForceClose(env: Env, sim: Sim, symbols: seq<Symbol>, day: Day): Step
    decreases |symbols|
  {
    if symbols == [] then Step(sim, false)
    else
      var first := ExecuteExit(env, sim, symbols[0], day, BacktestEnd);
      if first.raised then first else ForceClose(env, first.sim, symbols[1..], day)
  }

  function RunDates(env: Env): seq<Day> {
    DatesBetween(env.loader.tradingDates, env.config.start, env.config.end)
  }

  /** The main loop of a run over an account: every trading date of the configured range in order. */
  function MainLoop(env: Env, account: Account): Step {
    RunDays(env, Sim(FreshBook(env.config.initialCapital), account), RunDates(env))
  }

  datatype RunResult = RunResult(status: BacktestStatus, trades: seq<TradeRecord>)

  /** `_calculate_metrics`, which comes last inside the same `try`: without snapshots there is nothing to report. */
  predicate ReportRaises(env: Env, book: Book) {
    book.snapshots != [] && env.oracle.reportRaises(book.closed, book.snapshots)
  }

  function StatusOf(raised: bool): BacktestStatus {
    if raised then BacktestStatus.Failed else Completed
  }

  function Run(env: Env, account: Account): (Sim, RunResult) {
    var days := RunDates(env);
    if days == [] || env.config.symbols == [] then
      (Sim(FreshBook(env.config.initialCapital), account), RunResult(Completed, []))
    else
      var loop := MainLoop(env, account);
      if loop.raised then (loop.sim, RunResult(BacktestStatus.Failed, loop.sim.book.trades))
      else
        var end := ForceClose(env, loop.sim, loop.sim.book.positions.keys, days[|days| - 1]);
        (end.sim, RunResult(StatusOf(end.raised || ReportRaises(env, end.sim.book)), end.sim.book.trades))
  }
}
